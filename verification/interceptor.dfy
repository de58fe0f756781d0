/** The admission interceptor: the proxy hooks that resolve a request's route, hold it
    until the workload reports a ready replica or the deadline passes, name the backend
    to forward to, and keep the per-host gauges. Time is counted in milliseconds; an
    oracle query takes no time and is answered by a `Backend`, a function from the
    request sent and its position in the poll to the reply that came back. */
module Admission {
  import opened Wrappers
  import opened Text
  import opened Numerals
  import opened RouteConfig
  import opened MetricsRegistry
  import ReadinessQuery

  /** The pause after a zero reading before the next query. */
  const POLL_INTERVAL_MS: nat := 1000

  /** The reason a timed-out request carries. */
  const TIMEOUT_REASON: string := "timeout"

  type byte = b: int | 0 <= b < 256

  /** What the metrics backend answers to the `i`-th query of a poll. */
  type Backend = (ReadinessQuery.QueryRequest, nat) -> ReadinessQuery.Reply

  datatype Error =
    | ServiceNotFound(host: string)
    | HostInvalid
    | ServiceNotReady(host: string, reason: string)
    | ReadServicesError
    | QueryError(cause: ReadinessQuery.Error)

  /** Per-request state: the resolved route, and whether the active gauge was raised. */
  datatype Context = Context(service: Option<Service>, active: bool)

  datatype Interceptor = Interceptor(queryer: ReadinessQuery.Queryer, services: Config)

  /** Where and how to forward: `address` is `host:port`, `tls` whether to encrypt, `sni` the TLS server name. */
  datatype HttpPeer = HttpPeer(address: string, tls: bool, sni: string)

  /** What a hook returns together with the context and metrics it leaves behind. */
  datatype Step<T> = Step(result: Result<T, Error>, ctx: Context, metrics: Metrics)

  /** How a poll ended: a positive reading, an oracle failure, or the deadline. In every
      case `zeros` counts the zero readings seen before the end. */
  datatype PollOutcome =
    | Ready(zeros: nat)
    | OracleFailed(zeros: nat, error: ReadinessQuery.Error)
    | TimedOut(zeros: nat)

  /** The HTTP status a hook error is answered with. */
  function StatusCode(e: Error): (code: u16)
    ensures code == 404 <==> e.ServiceNotFound?
    ensures code == 400 <==> e.HostInvalid?
    ensures code == 503 <==> e.ServiceNotReady?
    ensures code == 500 <==> e.ReadServicesError? || e.QueryError?
  {
    match e
    case ServiceNotFound(_) => 404
    case HostInvalid => 400
    case ServiceNotReady(_, _) => 503
    case _ => 500
  }

  /** The context of a new request: no route, active gauge untouched. */
  function NewContext(): (ctx: Context)
    ensures ctx.service.None? && !ctx.active
  {
    Context(None, false)
  }

  /** The interceptor for a metrics backend at `address` and a route table. */
  function New(address: string, services: Config): (it: Interceptor)
    ensures StripSuffix(it.queryer.endpoint, ReadinessQuery.API_PATH) == Some(address)
    ensures it.services == services
  {
    Interceptor(ReadinessQuery.New(address), services)
  }

  // ---------------------------------------------------------------- Host header

  /** Header bytes that are text: visible ASCII or a horizontal tab. */
  predicate IsVisibleAscii(b: byte) {
    b == 9 || 32 <= b < 127
  }

  /** `HeaderValue::to_str`: the header as text when every byte is visible ASCII. */
  function HeaderText(v: seq<byte>): (r: Option<string>)
    ensures r.Some? <==> forall i :: 0 <= i < |v| ==> IsVisibleAscii(v[i])
    ensures r.Some? ==> |r.value| == |v| && forall i :: 0 <= i < |v| ==> r.value[i] as int == v[i]
  {
    if forall i :: 0 <= i < |v| ==> IsVisibleAscii(v[i]) then
      Some(seq(|v|, i requires 0 <= i < |v| => v[i] as char))
    else
      None
  }

  /** The bytes of an ASCII header text. */
  function HeaderBytes(s: string): (v: seq<byte>)
    requires forall i :: 0 <= i < |s| ==> s[i] as int < 256
    ensures |v| == |s|
  {
    seq(|s|, i requires 0 <= i < |s| => s[i] as int as byte)
  }

  /** Reading back the bytes of any visible-ASCII text gives that text. */
  lemma HeaderTextRoundTrip(s: string)
    requires forall i :: 0 <= i < |s| ==> s[i] == '\t' || ' ' <= s[i] <= '~'
    ensures HeaderText(HeaderBytes(s)) == Some(s)
  {
    var v := HeaderBytes(s);
    assert forall i :: 0 <= i < |v| ==> IsVisibleAscii(v[i]);
    assert HeaderText(v).value == s;
  }

  /** The Host header as text: missing, or present but not visible ASCII, is `HostInvalid`. */
  function HostOf(header: Option<seq<byte>>): (r: Result<string, Error>)
    ensures r.Err? ==> r.error == HostInvalid
    ensures r.Ok? <==> header.Some? && HeaderText(header.value).Some?
    ensures r.Ok? ==> Some(r.value) == HeaderText(header.value)
  {
    match header
    case None => Err(HostInvalid)
    case Some(v) =>
      match HeaderText(v)
      case None => Err(HostInvalid)
      case Some(host) => Ok(host)
  }

  // ---------------------------------------------------------------- Route lookup

  /** The index of the first route whose host equals `host` exactly. */
  function FindRoute(services: seq<Service>, host: string): (r: Option<nat>)
    ensures r.Some? ==> r.value < |services| && services[r.value].host == host
    ensures r.Some? ==> forall j :: 0 <= j < r.value ==> services[j].host != host
    ensures r.None? <==> forall j :: 0 <= j < |services| ==> services[j].host != host
  {
    if |services| == 0 then None
    else if services[0].host == host then Some(0)
    else
      match FindRoute(services[1..], host)
      case None => None
      case Some(i) => Some(i + 1)
  }

  /** The route for `host`: the first declared route with exactly that host. */
  function Lookup(cfg: Config, host: string): (r: Option<Service>)
    ensures r.Some? ==> r.value.host == host && r.value in cfg.services
    ensures r.None? <==> forall j :: 0 <= j < |cfg.services| ==> cfg.services[j].host != host
  {
    match FindRoute(cfg.services, host)
    case None => None
    case Some(i) => Some(cfg.services[i])
  }

  /** A route preceded by no other route for its host is the one found, however many
      later routes share that host. */
  lemma LookupFirst(cfg: Config, i: nat)
    requires i < |cfg.services|
    requires forall j :: 0 <= j < i ==> cfg.services[j].host != cfg.services[i].host
    ensures Lookup(cfg, cfg.services[i].host) == Some(cfg.services[i])
  {
    var r := FindRoute(cfg.services, cfg.services[i].host);
    assert r.Some?;
  }

  /** The deadline of a request: the route's own timeout, else the table's. */
  function EffectiveTimeout(cfg: Config, svc: Service): (ms: nat)
    ensures svc.timeout.Some? ==> ms == svc.timeout.value
    ensures svc.timeout.None? ==> ms == cfg.timeout
  {
    if svc.timeout.Some? then svc.timeout.value else cfg.timeout
  }

  /** A route without its own timeout, in a document without a global one, waits 30 seconds. */
  lemma DefaultDeadline(raw: RawConfig, i: nat)
    requires i < |raw.services| && raw.services[i].timeout.None? && raw.timeout.None?
    requires DecodeConfig(raw).Ok?
    ensures EffectiveTimeout(DecodeConfig(raw).value, DecodeConfig(raw).value.services[i]) == DEFAULT_TIMEOUT_MS
  {
    assert DecodeService(raw.services[i]) == Ok(DecodeConfig(raw).value.services[i]);
  }

  // ---------------------------------------------------------------- Poll loop

  /** The reading of the `i`-th query a request about `svc` issues. */
  function Answers(q: ReadinessQuery.Queryer, svc: Service, backend: Backend): nat -> Result<u64, ReadinessQuery.Error> {
    (i: nat) => ReadinessQuery.Interpret(backend(ReadinessQuery.Request(q, svc.ty, svc.namespace, svc.name), i))
  }

  /** How a poll with these readings and this deadline must end: query `i` is issued at
      `i` poll intervals and only while that is before the deadline; every reading before
      the last is zero; the last is positive, an error, or never issued because the
      deadline came first. */
  ghost predicate PollSpec(answers: nat -> Result<u64, ReadinessQuery.Error>, deadline: nat, r: PollOutcome) {
    && (forall i :: 0 <= i < r.zeros ==> answers(i) == Ok(0))
    && match r
       case Ready(z) => z * POLL_INTERVAL_MS < deadline && answers(z).Ok? && answers(z).value > 0
       case OracleFailed(z, e) => z * POLL_INTERVAL_MS < deadline && answers(z) == Err(e)
       case TimedOut(z) => deadline <= z * POLL_INTERVAL_MS < deadline + POLL_INTERVAL_MS
  }

  /** The poll from query `k` on, all earlier readings having been zero. */
  function PollFrom(answers: nat -> Result<u64, ReadinessQuery.Error>, deadline: nat, k: nat): (r: PollOutcome)
    requires k * POLL_INTERVAL_MS < deadline + POLL_INTERVAL_MS
    ensures k <= r.zeros
    ensures forall i :: k <= i < r.zeros ==> answers(i) == Ok(0)
    ensures r.Ready? ==> r.zeros * POLL_INTERVAL_MS < deadline && answers(r.zeros).Ok? && answers(r.zeros).value > 0
    ensures r.OracleFailed? ==> r.zeros * POLL_INTERVAL_MS < deadline && answers(r.zeros) == Err(r.error)
    ensures r.TimedOut? ==> deadline <= r.zeros * POLL_INTERVAL_MS < deadline + POLL_INTERVAL_MS
    decreases deadline - k * POLL_INTERVAL_MS
  {
    if deadline <= k * POLL_INTERVAL_MS then TimedOut(k)
    else
      match answers(k)
      case Err(e) => OracleFailed(k, e)
      case Ok(n) => if n > 0 then Ready(k) else PollFrom(answers, deadline, k + 1)
  }

  /** The poll loop of `request_filter`, raced against the deadline. */
  function Poll(answers: nat -> Result<u64, ReadinessQuery.Error>, deadline: nat): (r: PollOutcome)
    ensures PollSpec(answers, deadline, r)
  {
    PollFrom(answers, deadline, 0)
  }

  /** At most one outcome meets the specification, so `Poll` is the only loop that does. */
  lemma PollSpecUnique(answers: nat -> Result<u64, ReadinessQuery.Error>, deadline: nat, r1: PollOutcome, r2: PollOutcome)
    requires PollSpec(answers, deadline, r1) && PollSpec(answers, deadline, r2)
    ensures r1 == r2
  {
  }

  /** Milliseconds from the first query to the end of the poll. */
  function Elapsed(r: PollOutcome, deadline: nat): nat {
    if r.TimedOut? then deadline else r.zeros * POLL_INTERVAL_MS
  }

  /** A poll never outlasts its deadline, and one that ends before it has slept one
      interval after each zero reading and no more. */
  lemma PollElapsed(answers: nat -> Result<u64, ReadinessQuery.Error>, deadline: nat)
    ensures Elapsed(Poll(answers, deadline), deadline) <= deadline
    ensures !Poll(answers, deadline).TimedOut? ==> Elapsed(Poll(answers, deadline), deadline) < deadline
  {
  }

  /** A positive first reading before the deadline admits at once, with no sleep. */
  lemma PollFirstReady(answers: nat -> Result<u64, ReadinessQuery.Error>, deadline: nat)
    requires deadline > 0 && answers(0).Ok? && answers(0).value > 0
    ensures Poll(answers, deadline) == Ready(0)
    ensures Elapsed(Poll(answers, deadline), deadline) == 0
  {
  }

  /** Readings that are zero for every query issued before the deadline end in a timeout
      after one query per started interval; what a query that is never issued would have
      read plays no part. */
  lemma PollAllZero(answers: nat -> Result<u64, ReadinessQuery.Error>, deadline: nat)
    requires forall i: nat :: i * POLL_INTERVAL_MS < deadline ==> answers(i) == Ok(0)
    ensures Poll(answers, deadline).TimedOut?
    ensures Poll(answers, deadline).zeros == (deadline + POLL_INTERVAL_MS - 1) / POLL_INTERVAL_MS
  {
    var last := answers(Poll(answers, deadline).zeros);
  }

  // ---------------------------------------------------------------- Hooks

  /** `request_filter`: resolve the route, count the request, and hold it until the
      workload is ready or the deadline passes. */
  function RequestFilter(it: Interceptor, header: Option<seq<byte>>, ctx: Context, m: Metrics, backend: Backend): (s: Step<bool>)
    ensures s.ctx.active == ctx.active && s.metrics.active == m.active
    ensures s.result.Ok? ==> !s.result.value && s.ctx.service.Some?
    ensures s.result.Err? ==> StatusCode(s.result.error) != 500
    ensures s.ctx.service.None? ==> s.ctx == ctx && s.metrics == m
  {
    match HostOf(header)
    case Err(e) => Step(Err(e), ctx, m)
    case Ok(host) =>
      match Lookup(it.services, host)
      case None => Step(Err(ServiceNotFound(host)), ctx, m)
      case Some(svc) =>
        var ctx' := ctx.(service := Some(svc));
        var m' := m.(pending := Inc(m.pending, host), total := Inc(m.total, host));
        var outcome := Poll(Answers(it.queryer, svc, backend), EffectiveTimeout(it.services, svc));
        if outcome.TimedOut? then Step(Err(ServiceNotReady(host, TIMEOUT_REASON)), ctx', m')
        else Step(Ok(false), ctx', m')
  }

  /** `upstream_peer`: the backend service of the resolved route, in plain text. */
  function UpstreamPeer(ctx: Context): (r: Result<HttpPeer, Error>)
    ensures ctx.service.None? ==> r == Err(ServiceNotFound(""))
    ensures ctx.service.Some? ==> r.Ok? && !r.value.tls && r.value.sni == ""
    ensures ctx.service.Some? ==> SplitAddress(r.value.address) == Some((ctx.service.value.serviceName, ctx.service.value.servicePort))
  {
    match ctx.service
    case None => Err(ServiceNotFound(""))
    case Some(svc) =>
      AddressRoundTrip(svc.serviceName, svc.servicePort);
      Ok(HttpPeer(Address(svc.serviceName, svc.servicePort), false, ""))
  }

  /** `name:port` with the port in decimal. */
  function Address(name: string, port: u16): string {
    name + ":" + Decimal(port)
  }

  /** Reads `name:port` back at its last colon. */
  function SplitAddress(a: string): Option<(string, u16)> {
    match LastIndexOf(a, ':')
    case None => None
    case Some(i) =>
      match ParseU64(a[i + 1..])
      case None => None
      case Some(port) => if port < 0x1_0000 then Some((a[..i], port)) else None
  }

  /** The address names exactly the backend service and its port: nothing else, and in
      particular not the namespace, is part of it. */
  lemma AddressRoundTrip(name: string, port: u16)
    ensures SplitAddress(Address(name, port)) == Some((name, port))
  {
    var a := Address(name, port);
    DecimalHasNo(port, ':');
    assert a == name + [':'] + Decimal(port);
    LastIndexOfJoin(name, ':', Decimal(port));
    assert a[|name| + 1..] == Decimal(port);
    assert a[..|name|] == name;
    ParseDecimal(port);
  }

  /** `connected_to_upstream`: marks the request active and raises its host's active gauge. */
  function ConnectedToUpstream(ctx: Context, m: Metrics): (s: Step<()>)
    ensures ctx.service.None? ==> s == Step(Err(ServiceNotFound("")), ctx, m)
    ensures ctx.service.Some? ==> s.result.Ok? && s.ctx == ctx.(active := true)
    ensures ctx.service.Some? ==> s.metrics.pending == m.pending && s.metrics.total == m.total
    ensures ctx.service.Some? ==> Get(s.metrics.active, ctx.service.value.host) == Get(m.active, ctx.service.value.host) + 1
    ensures forall h :: ctx.service.None? || h != ctx.service.value.host ==> Get(s.metrics.active, h) == Get(m.active, h)
  {
    match ctx.service
    case None => Step(Err(ServiceNotFound("")), ctx, m)
    case Some(svc) => Step(Ok(()), ctx.(active := true), m.(active := Inc(m.active, svc.host)))
  }

  /** `logging`: releases the pending gauge, and the active gauge when it was raised. */
  function Logging(ctx: Context, m: Metrics): (r: Metrics)
    ensures ctx.service.None? ==> r == m
    ensures r.total == m.total
    ensures ctx.service.Some? ==> Get(r.pending, ctx.service.value.host) == Get(m.pending, ctx.service.value.host) - 1
    ensures ctx.service.Some? ==> Get(r.active, ctx.service.value.host)
                                  == Get(m.active, ctx.service.value.host) - (if ctx.active then 1 else 0)
    ensures forall h :: ctx.service.None? || h != ctx.service.value.host
                        ==> Get(r.pending, h) == Get(m.pending, h) && Get(r.active, h) == Get(m.active, h)
  {
    match ctx.service
    case None => m
    case Some(svc) =>
      m.(pending := Dec(m.pending, svc.host),
         active := if ctx.active then Dec(m.active, svc.host) else m.active)
  }

  // ---------------------------------------------------------------- Filter outcomes

  /** A missing or non-text Host header is rejected with 400, before anything is recorded. */
  lemma FilterHostInvalid(it: Interceptor, header: Option<seq<byte>>, ctx: Context, m: Metrics, backend: Backend)
    requires header.None? || HeaderText(header.value).None?
    ensures RequestFilter(it, header, ctx, m, backend) == Step(Err(HostInvalid), ctx, m)
    ensures StatusCode(HostInvalid) == 400
  {
  }

  /** A host no route declares is rejected with 404, before anything is recorded. */
  lemma FilterServiceNotFound(it: Interceptor, header: Option<seq<byte>>, ctx: Context, m: Metrics, backend: Backend)
    requires HostOf(header).Ok?
    requires forall j :: 0 <= j < |it.services.services| ==> it.services.services[j].host != HostOf(header).value
    ensures RequestFilter(it, header, ctx, m, backend) == Step(Err(ServiceNotFound(HostOf(header).value)), ctx, m)
    ensures StatusCode(ServiceNotFound(HostOf(header).value)) == 404
  {
  }

  /** A routed request records the first matching route and raises its host's pending
      gauge and request counter by one, whatever the poll then decides. */
  lemma FilterResolves(it: Interceptor, header: Option<seq<byte>>, ctx: Context, m: Metrics, backend: Backend, i: nat)
    requires HostOf(header).Ok?
    requires i < |it.services.services| && it.services.services[i].host == HostOf(header).value
    requires forall j :: 0 <= j < i ==> it.services.services[j].host != HostOf(header).value
    ensures RequestFilter(it, header, ctx, m, backend).ctx == ctx.(service := Some(it.services.services[i]))
    ensures var s := RequestFilter(it, header, ctx, m, backend);
            var h := HostOf(header).value;
            && Get(s.metrics.pending, h) == Get(m.pending, h) + 1
            && Get(s.metrics.total, h) == Get(m.total, h) + 1
            && (forall k :: k != h ==> Get(s.metrics.pending, k) == Get(m.pending, k) && Get(s.metrics.total, k) == Get(m.total, k))
  {
    LookupFirst(it.services, i);
  }

  /** A routed request whose every reading issued before its deadline is zero is rejected
      with 503 and reason "timeout". */
  lemma FilterTimesOut(it: Interceptor, header: Option<seq<byte>>, ctx: Context, m: Metrics, backend: Backend)
    requires HostOf(header).Ok? && Lookup(it.services, HostOf(header).value).Some?
    requires var svc := Lookup(it.services, HostOf(header).value).value;
             forall i: nat :: i * POLL_INTERVAL_MS < EffectiveTimeout(it.services, svc) ==> Answers(it.queryer, svc, backend)(i) == Ok(0)
    ensures RequestFilter(it, header, ctx, m, backend).result == Err(ServiceNotReady(HostOf(header).value, "timeout"))
    ensures StatusCode(ServiceNotReady(HostOf(header).value, "timeout")) == 503
  {
    var svc := Lookup(it.services, HostOf(header).value).value;
    PollAllZero(Answers(it.queryer, svc, backend), EffectiveTimeout(it.services, svc));
  }

  /** A routed request is admitted as soon as a reading before the deadline is positive. */
  lemma FilterAdmitsWhenReady(it: Interceptor, header: Option<seq<byte>>, ctx: Context, m: Metrics, backend: Backend, z: nat)
    requires HostOf(header).Ok? && Lookup(it.services, HostOf(header).value).Some?
    requires var svc := Lookup(it.services, HostOf(header).value).value;
             && z * POLL_INTERVAL_MS < EffectiveTimeout(it.services, svc)
             && (forall i :: 0 <= i < z ==> Answers(it.queryer, svc, backend)(i) == Ok(0))
             && Answers(it.queryer, svc, backend)(z).Ok? && Answers(it.queryer, svc, backend)(z).value > 0
    ensures RequestFilter(it, header, ctx, m, backend).result == Ok(false)
  {
    var svc := Lookup(it.services, HostOf(header).value).value;
    var answers, deadline := Answers(it.queryer, svc, backend), EffectiveTimeout(it.services, svc);
    PollSpecUnique(answers, deadline, Poll(answers, deadline), Ready(z));
  }

  /** An oracle failure before the deadline ends the wait and the request is admitted
      anyway: the deadline is the only way the filter rejects a routed request. */
  lemma FilterAdmitsOnOracleFailure(it: Interceptor, header: Option<seq<byte>>, ctx: Context, m: Metrics, backend: Backend, z: nat)
    requires HostOf(header).Ok? && Lookup(it.services, HostOf(header).value).Some?
    requires var svc := Lookup(it.services, HostOf(header).value).value;
             && z * POLL_INTERVAL_MS < EffectiveTimeout(it.services, svc)
             && (forall i :: 0 <= i < z ==> Answers(it.queryer, svc, backend)(i) == Ok(0))
             && Answers(it.queryer, svc, backend)(z).Err?
    ensures RequestFilter(it, header, ctx, m, backend).result == Ok(false)
  {
    var svc := Lookup(it.services, HostOf(header).value).value;
    var answers, deadline := Answers(it.queryer, svc, backend), EffectiveTimeout(it.services, svc);
    PollSpecUnique(answers, deadline, Poll(answers, deadline), OracleFailed(z, answers(z).error));
  }
}
