/** A request's whole path through the hooks, as the proxy runtime drives it: a fresh
    context, `request_filter`, then — only for an admitted request whose backend the
    runtime reached — one `upstream_peer` and one `connected_to_upstream`, and finally
    `logging`, which runs whatever happened before. */
module Lifecycle {
  import opened Wrappers
  import opened RouteConfig
  import opened MetricsRegistry
  import opened Admission

  /** One incoming request: its Host header, what the metrics backend answers it, and
      whether the connection to the backend service succeeds. */
  datatype Request = Request(host: Option<seq<byte>>, backend: Backend, connects: bool)

  /** The metrics after each stage of one request. */
  datatype Trace = Trace(afterFilter: Metrics, afterConnect: Metrics, final: Metrics)

  /** The host whose counters a request touches: set exactly when its route resolves. */
  function RoutedHost(it: Interceptor, header: Option<seq<byte>>): Option<string> {
    match HostOf(header)
    case Err(_) => None
    case Ok(host) => if Lookup(it.services, host).Some? then Some(host) else None
  }

  /** The runtime connects upstream only after an admitting filter and a resolved peer. */
  function ConnectStage(f: Step<bool>, connects: bool): Step<()> {
    if f.result == Ok(false) && UpstreamPeer(f.ctx).Ok? && connects
    then ConnectedToUpstream(f.ctx, f.metrics)
    else Step(Ok(()), f.ctx, f.metrics)
  }

  /** Runs one request from the metrics `m`. */
  function Serve(it: Interceptor, req: Request, m: Metrics): Trace {
    var f := RequestFilter(it, req.host, NewContext(), m, req.backend);
    var c := ConnectStage(f, req.connects);
    Trace(f.metrics, c.metrics, Logging(c.ctx, c.metrics))
  }

  /** What `request_filter` leaves behind for a routed request, whatever the poll decides. */
  lemma FilterRouted(it: Interceptor, req: Request, m: Metrics, host: string, svc: Service)
    requires HostOf(req.host) == Ok(host) && Lookup(it.services, host) == Some(svc)
    ensures var f := RequestFilter(it, req.host, NewContext(), m, req.backend);
            && f.ctx == Context(Some(svc), false)
            && f.metrics == m.(pending := Inc(m.pending, host), total := Inc(m.total, host))
            && svc.host == host
  {
  }

  /** What `request_filter` leaves behind for a request that resolves no route. */
  lemma FilterUnrouted(it: Interceptor, req: Request, m: Metrics)
    requires RoutedHost(it, req.host).None?
    ensures var f := RequestFilter(it, req.host, NewContext(), m, req.backend);
            && f.result.Err? && f.ctx == NewContext() && f.metrics == m
  {
  }

  /** The connect and logging stages of a request whose route resolved to `svc`. */
  lemma ConnectThenLog(svc: Service, m0: Metrics, c: Step<()>)
    requires c == ConnectedToUpstream(Context(Some(svc), false), m0) || c == Step(Ok(()), Context(Some(svc), false), m0)
    ensures SameReadings(Logging(c.ctx, c.metrics).pending, Dec(m0.pending, svc.host))
    ensures SameReadings(Logging(c.ctx, c.metrics).active, m0.active)
    ensures Logging(c.ctx, c.metrics).total == m0.total
    ensures forall h :: Get(c.metrics.active, h) >= Get(m0.active, h) && Get(c.metrics.pending, h) == Get(m0.pending, h)
  {
  }

  /** The stages of a routed request, measured against the metrics before it. */
  lemma ServeRouted(it: Interceptor, req: Request, m: Metrics, host: string, svc: Service)
    requires HostOf(req.host) == Ok(host) && Lookup(it.services, host) == Some(svc)
    ensures var t := Serve(it, req, m);
            && SameReadings(t.final.pending, m.pending)
            && SameReadings(t.final.active, m.active)
            && t.final.total == Inc(m.total, host)
            && t.afterFilter.active == m.active
            && t.afterFilter.pending == Inc(m.pending, host)
            && (forall h :: Get(t.afterConnect.active, h) >= Get(m.active, h))
            && (forall h :: Get(t.afterConnect.pending, h) == Get(Inc(m.pending, host), h))
  {
    var f := RequestFilter(it, req.host, NewContext(), m, req.backend);
    FilterRouted(it, req, m, host, svc);
    var c := ConnectStage(f, req.connects);
    ConnectThenLog(svc, f.metrics, c);
  }

  /** After any request both gauges read as before, and the request counter of the
      routed host, and only of it, has risen by one. */
  lemma ServeBalances(it: Interceptor, req: Request, m: Metrics)
    ensures SameReadings(Serve(it, req, m).final.pending, m.pending)
    ensures SameReadings(Serve(it, req, m).final.active, m.active)
    ensures forall h :: Get(Serve(it, req, m).final.total, h)
                        == Get(m.total, h) + (if RoutedHost(it, req.host) == Some(h) then 1 else 0)
  {
    if RoutedHost(it, req.host).Some? {
      var host := HostOf(req.host).value;
      ServeRouted(it, req, m, host, Lookup(it.services, host).value);
    } else {
      FilterUnrouted(it, req, m);
    }
  }

  /** Gauges that start at zero or above never read below zero at any stage of a request. */
  lemma ServeNonNegative(it: Interceptor, req: Request, m: Metrics)
    requires NonNegative(m.pending) && NonNegative(m.active)
    ensures var t := Serve(it, req, m);
            && NonNegative(t.afterFilter.pending) && NonNegative(t.afterFilter.active)
            && NonNegative(t.afterConnect.pending) && NonNegative(t.afterConnect.active)
            && NonNegative(t.final.pending) && NonNegative(t.final.active)
  {
    if RoutedHost(it, req.host).Some? {
      var host := HostOf(req.host).value;
      ServeRouted(it, req, m, host, Lookup(it.services, host).value);
    } else {
      FilterUnrouted(it, req, m);
    }
  }

  /** Runs requests one after another. */
  function ServeAll(it: Interceptor, reqs: seq<Request>, m: Metrics): Metrics
    decreases |reqs|
  {
    if |reqs| == 0 then m else ServeAll(it, reqs[1..], Serve(it, reqs[0], m).final)
  }

  /** How many of the requests route to `host`. */
  function CountRouted(it: Interceptor, reqs: seq<Request>, host: string): nat
    decreases |reqs|
  {
    if |reqs| == 0 then 0
    else (if RoutedHost(it, reqs[0].host) == Some(host) then 1 else 0) + CountRouted(it, reqs[1..], host)
  }

  /** After any number of completed requests, admitted or rejected, both gauges read as
      before and each host's request counter has risen by the number of requests that
      reached its route. */
  lemma {:induction false} ServeAllBalances(it: Interceptor, reqs: seq<Request>, m: Metrics)
    ensures SameReadings(ServeAll(it, reqs, m).pending, m.pending)
    ensures SameReadings(ServeAll(it, reqs, m).active, m.active)
    ensures forall h :: Get(ServeAll(it, reqs, m).total, h) == Get(m.total, h) + CountRouted(it, reqs, h)
    decreases |reqs|
  {
    if |reqs| > 0 {
      var m1 := Serve(it, reqs[0], m).final;
      ServeBalances(it, reqs[0], m);
      ServeAllBalances(it, reqs[1..], m1);
    }
  }
}
