/** The readiness oracle client: builds the Prometheus instant query for a workload's
    ready-replica metric and interprets the backend's answer as a replica count.
    The HTTP exchange itself is an input: a `Reply` says what came back. */
module ReadinessQuery {
  import opened Wrappers
  import opened Text
  import opened Numerals
  import opened JsonValue
  import opened RouteConfig

  /** The instant-query path appended to the configured backend address. */
  const API_PATH: string := "/api/v1/query"

  const DEPLOYMENT_METRIC: string := "kube_deployment_status_replicas_ready"
  const STATEFULSET_METRIC: string := "kube_statefulset_status_replicas_ready"

  /** A client bound to one backend query endpoint. */
  datatype Queryer = Queryer(endpoint: string)

  /** The GET the client issues: the endpoint URL and its `query` parameter (before URL encoding). */
  datatype QueryRequest = QueryRequest(url: string, query: string)

  /** Ways the exchange can fail below the level of the metric itself. */
  datatype Transport =
    | SendFailed      // connection, DNS or timeout failure of the request
    | BodyUnreadable  // the body of a non-200 answer could not be read as text
    | BodyNotJson     // the body of a 200 answer could not be read or decoded as JSON

  /** What came back for one request: nothing, or a status with the body read both
      ways (`None` where reading it that way failed). */
  datatype Reply =
    | NoReply
    | Reply(status: u16, text: Option<string>, json: Option<Json>)

  datatype Error =
    | HTTPError(code: u16, msg: string)
    | QueryError(cause: Transport)
    | MetricInvalid

  /** The workload a query asks about. */
  datatype Target = Target(ty: ServiceType, namespace: string, name: string)

  /** The client for the backend at `address`. */
  function New(address: string): (q: Queryer)
    ensures StripSuffix(q.endpoint, API_PATH) == Some(address)
  {
    var q := Queryer(address + API_PATH);
    StripSuffixOf(address, API_PATH);
    q
  }

  function MetricName(ty: ServiceType): string {
    match ty
    case Deployment => DEPLOYMENT_METRIC
    case Statefulset => STATEFULSET_METRIC
  }

  function LabelName(ty: ServiceType): string {
    match ty
    case Deployment => "deployment"
    case Statefulset => "statefulset"
  }

  /** The PromQL selector `metric{namespace="ns",label="name"}`. */
  function Selector(ty: ServiceType, namespace: string, name: string): string {
    SelectorOf(MetricName(ty), namespace, LabelName(ty), name)
  }

  /** The request the client sends to learn the readiness of `namespace/name`. */
  function Request(q: Queryer, ty: ServiceType, namespace: string, name: string): (r: QueryRequest)
    ensures r.url == q.endpoint
    ensures '"' !in namespace ==> ParseSelector(r.query) == Some(Target(ty, namespace, name))
  {
    var r := QueryRequest(q.endpoint, Selector(ty, namespace, name));
    if '"' in namespace then r
    else SelectorRoundTrip(ty, namespace, name); r
  }

  /** The workload type a (metric, label key) pair selects, if any. */
  function WorkloadOf(metric: string, key: string): Option<ServiceType> {
    if metric == MetricName(Deployment) && key == LabelName(Deployment) then Some(Deployment)
    else if metric == MetricName(Statefulset) && key == LabelName(Statefulset) then Some(Statefulset)
    else None
  }

  /** The PromQL selector shape `metric{namespace="ns",key="name"}` for any metric and label key. */
  function SelectorOf(metric: string, namespace: string, key: string, name: string): string {
    metric + "{namespace=\"" + namespace + "\"," + key + "=\"" + name + "\"}"
  }

  /** Splits a selector into its metric, namespace, label key and workload name. */
  function SplitSelector(q: string): Option<(string, string, string, string)> {
    match SplitFirst(q, '{')
    case None => None
    case Some((metric, r1)) =>
      match SplitMatchers(r1)
      case None => None
      case Some((namespace, key, name)) => Some((metric, namespace, key, name))
  }

  /** Splits `namespace="ns",key="name"}` into its namespace, label key and name. */
  function SplitMatchers(r1: string): Option<(string, string, string)> {
    match StripPrefix(r1, "namespace=\"")
    case None => None
    case Some(r2) =>
      match SplitFirst(r2, '"')
      case None => None
      case Some((namespace, r3)) =>
        match StripPrefix(r3, ",")
        case None => None
        case Some(r4) =>
          match SplitLabel(r4)
          case None => None
          case Some((key, name)) => Some((namespace, key, name))
  }

  /** Splits `key="name"}` into its label key and name. */
  function SplitLabel(r4: string): Option<(string, string)> {
    match SplitFirst(r4, '=')
    case None => None
    case Some((key, r5)) =>
      match StripPrefix(r5, "\"")
      case None => None
      case Some(r6) =>
        match StripSuffix(r6, "\"}")
        case None => None
        case Some(name) => Some((key, name))
  }

  /** Reads a selector back into the workload it asks about: the reference against which
      `Selector` is checked. */
  function ParseSelector(q: string): Option<Target> {
    match SplitSelector(q)
    case None => None
    case Some((metric, namespace, key, name)) =>
      match WorkloadOf(metric, key)
      case None => None
      case Some(ty) => Some(Target(ty, namespace, name))
  }

  lemma SplitLabelOf(key: string, name: string)
    requires '=' !in key
    ensures SplitLabel(key + "=\"" + name + "\"}") == Some((key, name))
  {
    var r6 := name + "\"}";
    var r5 := "\"" + r6;
    assert key + "=\"" + name + "\"}" == key + ['='] + r5;
    SplitFirstOf(key, '=', r5);
    StripPrefixOf("\"", r6);
    StripSuffixOf(name, "\"}");
  }

  lemma SplitMatchersOf(namespace: string, key: string, name: string)
    requires '"' !in namespace && '=' !in key
    ensures SplitMatchers("namespace=\"" + namespace + "\"," + key + "=\"" + name + "\"}")
         == Some((namespace, key, name))
  {
    var r4 := key + "=\"" + name + "\"}";
    var r3 := "," + r4;
    var r2 := namespace + ['"'] + r3;
    assert "namespace=\"" + namespace + "\"," + key + "=\"" + name + "\"}" == "namespace=\"" + r2;
    StripPrefixOf("namespace=\"", r2);
    SplitFirstOf(namespace, '"', r3);
    StripPrefixOf(",", r4);
    SplitLabelOf(key, name);
  }

  /** The four parts of a selector can be read back when the metric holds no `{`, the
      namespace no quote and the label key no `=`. */
  lemma SplitSelectorOf(metric: string, namespace: string, key: string, name: string)
    requires '{' !in metric && '"' !in namespace && '=' !in key
    ensures SplitSelector(SelectorOf(metric, namespace, key, name)) == Some((metric, namespace, key, name))
  {
    var r1 := "namespace=\"" + namespace + "\"," + key + "=\"" + name + "\"}";
    assert SelectorOf(metric, namespace, key, name) == metric + ['{'] + r1;
    SplitFirstOf(metric, '{', r1);
    SplitMatchersOf(namespace, key, name);
  }

  /** The metric and label key of a workload type are separable and name that type back. */
  lemma NamesReadBack(ty: ServiceType)
    ensures '{' !in MetricName(ty) && '=' !in LabelName(ty)
    ensures WorkloadOf(MetricName(ty), LabelName(ty)) == Some(ty)
  {
    if ty == Statefulset {
      assert DEPLOYMENT_METRIC[5] != STATEFULSET_METRIC[5];
    }
  }

  /** The selector names its metric, namespace, label and workload so that they can be
      read back, provided the namespace holds no quote (Kubernetes namespaces never do). */
  lemma SelectorRoundTrip(ty: ServiceType, namespace: string, name: string)
    requires '"' !in namespace
    ensures ParseSelector(Selector(ty, namespace, name)) == Some(Target(ty, namespace, name))
  {
    NamesReadBack(ty);
    SplitSelectorOf(MetricName(ty), namespace, LabelName(ty), name);
  }

  /** Different workloads are never asked about with the same selector. */
  lemma SelectorInjective(t1: Target, t2: Target)
    requires '"' !in t1.namespace && '"' !in t2.namespace
    requires Selector(t1.ty, t1.namespace, t1.name) == Selector(t2.ty, t2.namespace, t2.name)
    ensures t1 == t2
  {
    SelectorRoundTrip(t1.ty, t1.namespace, t1.name);
    SelectorRoundTrip(t2.ty, t2.namespace, t2.name);
  }

  /** Label values are not escaped, so a namespace holding a quote can make two different
      workloads share one selector: both of these ask about
      `{namespace="a",deployment="b",deployment="c"}`. */
  lemma QuotedNamespaceCollides()
    ensures Target(Deployment, "a\",deployment=\"b", "c") != Target(Deployment, "a", "b\",deployment=\"c")
    ensures Selector(Deployment, "a\",deployment=\"b", "c") == Selector(Deployment, "a", "b\",deployment=\"c")
  {
  }

  /** The exact query text for a deployment. */
  lemma DeploymentSelector()
    ensures Selector(Deployment, "ns", "name")
            == "kube_deployment_status_replicas_ready{namespace=\"ns\",deployment=\"name\"}"
  {
  }

  /** The exact query text for a stateful set. */
  lemma StatefulsetSelector()
    ensures Selector(Statefulset, "ns", "name")
            == "kube_statefulset_status_replicas_ready{namespace=\"ns\",statefulset=\"name\"}"
  {
  }

  /** The JSON value at `data.result[0].value[1]`, read off the value's structure: the
      reference against which `ReadyReplicas` is stated. Other members of each object and
      results after the first play no part. */
  function CountPath(body: Json): Option<Json> {
    if !(body.JObject? && "data" in body.fields) then None
    else
      var data := body.fields["data"];
      if !(data.JObject? && "result" in data.fields) then None
      else
        var result := data.fields["result"];
        if !(result.JArray? && |result.items| > 0) then None
        else
          var first := result.items[0];
          if !(first.JObject? && "value" in first.fields) then None
          else
            var value := first.fields["value"];
            if !(value.JArray? && |value.items| > 1) then None
            else Some(value.items[1])
  }

  /** The ready-replica count at `data.result[0].value[1]`, which must be a JSON string
      holding a 64-bit unsigned decimal. */
  function ReadyReplicas(body: Json): (r: Option<u64>)
    ensures CountPath(body).None? ==> r.None?
    ensures CountPath(body).Some? && !CountPath(body).value.JString? ==> r.None?
    ensures CountPath(body).Some? && CountPath(body).value.JString? ==> r == ParseU64(CountPath(body).value.s)
  {
    match Get(body, "data")
    case None => None
    case Some(data) =>
      match Get(data, "result")
      case None => None
      case Some(result) =>
        match At(result, 0)
        case None => None
        case Some(first) =>
          match Get(first, "value")
          case None => None
          case Some(value) =>
            match At(value, 1)
            case None => None
            case Some(count) =>
              match AsStr(count)
              case None => None
              case Some(text) => ParseU64(text)
  }

  /** Any answer whose `data.result[0].value[1]` is the decimal text of a count, zero
      included, yields that count. */
  lemma ReadyReplicasRoundTrip(body: Json, n: u64)
    requires CountPath(body) == Some(JString(Decimal(n)))
    ensures ReadyReplicas(body) == Some(n)
  {
    ParseDecimal(n);
  }

  /** `body` with every result after the first replaced by `others`; unchanged when it has
      no non-empty `data.result` array. */
  function WithLaterResults(body: Json, others: seq<Json>): Json {
    if !(body.JObject? && "data" in body.fields) then body
    else
      var data := body.fields["data"];
      if !(data.JObject? && "result" in data.fields) then body
      else
        var result := data.fields["result"];
        if !(result.JArray? && |result.items| > 0) then body
        else
          var result' := JArray([result.items[0]] + others);
          JObject(body.fields["data" := JObject(data.fields["result" := result'])])
  }

  /** Only the first result is consulted: whatever results follow it, the reading is the same. */
  lemma ReadyReplicasFirstOnly(body: Json, others: seq<Json>)
    ensures ReadyReplicas(WithLaterResults(body, others)) == ReadyReplicas(body)
  {
    assert CountPath(WithLaterResults(body, others)) == CountPath(body);
  }

  /** A `value[1]` that is not a JSON string is invalid even when it is a number. */
  lemma ReadyReplicasRequiresString(body: Json)
    requires CountPath(body).Some? && !CountPath(body).value.JString?
    ensures ReadyReplicas(body).None?
  {
  }

  /** A count string that is not a 64-bit unsigned decimal is invalid: negative numbers
      and numbers of 2^64 or more. */
  lemma ReadyReplicasRejectsBadCount(body: Json, n: nat)
    requires CountPath(body) == Some(JString("-" + Decimal(n))) || (n >= U64_LIMIT && CountPath(body) == Some(JString(Decimal(n))))
    ensures ReadyReplicas(body).None?
  {
  }

  /** A body without `data.result` is invalid. */
  lemma ReadyReplicasRequiresResult(body: Json)
    requires Get(body, "data").Some? ==> Get(Get(body, "data").value, "result").None?
    ensures ReadyReplicas(body).None?
  {
  }

  /** An empty result list, which is what the backend answers for a workload it has no
      sample of, is invalid. */
  lemma ReadyReplicasEmptyResult(body: Json)
    requires body.JObject? && "data" in body.fields
    requires body.fields["data"].JObject? && "result" in body.fields["data"].fields
    requires body.fields["data"].fields["result"] == JArray([])
    ensures ReadyReplicas(body).None?
  {
  }

  /** A first result whose `value` is missing, not an array, or shorter than two elements is invalid. */
  lemma ReadyReplicasShortValue(body: Json)
    requires body.JObject? && "data" in body.fields
    requires body.fields["data"].JObject? && "result" in body.fields["data"].fields
    requires var result := body.fields["data"].fields["result"];
             && result.JArray? && |result.items| > 0
             && (result.items[0].JObject? && "value" in result.items[0].fields ==>
                   var value := result.items[0].fields["value"];
                   !value.JArray? || |value.items| < 2)
    ensures ReadyReplicas(body).None?
  {
  }

  /** A full instant-query answer as the backend sends it, with `status`, `resultType` and
      the sample's `metric` labels beside the path that is read. */
  function PrometheusAnswer(count: string): Json {
    JObject(map[
      "status" := JString("success"),
      "data" := JObject(map[
        "resultType" := JString("vector"),
        "result" := JArray([JObject(map[
          "metric" := JObject(map["namespace" := JString("ns"), "deployment" := JString("name")]),
          "value" := JArray([JNumber(1700000000), JString(count)])])])])])
  }

  /** A full answer carrying the text "1" reads as one ready replica, and "0" as none. */
  lemma ReadyReplicasOfPrometheusAnswer()
    ensures ReadyReplicas(PrometheusAnswer("1")) == Some(1)
    ensures ReadyReplicas(PrometheusAnswer("0")) == Some(0)
  {
    ReadyReplicasRoundTrip(PrometheusAnswer(Decimal(1)), 1);
    ReadyReplicasRoundTrip(PrometheusAnswer(Decimal(0)), 0);
  }

  /** One answer, interpreted: a non-200 status is an HTTP error carrying the body text;
      a 200 body that is not JSON is a transport-class error; a JSON body yields the count
      at `data.result[0].value[1]` or `MetricInvalid`. */
  function Interpret(reply: Reply): (r: Result<u64, Error>)
    ensures r.Ok? <==> (reply.Reply? && reply.status == 200 && reply.json.Some?
                        && ReadyReplicas(reply.json.value).Some?)
    ensures r.Ok? ==> ReadyReplicas(reply.json.value) == Some(r.value)
    ensures reply.Reply? && reply.status != 200 && reply.text.Some?
            ==> r == Err(HTTPError(reply.status, reply.text.value))
    ensures r.Err? && r.error.HTTPError? ==> reply.Reply? && reply.status != 200
    ensures r == Err(MetricInvalid) <==> (reply.Reply? && reply.status == 200 && reply.json.Some?
                                          && ReadyReplicas(reply.json.value).None?)
    ensures r == Err(QueryError(BodyNotJson)) <==> reply.Reply? && reply.status == 200 && reply.json.None?
  {
    match reply
    case NoReply => Err(QueryError(SendFailed))
    case Reply(status, text, json) =>
      if status != 200 then
        match text
        case None => Err(QueryError(BodyUnreadable))
        case Some(t) => Err(HTTPError(status, t))
      else
        match json
        case None => Err(QueryError(BodyNotJson))
        case Some(body) =>
          match ReadyReplicas(body)
          case None => Err(MetricInvalid)
          case Some(n) => Ok(n)
  }

  /** A 200 answer whose `data.result[0].value[1]` is the decimal text of a count reads as
      that count, zero included. */
  lemma InterpretReadinessBody(text: Option<string>, body: Json, n: u64)
    requires CountPath(body) == Some(JString(Decimal(n)))
    ensures Interpret(Reply(200, text, Some(body))) == Ok(n)
  {
    ReadyReplicasRoundTrip(body, n);
  }

  /** A 200 answer with an empty result list is `MetricInvalid`, not a reading of zero. */
  lemma InterpretEmptyResult(text: Option<string>, body: Json)
    requires body.JObject? && "data" in body.fields
    requires body.fields["data"].JObject? && "result" in body.fields["data"].fields
    requires body.fields["data"].fields["result"] == JArray([])
    ensures Interpret(Reply(200, text, Some(body))) == Err(MetricInvalid)
  {
    ReadyReplicasEmptyResult(body);
  }
}
