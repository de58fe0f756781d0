# Admission gate of the agimo scale-to-zero proxy, modelled in Dafny

agimo is a reverse proxy placed in front of Kubernetes workloads that may be scaled to
zero. For each request it matches the Host header against its route table, counts the
request, and holds it while polling Prometheus for the workload's ready-replica metric
until a positive reading arrives or the route's deadline passes. It then forwards the
request to the workload's Service and keeps per-host gauges of pending and active
requests.

This project models that core as pure functions over immutable datatypes:

- `RouteConfig` (`config.dfy`): the route table (`Config`, `Service`, `ServiceType`),
  the type tags with their aliases, port validation and the 30-second default timeout.
- `ReadinessQuery` (`queryer.dfy`): the query endpoint, the PromQL selector per
  workload type, and the interpretation of the backend's answer (status, JSON path
  `data.result[0].value[1]`, `u64` parsing) into a count or an error.
- `JsonValue` (`json.dfy`): JSON values and the `get(key)`, `get(index)` and `as_str`
  accessors.
- `MetricsRegistry` (`metrics.dfy`): the pending, active and total label maps.
- `Admission` (`interceptor.dfy`): the four proxy hooks (`request_filter`,
  `upstream_peer`, `connected_to_upstream`, `logging`), the poll loop raced against the
  deadline, and the error-to-status mapping.
- `Lifecycle` (`lifecycle.dfy`): a request driven through the hooks in the runtime's
  order, and the gauge balance over any number of requests.
- `Numerals`, `Text`, `Wrappers`: `u16`/`u64`, decimal text and `parse::<u64>`, string
  splitting for the round trips, and `Option`/`Result`.

Time is counted in milliseconds. The poll issues query `i` at `i * 1000` ms, because
every zero reading is followed by a one-second sleep. A query is issued only while that
instant is before the deadline, so a zero deadline times out at once. An oracle call
takes no time in the model. The metrics backend is an input: a `Backend` function maps
the request sent and its position in the poll to the reply that came back.

Behaviour of the code worth knowing, which the model reproduces:

- An oracle failure before the deadline ends the poll, and `request_filter` still
  returns `Ok(false)`, so the request is forwarded. The filter's `let Ok(_) = ...`
  pattern matches the inner `Err` of the poll future too (core/src/interceptor.rs:91-113).
  Such a failure is therefore never a rejection of its own: see
  `Admission.FilterAdmitsOnOracleFailure`, and the `RequestFilter` contract that a filter
  error is never a 500.
- An answer whose result list is empty, which is what the backend sends for a workload
  it has no sample of, is `MetricInvalid` (core/src/queryer.rs:52, 57), an oracle error.
  By the point above, a request for an unknown workload is forwarded at once instead of
  waiting for its deadline: see `ReadinessQuery.InterpretEmptyResult`.
- The backend address is `service_name:service_port`; the namespace is not part of it
  (core/src/interceptor.rs:129).
- The active gauge rises in `connected_to_upstream`, not on admission
  (core/src/interceptor.rs:151-152). A separate pending gauge rises on route resolution
  and falls in `logging` (core/src/interceptor.rs:88, 165).
- The request counter rises on route resolution, before polling
  (core/src/interceptor.rs:89).
- Label values are written into the PromQL selector without escaping
  (core/src/queryer.rs:34-37), so a namespace holding a `"` can make two workloads share
  one query: see `ReadinessQuery.QuotedNamespaceCollides`.

## Model

| member | source | states |
|---|---|---|
| RouteConfig.ParseServiceType | config/src/lib.rs:31-37 | `"deployment"` and its alias `"deploy"` read as `Deployment`, `"statefulset"` and `"sts"` as `Statefulset`, and every other tag is rejected |
| RouteConfig.TypeTagRoundTrip | config/src/lib.rs:33-35 | the canonical tag of each of the two workload types reads back as that type |
| RouteConfig.DecodeService | config/src/lib.rs:16-29 | a route is accepted exactly when its tag names a type and its port lies in 0..65535; every other field is kept as written, and an absent per-route timeout stays absent instead of taking the default |
| RouteConfig.DecodeServices | config/src/lib.rs:8 | the route list decodes exactly when every route does, with the same length and each route decoded in its own position |
| RouteConfig.DecodeConfig | config/src/lib.rs:7-41 | a document decodes exactly when all its routes do; routes keep declaration order; an absent top-level timeout becomes 30 000 ms, a present one is kept |
| RouteConfig.DecodeKeepsDuplicateHosts | config/src/lib.rs:8 | two routes declaring the same host both survive decoding, in their declared positions |
| Numerals.ParseU64 | core/src/queryer.rs:56 | text is accepted exactly when it is a non-empty run of digits, after at most one leading `+`, whose value is below 2^64, and the result is that value; empty text, a lone `+` and text starting with `-` are rejected |
| Numerals.ParseU64Examples | core/src/queryer.rs:56 | leading zeros and a leading `+` are accepted (`"007"` is 7, `"+5"` is 5); `"-5"`, `"+"` and `"12a"` are rejected |
| Numerals.Decimal | core/src/interceptor.rs:129 | the decimal text of a number is non-empty, all digits, without a leading zero, and denotes that number |
| Numerals.ParseDecimal | core/src/queryer.rs:56 | parsing the decimal text of any 64-bit value gives that value back |
| JsonValue.Get | core/src/queryer.rs:50-51 | a key lookup yields the member of an object holding that key, and nothing for any other value |
| JsonValue.At | core/src/queryer.rs:52-54 | an index lookup yields that element of an array long enough, and nothing for any other value |
| JsonValue.AsStr | core/src/queryer.rs:55 | only a JSON string has text; numbers and all other values have none |
| ReadinessQuery.New | core/src/queryer.rs:13-18 | the endpoint is the backend address followed by `/api/v1/query` |
| ReadinessQuery.Request | core/src/queryer.rs:29-39 | the request goes to the client's endpoint, and for a namespace without a quote its query parses back to the workload's type, namespace and name |
| ReadinessQuery.NamesReadBack | core/src/queryer.rs:21-28 | the metric and label key chosen for a workload type identify that type again, and neither contains a selector delimiter |
| ReadinessQuery.SelectorRoundTrip | core/src/queryer.rs:21-37 | for a namespace without a quote, the selector `metric{namespace="ns",label="name"}` reads back to the workload type, namespace and name it was built from |
| ReadinessQuery.SelectorInjective | core/src/queryer.rs:34-37 | two different workloads whose namespaces hold no quote are never asked about with the same query |
| ReadinessQuery.QuotedNamespaceCollides | core/src/queryer.rs:34-37 | because label values are not escaped, two different workloads, one with a quote in its namespace, can share one query |
| ReadinessQuery.DeploymentSelector | core/src/queryer.rs:21-37 | a deployment `ns/name` is queried as `kube_deployment_status_replicas_ready{namespace="ns",deployment="name"}` |
| ReadinessQuery.StatefulsetSelector | core/src/queryer.rs:21-37 | a stateful set `ns/name` is queried as `kube_statefulset_status_replicas_ready{namespace="ns",statefulset="name"}` |
| ReadinessQuery.ReadyReplicas | core/src/queryer.rs:49-58 | the count is read exactly from `data.result[0].value[1]`: missing any link of that path gives nothing, a value there that is not a JSON string gives nothing, and a string gives what `parse::<u64>` makes of it |
| ReadinessQuery.ReadyReplicasRoundTrip | core/src/queryer.rs:49-58 | any body whose `data.result[0].value[1]` is the decimal text of a count, zero included, yields that count, whatever else the body holds |
| ReadinessQuery.ReadyReplicasFirstOnly | core/src/queryer.rs:52 | replacing the results after the first, by anything, never changes the reading |
| ReadinessQuery.ReadyReplicasRequiresString | core/src/queryer.rs:55 | for any body, a `value[1]` that is not a JSON string, a number included, is invalid |
| ReadinessQuery.ReadyReplicasRejectsBadCount | core/src/queryer.rs:56 | for any body, a negative count, or one of 2^64 or more, at `value[1]` is invalid |
| ReadinessQuery.ReadyReplicasRequiresResult | core/src/queryer.rs:49-51 | a body without `data.result` is invalid |
| ReadinessQuery.ReadyReplicasEmptyResult | core/src/queryer.rs:51-52 | a body whose result list is empty is invalid, not a reading of zero |
| ReadinessQuery.ReadyReplicasShortValue | core/src/queryer.rs:53-54 | a first result whose `value` is missing, not an array, or shorter than two elements is invalid |
| ReadinessQuery.ReadyReplicasOfPrometheusAnswer | core/src/queryer.rs:49-58 | a full instant-query answer with `status`, `resultType`, the sample's `metric` labels and a timestamp reads as the count in its value text |
| ReadinessQuery.Interpret | core/src/queryer.rs:40-58 | a count comes only from a 200 answer with a JSON body holding a valid count; any other status gives `HTTPError` with that status and body text; a 200 body that is not JSON gives the transport-class `QueryError`; a 200 JSON body without a valid count gives `MetricInvalid` |
| ReadinessQuery.InterpretReadinessBody | core/src/queryer.rs:48-58 | a 200 answer whose `data.result[0].value[1]` is the decimal text of a count reads as that count |
| ReadinessQuery.InterpretEmptyResult | core/src/queryer.rs:48-57 | a 200 answer with an empty result list is `MetricInvalid` |
| MetricsRegistry.Inc | core/src/interceptor.rs:88-89 | raising a label adds one to it and leaves every other label unchanged |
| MetricsRegistry.Dec | core/src/interceptor.rs:165-167 | lowering a label subtracts one from it and leaves every other label unchanged |
| MetricsRegistry.IncThenDec | core/src/interceptor.rs:165-167 | a raise followed by a lowering of the same label restores every reading |
| MetricsRegistry.UpdatesCommute | core/src/interceptor.rs:88-89 | gauge updates from different requests give the same readings in either order |
| Admission.StatusCode | core/src/interceptor.rs:187-197 | `ServiceNotFound` answers 404, `HostInvalid` 400, `ServiceNotReady` 503, and every other error 500 |
| Admission.NewContext | core/src/interceptor.rs:63-65 | a new request has no route and has not raised the active gauge |
| Admission.New | core/src/interceptor.rs:32-56 | the interceptor queries the endpoint built from the backend address and keeps the route table |
| Admission.HeaderText | core/src/interceptor.rs:76-80 | a header is text exactly when every byte is visible ASCII or a tab, and the text has the same characters |
| Admission.HeaderTextRoundTrip | core/src/interceptor.rs:79-80 | the bytes of any visible-ASCII text read back as that text |
| Admission.HostOf | core/src/interceptor.rs:76-80 | a missing Host header, or one that is not text, is `HostInvalid`; otherwise the host is the header's text |
| Admission.FindRoute | core/src/interceptor.rs:81 | the index found holds the host and no earlier route does; nothing is found exactly when no route holds the host |
| Admission.Lookup | core/src/interceptor.rs:81 | a found route is one of the table's and has exactly the requested host; nothing is found exactly when no route has that host |
| Admission.LookupFirst | core/src/interceptor.rs:81 | the first declared route for a host is the one found, whatever later routes share the host |
| Admission.EffectiveTimeout | core/src/interceptor.rs:90 | a route's own timeout takes precedence over the table's timeout |
| Admission.DefaultDeadline | core/src/interceptor.rs:90 | a route without a timeout, in a document without a global one, waits 30 000 ms |
| Admission.PollFrom | core/src/interceptor.rs:91-104 | the loop ends on the first positive reading or oracle error issued before the deadline, after zero readings only, and otherwise times out at the first interval boundary at or past the deadline |
| Admission.Poll | core/src/interceptor.rs:91-112 | the poll's outcome meets the specification `PollSpec` of the race between poll and deadline |
| Admission.PollSpecUnique | core/src/interceptor.rs:91-112 | at most one outcome meets `PollSpec`, so the poll's outcome is determined by the readings and the deadline |
| Admission.PollElapsed | core/src/interceptor.rs:91-104 | a poll never outlasts its deadline, and one that ends before it has slept one interval per zero reading |
| Admission.PollFirstReady | core/src/interceptor.rs:98-100 | a positive first reading before the deadline admits at once, with no sleep |
| Admission.PollAllZero | core/src/interceptor.rs:92-112 | readings that are zero for every query issued before the deadline time out after one query per started second of the deadline |
| Admission.RequestFilter | core/src/interceptor.rs:68-114 | the filter never touches the active gauge; it admits only a routed request, and always with `false`; it never fails with a 500; a request with no route leaves context and metrics unchanged |
| Admission.FilterHostInvalid | core/src/interceptor.rs:76-80 | a missing or non-text Host header gives `HostInvalid` (400), with context and metrics unchanged |
| Admission.FilterServiceNotFound | core/src/interceptor.rs:81-86 | a host no route declares gives `ServiceNotFound` with that host (404), with context and metrics unchanged |
| Admission.FilterResolves | core/src/interceptor.rs:81-89 | a routed request records the first matching route, and its host's pending gauge and request counter each rise by one, other hosts unchanged |
| Admission.FilterTimesOut | core/src/interceptor.rs:91-112 | readings that are zero for every query issued before the route's deadline give `ServiceNotReady` with the host and reason `"timeout"` (503) |
| Admission.FilterAdmitsWhenReady | core/src/interceptor.rs:91-113 | zero readings followed by a positive one before the deadline admit the request |
| Admission.FilterAdmitsOnOracleFailure | core/src/interceptor.rs:91-113 | zero readings followed by an oracle error before the deadline also admit the request |
| Admission.UpstreamPeer | core/src/interceptor.rs:117-134 | without a route the result is `ServiceNotFound` with an empty host; with one it is a plain-text peer with empty SNI whose address reads back as the route's service name and port |
| Admission.AddressRoundTrip | core/src/interceptor.rs:128-132 | the address `name:port` splits at its last colon into exactly the service name and port, so no namespace is part of it |
| Admission.ConnectedToUpstream | core/src/interceptor.rs:136-154 | without a route it fails and changes nothing; with one it marks the request active and raises only that host's active gauge |
| Admission.Logging | core/src/interceptor.rs:156-169 | without a route nothing changes; with one the host's pending gauge falls by one and its active gauge falls by one exactly when the request was marked active; other hosts and the counter are unchanged |
| Lifecycle.FilterRouted | core/src/interceptor.rs:87-89 | after the filter of a routed request the context holds the route and is not active, and only pending and total of the host have risen |
| Lifecycle.FilterUnrouted | core/src/interceptor.rs:76-86 | a request without a route is rejected with a fresh context and untouched metrics |
| Lifecycle.ConnectThenLog | core/src/interceptor.rs:145-168 | connecting at most once and then logging leaves the active gauge as before the connect and the pending gauge one lower |
| Lifecycle.ServeRouted | core/src/interceptor.rs:87-168 | for a routed request the filter raises only pending and total of the host, the connect stage only raises active, and after logging both gauges read as before while the host's counter has risen by one |
| Lifecycle.ServeBalances | core/src/interceptor.rs:76-168 | after any request both gauges read as before, and only the routed host's request counter has risen, by one |
| Lifecycle.ServeNonNegative | core/src/interceptor.rs:145-168 | gauges that start non-negative stay non-negative at every stage of a request |
| Lifecycle.ServeAllBalances | core/src/interceptor.rs:87-168 | after any sequence of completed requests both gauges read as before, and each host's counter has risen by the number of requests routed to it |

## Left out

- The HTTP client: sending the request, URL-encoding the `query` parameter and reading the body. A `Reply` stands for the answer. Its body is given both as text and as JSON, each possibly unreadable.
- The duration an oracle query takes, and the cancellation of an in-flight query when the deadline fires. A query takes no time, and one due at or after the deadline is never issued.
- The proxy runtime: `Session` and header storage, `HttpPeer` internals, and building `BError` beyond its status code.
- Repeated `connected_to_upstream` calls on upstream retries. `Lifecycle.Serve` connects at most once per request.
- Concurrent requests. Their interleaving is reduced to `MetricsRegistry.UpdatesCommute` and to requests served one after another.
- TOML parsing and human-readable durations such as `30s`. The model receives an already parsed `RawConfig` with durations in milliseconds. Missing or unknown fields in the document are not modelled.
- Prometheus metric registration and its panics on duplicate registration (core/src/interceptor.rs:34-44), and the exporter that serves the metrics.
- Error message text, except the literal reason `"timeout"`.
- Floating-point JSON numbers. They can never pass the string check at `value[1]`.
- Process bootstrap, CLI arguments and reading the configuration file (src/main.rs, src/args/mod.rs). src/queryer.rs, src/service.rs and src/config/mod.rs are not part of this model: they are stale copies that the build does not use.
- ReadinessQuery.Request: the read-back of the query is promised only for a namespace without a `"`; the code does not escape label values, so a quoted namespace can change the selector's meaning (see `ReadinessQuery.QuotedNamespaceCollides`). Kubernetes namespace names never contain one.
- ReadinessQuery.SelectorRoundTrip: holds only for a namespace without a `"`, because the code does not escape label values.
- ReadinessQuery.SelectorInjective: holds only when neither namespace contains a `"`, because the code does not escape label values; `ReadinessQuery.QuotedNamespaceCollides` gives two workloads that share a query otherwise.
- RouteConfig.DecodeServices: states when decoding fails, but not which of several invalid routes is reported.
- MetricsRegistry.Inc: does not model 64-bit overflow of Prometheus counters and gauges, because it cannot occur at realistic request counts.
