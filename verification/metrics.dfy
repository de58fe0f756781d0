/** The per-host counters and gauges the interceptor updates: `agimo_pending_requests`,
    `agimo_active_requests` and `agimo_requests_total`. A label never touched reads 0,
    as a freshly created label of a Prometheus vector does. */
module MetricsRegistry {

  datatype Metrics = Metrics(pending: map<string, int>, active: map<string, int>, total: map<string, int>)

  /** The current reading of one label. */
  function Get(m: map<string, int>, host: string): int {
    if host in m then m[host] else 0
  }

  /** `with_label_values(&[host]).inc()`: the label rises by one, every other label is unchanged. */
  function Inc(m: map<string, int>, host: string): (r: map<string, int>)
    ensures Get(r, host) == Get(m, host) + 1
    ensures forall h :: h != host ==> Get(r, h) == Get(m, h)
  {
    m[host := Get(m, host) + 1]
  }

  /** `with_label_values(&[host]).dec()`: the label falls by one, every other label is unchanged. */
  function Dec(m: map<string, int>, host: string): (r: map<string, int>)
    ensures Get(r, host) == Get(m, host) - 1
    ensures forall h :: h != host ==> Get(r, h) == Get(m, h)
  {
    m[host := Get(m, host) - 1]
  }

  /** Two label maps that every label reads the same in (one may hold explicit zeros). */
  ghost predicate SameReadings(a: map<string, int>, b: map<string, int>) {
    forall h :: Get(a, h) == Get(b, h)
  }

  /** No label reads below zero. */
  ghost predicate NonNegative(m: map<string, int>) {
    forall h :: Get(m, h) >= 0
  }

  /** Raising then lowering a label restores every reading. */
  lemma IncThenDec(m: map<string, int>, host: string)
    ensures SameReadings(Dec(Inc(m, host), host), m)
  {
  }

  /** Updates on labels commute, so concurrent requests may apply them in any order. */
  lemma UpdatesCommute(m: map<string, int>, a: string, b: string)
    ensures SameReadings(Inc(Dec(m, a), b), Dec(Inc(m, b), a))
    ensures SameReadings(Inc(Inc(m, a), b), Inc(Inc(m, b), a))
    ensures SameReadings(Dec(Dec(m, a), b), Dec(Dec(m, b), a))
  {
  }
}
