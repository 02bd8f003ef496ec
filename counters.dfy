/**
 * Metric counters with one label dimension, as the handler's three
 * Prometheus counters are used: a labelled series that was never
 * incremented reads as zero, and `WithLabels(key).Inc()` raises exactly
 * that one series by one.
 */
module Counters {

  type Counter = map<string, nat>

  /** The value of the series for `key`. */
  function Count(c: Counter, key: string): nat {
    if key in c then c[key] else 0
  }

  /** `WithLabels(key).Inc()`. */
  function Inc(c: Counter, key: string): (r: Counter)
    ensures Count(r, key) == Count(c, key) + 1
    ensures forall other :: other != key ==> Count(r, other) == Count(c, other)
    ensures r.Keys == c.Keys + {key}
  {
    c[key := Count(c, key) + 1]
  }
}
