/** The process-wide gauge registry the polling tasks publish into. A series
    is named by its metric and its ordered label values; only the latest
    value of each series is kept. */
module Metrics {
  import opened Wrappers

  /** A gauge value. The tasks only copy values from payloads into series,
      never compute on them. */
  type Sample = real

  datatype SeriesKey = SeriesKey(metric: string, labels: seq<string>)

  type Series = map<SeriesKey, Sample>

  /** The value of one series, or None when it was never set. */
  function Lookup(m: Series, k: SeriesKey): Option<Sample>
  {
    if k in m then Some(m[k]) else None
  }

  /** Set `k` to the value when there is one; leave the map alone otherwise. */
  function SetIfPresent(m: Series, k: SeriesKey, v: Option<Sample>): (r: Series)
    ensures Lookup(r, k) == if v.Some? then v else Lookup(m, k)
    ensures forall k' :: k' != k ==> Lookup(r, k') == Lookup(m, k')
  {
    if v.Some? then m[k := v.value] else m
  }

  /** The registry as a mutable object: `GaugeVec::with_label_values(..).set(..)`. */
  class Registry {
    var series: Series

    constructor ()
      ensures series == map[]
    {
      series := map[];
    }

    method Set(k: SeriesKey, v: Sample)
      modifies this
      ensures series == old(series)[k := v]
    {
      series := series[k := v];
    }
  }
}
