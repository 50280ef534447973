/** The measurement side of the exporter: the seventeen gauges the pipeline reports
    and the observer it reports them to. Creating and registering the gauges with
    OpenTelemetry is not modelled; a gauge is one value of `Instrument`. */
module Metrics {
  import opened Wrappers
  import opened Numbers

  /** The gauges, in the order one store and then one policy report them. */
  datatype Instrument =
    // one store
    | AccountsCount | UsersCount | ContainersCount | ObjectsCount | DrivesCount | Cache
    // one storage policy
    | PercentageDrivesAdded
    | RingBalanceNormalPercentage | RingBalanceDegradedPercentage | RingBalanceCriticalPercentage
    | FreeStorage | UsedStorage | HealthPercentage | RebalancePercentage
    | RingBalanceNormalCount | RingBalanceDegradedCount | RingBalanceCriticalCount
  {
    /** Reported per store rather than per policy. */
    predicate IsStoreLevel() {
      AccountsCount? || UsersCount? || ContainersCount? || ObjectsCount? || DrivesCount? || Cache?
    }

    /** An Int64ObservableGauge; the others are Float64ObservableGauges. */
    predicate IsInt64Gauge() {
      IsStoreLevel() || FreeStorage? || UsedStorage?
      || RingBalanceNormalCount? || RingBalanceDegradedCount? || RingBalanceCriticalCount?
    }
  }

  datatype Value = Int64Value(i: int64) | Float64Value(f: Float64)

  /** One key/value pair of an attribute set. */
  datatype Attribute = Attribute(key: string, value: string)

  /** One call on the observer: which gauge, what value, which attributes. */
  datatype Observation = Observation(instrument: Instrument, value: Value, attrs: seq<Attribute>)

  /** The keys of an attribute list. */
  function Keys(attrs: seq<Attribute>): (ks: set<string>)
    ensures forall k :: 0 <= k < |attrs| ==> attrs[k].key in ks
    ensures forall key :: key in ks ==> exists k :: 0 <= k < |attrs| && attrs[k].key == key
  {
    if attrs == [] then {} else {attrs[0].key} + Keys(attrs[1..])
  }

  /** The value of the first attribute with this key. */
  function Lookup(attrs: seq<Attribute>, key: string): (v: Option<string>)
    ensures v.Some? <==> key in Keys(attrs)
  {
    if attrs == [] then None
    else if attrs[0].key == key then Some(attrs[0].value)
    else Lookup(attrs[1..], key)
  }

  /** The metric.Observer handed to the callback: it records every observation in order. */
  class Observer {
    var observations: seq<Observation>

    constructor ()
      ensures observations == []
    {
      observations := [];
    }

    /** ObserveInt64; Go's types only let it take an Int64 gauge. */
    method ObserveInt64(instrument: Instrument, value: int64, attrs: seq<Attribute>)
      requires instrument.IsInt64Gauge()
      modifies this
      ensures observations == old(observations) + [Observation(instrument, Int64Value(value), attrs)]
    {
      observations := observations + [Observation(instrument, Int64Value(value), attrs)];
    }

    /** ObserveFloat64; Go's types only let it take a Float64 gauge. */
    method ObserveFloat64(instrument: Instrument, value: Float64, attrs: seq<Attribute>)
      requires !instrument.IsInt64Gauge()
      modifies this
      ensures observations == old(observations) + [Observation(instrument, Float64Value(value), attrs)]
    {
      observations := observations + [Observation(instrument, Float64Value(value), attrs)];
    }
  }
}
