/** The scrape callback: for each target in turn, fetch its stores with their
    policies, and report six gauges per store and eleven per policy to the
    observer, stopping the whole scrape at the first failure.

    The pipeline reads the grouped `StoreStoragePolicies` records its client
    returns; the client is a parameter (`newClient`), given as the answer its
    GetAllStoragePolicies call produces. strconv.ParseFloat is the parameter
    `parse`, a partial function from text to float64. */
module Observe {
  import opened Wrappers
  import opened Errors
  import opened Numbers
  import opened Config
  import opened ObjectStorage
  import opened CommandCenter
  import opened Metrics
  import opened Sequences

  // ---------------------------------------------------------------------------
  // What is reported: gauges, the record fields behind them, attribute sets

  /** The store-level gauges, in the order they are reported. */
  const StoreInstruments: seq<Instrument> :=
    [AccountsCount, UsersCount, ContainersCount, ObjectsCount, DrivesCount, Cache]

  /** The policy-level gauges, in the order they are reported. */
  const PolicyInstruments: seq<Instrument> :=
    [PercentageDrivesAdded,
     RingBalanceNormalPercentage, RingBalanceDegradedPercentage, RingBalanceCriticalPercentage,
     FreeStorage, UsedStorage, HealthPercentage, RebalancePercentage,
     RingBalanceNormalCount, RingBalanceDegradedCount, RingBalanceCriticalCount]

  /** The store field a store-level gauge reports. */
  function StoreReading(store: Zios, i: Instrument): int64
    requires i.IsStoreLevel()
  {
    match i
    case AccountsCount => store.accountsCount
    case UsersCount => store.usersCount
    case ContainersCount => store.containersCount
    case ObjectsCount => store.objectsCount
    case DrivesCount => store.drives
    case Cache => store.cache
  }

  /** The policy field a policy-level gauge reports; `drivesAdded` is the parsed
      percentage of drives added. */
  function PolicyReading(policy: ZiosStoragePolicy, drivesAdded: Float64, i: Instrument): Value
    requires !i.IsStoreLevel()
  {
    match i
    case PercentageDrivesAdded => Float64Value(drivesAdded)
    case RingBalanceNormalPercentage => Float64Value(policy.ringBalance.normalPercentage)
    case RingBalanceDegradedPercentage => Float64Value(policy.ringBalance.degradedPercentage)
    case RingBalanceCriticalPercentage => Float64Value(policy.ringBalance.criticalPercentage)
    case FreeStorage => Int64Value(policy.freeCapacity)
    case UsedStorage => Int64Value(policy.usedCapacity)
    case HealthPercentage => Float64Value(policy.healthPercentage)
    case RebalancePercentage => Float64Value(policy.rebalancePercentage)
    case RingBalanceNormalCount => Int64Value(policy.ringBalance.normalCount)
    case RingBalanceDegradedCount => Int64Value(policy.ringBalance.degradedCount)
    case RingBalanceCriticalCount => Int64Value(policy.ringBalance.criticalCount)
  }

  /** The cloud_name attribute is this constant for every target, not the target's cloud name. */
  const CloudNameAttr: Attribute := Attribute("cloud_name", "cloudName")

  const StoreKeys: set<string> := {"name", "cloud_name", "store_name"}
  const PolicyKeys: set<string> := {"name", "cloud_name", "store_name", "policy_name"}

  function StoreAttrs(target: Target, store: Zios): seq<Attribute>
  {
    [Attribute("name", target.name), CloudNameAttr, Attribute("store_name", store.name)]
  }

  function PolicyAttrs(target: Target, store: Zios, policy: ZiosStoragePolicy): seq<Attribute>
  {
    StoreAttrs(target, store) + [Attribute("policy_name", policy.name)]
  }

  /** The six store-level observations, one per store gauge, in gauge order. */
  function StoreObservations(store: Zios, attrs: seq<Attribute>): (r: seq<Observation>)
    ensures |r| == |StoreInstruments| == 6
  {
    [Observation(AccountsCount, Int64Value(store.accountsCount), attrs),
     Observation(UsersCount, Int64Value(store.usersCount), attrs),
     Observation(ContainersCount, Int64Value(store.containersCount), attrs),
     Observation(ObjectsCount, Int64Value(store.objectsCount), attrs),
     Observation(DrivesCount, Int64Value(store.drives), attrs),
     Observation(Cache, Int64Value(store.cache), attrs)]
  }

  /** The eleven policy-level observations, one per policy gauge, in gauge order. */
  function PolicyObservations(policy: ZiosStoragePolicy, drivesAdded: Float64, attrs: seq<Attribute>): (r: seq<Observation>)
    ensures |r| == |PolicyInstruments| == 11
  {
    var rb := policy.ringBalance;
    [Observation(PercentageDrivesAdded, Float64Value(drivesAdded), attrs),
     Observation(RingBalanceNormalPercentage, Float64Value(rb.normalPercentage), attrs),
     Observation(RingBalanceDegradedPercentage, Float64Value(rb.degradedPercentage), attrs),
     Observation(RingBalanceCriticalPercentage, Float64Value(rb.criticalPercentage), attrs),
     Observation(FreeStorage, Int64Value(policy.freeCapacity), attrs),
     Observation(UsedStorage, Int64Value(policy.usedCapacity), attrs),
     Observation(HealthPercentage, Float64Value(policy.healthPercentage), attrs),
     Observation(RebalancePercentage, Float64Value(policy.rebalancePercentage), attrs),
     Observation(RingBalanceNormalCount, Int64Value(rb.normalCount), attrs),
     Observation(RingBalanceDegradedCount, Int64Value(rb.degradedCount), attrs),
     Observation(RingBalanceCriticalCount, Int64Value(rb.criticalCount), attrs)]
  }

  /** Store observation k reports store gauge k, read from the store, with the given attributes. */
  lemma StoreObservationsPositional(store: Zios, attrs: seq<Attribute>)
    ensures forall k :: 0 <= k < 6 ==>
      StoreObservations(store, attrs)[k] == Observation(StoreInstruments[k], Int64Value(StoreReading(store, StoreInstruments[k])), attrs)
  {
  }

  /** Policy observation k reports policy gauge k, read from the policy, with the given attributes. */
  lemma PolicyObservationsPositional(policy: ZiosStoragePolicy, drivesAdded: Float64, attrs: seq<Attribute>)
    ensures forall k :: 0 <= k < 11 ==>
      PolicyObservations(policy, drivesAdded, attrs)[k] == Observation(PolicyInstruments[k], PolicyReading(policy, drivesAdded, PolicyInstruments[k]), attrs)
  {
  }

  // ---------------------------------------------------------------------------
  // Traces: what a piece of the scrape reports, and the error it stops with

  datatype Trace = Trace(emitted: seq<Observation>, err: Option<Error>)

  /** `first`, then `next` if `first` did not fail. */
  function AndThen(first: Trace, next: Trace): Trace
  {
    if first.err.Some? then first else Trace(first.emitted + next.emitted, next.err)
  }

  /** The steps for `xs` one after another, stopping at the first that fails. */
  function Run<X>(xs: seq<X>, step: X -> Trace): Trace
  {
    if xs == [] then Trace([], None) else AndThen(step(xs[0]), Run(xs[1..], step))
  }

  /** The position of the first step that fails, or |xs| if none does. */
  function FirstFailure<X>(xs: seq<X>, step: X -> Trace): (k: nat)
    ensures k <= |xs|
  {
    if xs == [] then 0 else if step(xs[0]).err.Some? then 0 else 1 + FirstFailure(xs[1..], step)
  }

  /** observePolicies for one policy: nothing unless the drives-added text parses. */
  function PolicyTrace(policy: ZiosStoragePolicy, attrs: seq<Attribute>, parse: string -> Option<Float64>): (t: Trace)
    ensures t.err.None? <==> parse(policy.percentageDrivesAdded).Some?
    ensures t.err.Some? ==> t == Trace([], Some(ParseError(policy.percentageDrivesAdded)))
    ensures t.err.None? ==> |t.emitted| == 11
  {
    match parse(policy.percentageDrivesAdded)
    case None => Trace([], Some(ParseError(policy.percentageDrivesAdded)))
    case Some(v) => Trace(PolicyObservations(policy, v, attrs), None)
  }

  /** The policies of one store, in order. */
  function PoliciesTrace(target: Target, store: Zios, policies: seq<ZiosStoragePolicy>, parse: string -> Option<Float64>): Trace
  {
    Run(policies, PolicyStep(target, store, parse))
  }

  function PolicyStep(target: Target, store: Zios, parse: string -> Option<Float64>): ZiosStoragePolicy -> Trace
  {
    p => PolicyTrace(p, PolicyAttrs(target, store, p), parse)
  }

  /** One store: its six gauges, then its policies. */
  function SnapshotTrace(target: Target, snapshot: StoreStoragePolicies, parse: string -> Option<Float64>): Trace
  {
    var store := snapshot.store;
    AndThen(Trace(StoreObservations(store, StoreAttrs(target, store)), None),
            PoliciesTrace(target, store, snapshot.policies, parse))
  }

  /** observeStores: a failed retrieval reports nothing and is wrapped; otherwise the stores, in order. */
  function TargetTrace(target: Target, fetched: Result<seq<StoreStoragePolicies>, Error>, parse: string -> Option<Float64>): (t: Trace)
    ensures fetched.Failure? ==> t == Trace([], Some(GettingPoliciesError(fetched.error)))
  {
    match fetched
    case Failure(e) => Trace([], Some(GettingPoliciesError(e)))
    case Success(snapshots) => Run(snapshots, SnapshotStep(target, parse))
  }

  function SnapshotStep(target: Target, parse: string -> Option<Float64>): StoreStoragePolicies -> Trace
  {
    s => SnapshotTrace(target, s, parse)
  }

  /** The whole scrape: the targets in order, stopping at the first that fails. */
  function ScrapeTrace(
    targets: seq<Target>,
    newClient: Target -> Result<seq<StoreStoragePolicies>, Error>,
    parse: string -> Option<Float64>): Trace
  {
    Run(targets, TargetStep(newClient, parse))
  }

  function TargetStep(newClient: Target -> Result<seq<StoreStoragePolicies>, Error>, parse: string -> Option<Float64>): Target -> Trace
  {
    t => TargetTrace(t, newClient(t), parse)
  }

  // ---------------------------------------------------------------------------
  // The callback, as the source writes it: nested loops pushing into the observer

  /** observePolicies: parse the drives-added percentage, then report the eleven
      policy gauges; if the text does not parse, report nothing and return the error. */
  method ObservePolicies(o: Observer, policy: ZiosStoragePolicy, attrs: seq<Attribute>, parse: string -> Option<Float64>)
    returns (err: Option<Error>)
    modifies o
    ensures o.observations == old(o.observations) + PolicyTrace(policy, attrs, parse).emitted
    ensures err == PolicyTrace(policy, attrs, parse).err
  {
    var drivesAdded := parse(policy.percentageDrivesAdded);
    if drivesAdded.None? {
      return Some(ParseError(policy.percentageDrivesAdded));
    }
    var v := drivesAdded.value;
    o.ObserveFloat64(PercentageDrivesAdded, v, attrs);
    o.ObserveFloat64(RingBalanceNormalPercentage, policy.ringBalance.normalPercentage, attrs);
    o.ObserveFloat64(RingBalanceDegradedPercentage, policy.ringBalance.degradedPercentage, attrs);
    o.ObserveFloat64(RingBalanceCriticalPercentage, policy.ringBalance.criticalPercentage, attrs);
    o.ObserveInt64(FreeStorage, policy.freeCapacity, attrs);
    o.ObserveInt64(UsedStorage, policy.usedCapacity, attrs);
    o.ObserveFloat64(HealthPercentage, policy.healthPercentage, attrs);
    o.ObserveFloat64(RebalancePercentage, policy.rebalancePercentage, attrs);
    o.ObserveInt64(RingBalanceNormalCount, policy.ringBalance.normalCount, attrs);
    o.ObserveInt64(RingBalanceDegradedCount, policy.ringBalance.degradedCount, attrs);
    o.ObserveInt64(RingBalanceCriticalCount, policy.ringBalance.criticalCount, attrs);
    Eleven(old(o.observations),
      Observation(PercentageDrivesAdded, Float64Value(v), attrs),
      Observation(RingBalanceNormalPercentage, Float64Value(policy.ringBalance.normalPercentage), attrs),
      Observation(RingBalanceDegradedPercentage, Float64Value(policy.ringBalance.degradedPercentage), attrs),
      Observation(RingBalanceCriticalPercentage, Float64Value(policy.ringBalance.criticalPercentage), attrs),
      Observation(FreeStorage, Int64Value(policy.freeCapacity), attrs),
      Observation(UsedStorage, Int64Value(policy.usedCapacity), attrs),
      Observation(HealthPercentage, Float64Value(policy.healthPercentage), attrs),
      Observation(RebalancePercentage, Float64Value(policy.rebalancePercentage), attrs),
      Observation(RingBalanceNormalCount, Int64Value(policy.ringBalance.normalCount), attrs),
      Observation(RingBalanceDegradedCount, Int64Value(policy.ringBalance.degradedCount), attrs),
      Observation(RingBalanceCriticalCount, Int64Value(policy.ringBalance.criticalCount), attrs));
    return None;
  }

  /** The body of observeStores' loop for one store: its six gauges with the
      store-level attributes, then each policy with the policy-level ones. */
  method ObserveStore(o: Observer, target: Target, snapshot: StoreStoragePolicies, parse: string -> Option<Float64>)
    returns (err: Option<Error>)
    modifies o
    ensures o.observations == old(o.observations) + SnapshotTrace(target, snapshot, parse).emitted
    ensures err == SnapshotTrace(target, snapshot, parse).err
  {
    var store := snapshot.store;
    var policies := snapshot.policies;
    var storeLevelAttrs := StoreAttrs(target, store);
    o.ObserveInt64(AccountsCount, store.accountsCount, storeLevelAttrs);
    o.ObserveInt64(UsersCount, store.usersCount, storeLevelAttrs);
    o.ObserveInt64(ContainersCount, store.containersCount, storeLevelAttrs);
    o.ObserveInt64(ObjectsCount, store.objectsCount, storeLevelAttrs);
    o.ObserveInt64(DrivesCount, store.drives, storeLevelAttrs);
    o.ObserveInt64(Cache, store.cache, storeLevelAttrs);
    Six(old(o.observations),
      Observation(AccountsCount, Int64Value(store.accountsCount), storeLevelAttrs),
      Observation(UsersCount, Int64Value(store.usersCount), storeLevelAttrs),
      Observation(ContainersCount, Int64Value(store.containersCount), storeLevelAttrs),
      Observation(ObjectsCount, Int64Value(store.objectsCount), storeLevelAttrs),
      Observation(DrivesCount, Int64Value(store.drives), storeLevelAttrs),
      Observation(Cache, Int64Value(store.cache), storeLevelAttrs));
    ghost var storeObs := StoreObservations(store, storeLevelAttrs);
    ghost var all := PoliciesTrace(target, store, policies, parse);
    ghost var pstep := PolicyStep(target, store, parse);
    ghost var pdone: seq<Observation> := [];
    var j := 0;
    while j < |policies|
      invariant 0 <= j <= |policies|
      invariant o.observations == old(o.observations) + storeObs + pdone
      invariant all == Trace(pdone + Run(policies[j..], pstep).emitted, Run(policies[j..], pstep).err)
    {
      var policy := policies[j];
      RunAt(policies, j, pstep);
      var policyLevelAttrs := PolicyAttrs(target, store, policy);
      ghost var pt := PolicyTrace(policy, policyLevelAttrs, parse);
      assert pstep(policy) == pt;
      ghost var before := o.observations;
      err := ObservePolicies(o, policy, policyLevelAttrs, parse);
      assert o.observations == before + pt.emitted;
      if err.Some? {
        assert pt.emitted == [] && o.observations == before;
        assert Run(policies[j..], pstep) == pt;
        ConcatAssoc(old(o.observations), storeObs, pdone);
        return;
      }
      ghost var rest := Run(policies[j + 1..], pstep);
      ConcatAssoc(pdone, pt.emitted, rest.emitted);
      ConcatAssoc(old(o.observations) + storeObs, pdone, pt.emitted);
      pdone := pdone + pt.emitted;
      j := j + 1;
    }
    assert policies[j..] == [];
    assert pdone + [] == pdone;
    ConcatAssoc(old(o.observations), storeObs, pdone);
    return None;
  }

  /** observeStores: `fetched` is the answer of the target's client. */
  method ObserveStores(o: Observer, target: Target, fetched: Result<seq<StoreStoragePolicies>, Error>, parse: string -> Option<Float64>)
    returns (err: Option<Error>)
    modifies o
    ensures o.observations == old(o.observations) + TargetTrace(target, fetched, parse).emitted
    ensures err == TargetTrace(target, fetched, parse).err
  {
    if fetched.Failure? {
      return Some(GettingPoliciesError(fetched.error));
    }
    var stores := fetched.value;
    ghost var step := SnapshotStep(target, parse);
    ghost var done: seq<Observation> := [];
    var i := 0;
    while i < |stores|
      invariant 0 <= i <= |stores|
      invariant o.observations == old(o.observations) + done
      invariant TargetTrace(target, fetched, parse)
             == Trace(done + Run(stores[i..], step).emitted, Run(stores[i..], step).err)
    {
      RunAt(stores, i, step);
      ghost var t := SnapshotTrace(target, stores[i], parse);
      assert step(stores[i]) == t;
      ghost var before := o.observations;
      err := ObserveStore(o, target, stores[i], parse);
      assert o.observations == before + t.emitted;
      ConcatAssoc(old(o.observations), done, t.emitted);
      if err.Some? {
        assert Run(stores[i..], step) == t;
        return;
      }
      ghost var rest := Run(stores[i + 1..], step);
      ConcatAssoc(done, t.emitted, rest.emitted);
      done := done + t.emitted;
      i := i + 1;
    }
    assert stores[i..] == [];
    assert done + [] == done;
    return None;
  }

  /** The callback StorageMetricsObserve returns, run once. `visited` counts the
      targets whose client was created and queried: targets are taken in order,
      and none after the first that fails. */
  method StorageMetricsObserve(
    o: Observer, targets: seq<Target>,
    newClient: Target -> Result<seq<StoreStoragePolicies>, Error>,
    parse: string -> Option<Float64>)
    returns (err: Option<Error>, visited: nat)
    modifies o
    ensures o.observations == old(o.observations) + ScrapeTrace(targets, newClient, parse).emitted
    ensures err == ScrapeTrace(targets, newClient, parse).err
    ensures visited == if FirstFailure(targets, TargetStep(newClient, parse)) < |targets|
                       then FirstFailure(targets, TargetStep(newClient, parse)) + 1
                       else |targets|
  {
    ghost var step := TargetStep(newClient, parse);
    ghost var done: seq<Observation> := [];
    visited := 0;
    var i := 0;
    while i < |targets|
      invariant 0 <= i <= |targets|
      invariant visited == i
      invariant FirstFailure(targets, step) == i + FirstFailure(targets[i..], step)
      invariant o.observations == old(o.observations) + done
      invariant ScrapeTrace(targets, newClient, parse)
             == Trace(done + Run(targets[i..], step).emitted, Run(targets[i..], step).err)
    {
      var target := targets[i];
      RunAt(targets, i, step);
      visited := visited + 1;
      var client := newClient(target);
      ghost var t := TargetTrace(target, client, parse);
      assert step(target) == t;
      ghost var before := o.observations;
      err := ObserveStores(o, target, client, parse);
      assert o.observations == before + t.emitted;
      ConcatAssoc(old(o.observations), done, t.emitted);
      if err.Some? {
        assert Run(targets[i..], step) == t;
        assert FirstFailure(targets[i..], step) == 0;
        return;
      }
      assert FirstFailure(targets[i..], step) == 1 + FirstFailure(targets[i + 1..], step);
      ghost var rest := Run(targets[i + 1..], step);
      ConcatAssoc(done, t.emitted, rest.emitted);
      done := done + t.emitted;
      i := i + 1;
    }
    assert targets[i..] == [];
    assert done + [] == done;
    return None, visited;
  }

  // ---------------------------------------------------------------------------
  // Lemmas

  /** One step of a run, at position i. */
  lemma RunAt<X>(xs: seq<X>, i: nat, step: X -> Trace)
    requires i < |xs|
    ensures Run(xs[i..], step) == AndThen(step(xs[i]), Run(xs[i + 1..], step))
    ensures FirstFailure(xs[i..], step)
         == if step(xs[i]).err.Some? then 0 else 1 + FirstFailure(xs[i + 1..], step)
  {
    assert xs[i..][1..] == xs[i + 1..];
  }

  /** Six appends in a row append the six in one go. */
  lemma Six<T>(a: seq<T>, x0: T, x1: T, x2: T, x3: T, x4: T, x5: T)
    ensures a + [x0] + [x1] + [x2] + [x3] + [x4] + [x5] == a + [x0, x1, x2, x3, x4, x5]
  {
  }

  /** Eleven appends in a row append the eleven in one go. */
  lemma Eleven<T>(a: seq<T>, x0: T, x1: T, x2: T, x3: T, x4: T, x5: T, x6: T, x7: T, x8: T, x9: T, x10: T)
    ensures a + [x0] + [x1] + [x2] + [x3] + [x4] + [x5] + [x6] + [x7] + [x8] + [x9] + [x10]
         == a + [x0, x1, x2, x3, x4, x5, x6, x7, x8, x9, x10]
  {
  }
}
