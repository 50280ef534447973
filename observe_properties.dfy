/** What the scrape callback promises, stated over its traces: the length and
    layout of what is reported on success, where and how it stops on failure,
    and the attributes every observation carries. */
module ObserveProperties {
  import opened Wrappers
  import opened Errors
  import opened Numbers
  import opened Config
  import opened ObjectStorage
  import opened CommandCenter
  import opened Metrics
  import opened Observe
  import opened Sequences

  // ---------------------------------------------------------------------------
  // Fail-fast runs in general

  /** Everything the steps for `xs` report, all of them, one after another. */
  function Emitted<X>(xs: seq<X>, step: X -> Trace): seq<Observation>
  {
    if xs == [] then [] else step(xs[0]).emitted + Emitted(xs[1..], step)
  }

  /** FirstFailure is the first failing step: all before it succeed. */
  lemma {:induction false} FirstFailureIsFirst<X>(xs: seq<X>, step: X -> Trace)
    ensures forall j :: 0 <= j < FirstFailure(xs, step) ==> step(xs[j]).err.None?
    ensures FirstFailure(xs, step) < |xs| ==> step(xs[FirstFailure(xs, step)]).err.Some?
    decreases |xs|
  {
    if xs != [] && step(xs[0]).err.None? {
      FirstFailureIsFirst(xs[1..], step);
      forall j | 0 <= j < FirstFailure(xs, step)
        ensures step(xs[j]).err.None?
      {
        if j > 0 {
          assert xs[j] == xs[1..][j - 1];
        }
      }
    }
  }

  /** A run stops at its first failing step, keeping what the earlier steps and the
      failing step itself reported; a run with no failing step reports everything. */
  lemma {:induction false} RunCharacterised<X>(xs: seq<X>, step: X -> Trace)
    ensures Run(xs, step).err.None? <==> FirstFailure(xs, step) == |xs|
    ensures FirstFailure(xs, step) < |xs| ==>
      Run(xs, step) == Trace(Emitted(xs[..FirstFailure(xs, step)], step) + step(xs[FirstFailure(xs, step)]).emitted,
                             step(xs[FirstFailure(xs, step)]).err)
    ensures FirstFailure(xs, step) == |xs| ==> Run(xs, step) == Trace(Emitted(xs, step), None)
    decreases |xs|
  {
    if xs == [] {
    } else if step(xs[0]).err.Some? {
      assert xs[..0] == [];
      assert [] + step(xs[0]).emitted == step(xs[0]).emitted;
    } else {
      var rest := xs[1..];
      RunCharacterised(rest, step);
      var k := FirstFailure(xs, step);
      var head := step(xs[0]).emitted;
      if k < |xs| {
        assert rest[k - 1] == xs[k];
        assert xs[..k][0] == xs[0] && xs[..k][1..] == rest[..k - 1];
        assert Emitted(xs[..k], step) == head + Emitted(rest[..k - 1], step);
        ConcatAssoc(head, Emitted(rest[..k - 1], step), step(xs[k]).emitted);
      }
    }
  }

  // ---------------------------------------------------------------------------
  // One policy, the policies of one store

  /** When the drives-added text parses to `v`, observePolicies reports policy gauge k
      as observation k, with the value the gauge table reads from the policy and `v`. */
  lemma PolicyTraceCases(policy: ZiosStoragePolicy, attrs: seq<Attribute>, parse: string -> Option<Float64>, v: Float64)
    ensures parse(policy.percentageDrivesAdded) == Some(v) ==>
      |PolicyTrace(policy, attrs, parse).emitted| == 11 &&
      forall k :: 0 <= k < 11 ==>
        PolicyTrace(policy, attrs, parse).emitted[k]
          == Observation(PolicyInstruments[k], PolicyReading(policy, v, PolicyInstruments[k]), attrs)
  {
    PolicyObservationsPositional(policy, v, attrs);
  }

  /** On success each policy contributes its eleven observations, at positions
      11*j .. 11*j+10, reading the policy and its parsed drives-added percentage. */
  lemma {:induction false} PoliciesLayout(target: Target, store: Zios, policies: seq<ZiosStoragePolicy>, parse: string -> Option<Float64>)
    requires PoliciesTrace(target, store, policies, parse).err.None?
    ensures |PoliciesTrace(target, store, policies, parse).emitted| == 11 * |policies|
    ensures forall j :: 0 <= j < |policies| ==>
      parse(policies[j].percentageDrivesAdded).Some? &&
      PoliciesTrace(target, store, policies, parse).emitted[11 * j .. 11 * j + 11]
        == PolicyObservations(policies[j], parse(policies[j].percentageDrivesAdded).value,
                              PolicyAttrs(target, store, policies[j]))
    decreases |policies|
  {
    if policies != [] {
      var p := policies[0];
      var rest := policies[1..];
      var first := PolicyTrace(p, PolicyAttrs(target, store, p), parse);
      var later := PoliciesTrace(target, store, rest, parse);
      assert PoliciesTrace(target, store, policies, parse) == AndThen(first, later);
      assert first.err.None?;
      PoliciesLayout(target, store, rest, parse);
      var all := first.emitted + later.emitted;
      assert |first.emitted| == 11;
      forall j | 0 <= j < |policies|
        ensures parse(policies[j].percentageDrivesAdded).Some? &&
          all[11 * j .. 11 * j + 11]
            == PolicyObservations(policies[j], parse(policies[j].percentageDrivesAdded).value,
                                  PolicyAttrs(target, store, policies[j]))
      {
        if j == 0 {
          assert all[0 .. 11] == first.emitted;
        } else {
          assert policies[j] == rest[j - 1];
          assert all[11 * j .. 11 * j + 11] == later.emitted[11 * (j - 1) .. 11 * (j - 1) + 11];
        }
      }
    }
  }

  /** On failure the policies stop at the first whose drives-added text does not
      parse: the eleven observations of every policy before it stay reported, that
      policy reports nothing, and the error names its text. */
  lemma PoliciesAbort(target: Target, store: Zios, policies: seq<ZiosStoragePolicy>, parse: string -> Option<Float64>)
    requires PoliciesTrace(target, store, policies, parse).err.Some?
    ensures FirstFailure(policies, PolicyStep(target, store, parse)) < |policies|
    ensures var k := FirstFailure(policies, PolicyStep(target, store, parse));
      parse(policies[k].percentageDrivesAdded).None?
      && (forall j :: 0 <= j < k ==> parse(policies[j].percentageDrivesAdded).Some?)
      && PoliciesTrace(target, store, policies, parse).err == Some(ParseError(policies[k].percentageDrivesAdded))
      && PoliciesTrace(target, store, policies, parse).emitted
           == PoliciesTrace(target, store, policies[..k], parse).emitted
      && |PoliciesTrace(target, store, policies, parse).emitted| == 11 * k
  {
    var step := PolicyStep(target, store, parse);
    var k := FirstFailure(policies, step);
    RunCharacterised(policies, step);
    FirstFailureIsFirst(policies, step);
    assert step(policies[k]) == PolicyTrace(policies[k], PolicyAttrs(target, store, policies[k]), parse);
    forall j | 0 <= j < k
      ensures parse(policies[j].percentageDrivesAdded).Some?
    {
      assert step(policies[j]).err.None?;
    }
    var prefix := policies[..k];
    FirstFailureIsFirst(prefix, step);
    RunCharacterised(prefix, step);
    PrefixSucceeds(prefix, step);
    assert prefix[..|prefix|] == prefix;
    assert Run(prefix, step).emitted == Emitted(prefix, step);
    assert PoliciesTrace(target, store, prefix, parse) == Run(prefix, step);
    assert Run(prefix, step).err.None?;
    PoliciesLayout(target, store, prefix, parse);
  }

  /** A run whose every step succeeds does not fail. */
  lemma {:induction false} PrefixSucceeds<X>(xs: seq<X>, step: X -> Trace)
    requires forall j :: 0 <= j < |xs| ==> step(xs[j]).err.None?
    ensures FirstFailure(xs, step) == |xs|
    decreases |xs|
  {
    if xs != [] {
      assert forall j :: 0 <= j < |xs[1..]| ==> xs[1..][j] == xs[j + 1];
      PrefixSucceeds(xs[1..], step);
    }
  }

  // ---------------------------------------------------------------------------
  // Stores and targets

  /** The number of policies over all stores. */
  function PolicyTotal(snapshots: seq<StoreStoragePolicies>): nat
  {
    if snapshots == [] then 0 else |snapshots[0].policies| + PolicyTotal(snapshots[1..])
  }

  /** A store reports its six gauges first, then its policies. */
  lemma SnapshotLayout(target: Target, snapshot: StoreStoragePolicies, parse: string -> Option<Float64>)
    ensures SnapshotTrace(target, snapshot, parse).err == PoliciesTrace(target, snapshot.store, snapshot.policies, parse).err
    ensures SnapshotTrace(target, snapshot, parse).emitted
         == StoreObservations(snapshot.store, StoreAttrs(target, snapshot.store))
            + PoliciesTrace(target, snapshot.store, snapshot.policies, parse).emitted
  {
  }

  /** On success a target reports 6 observations per store and 11 per policy. */
  lemma {:induction false} TargetCount(target: Target, snapshots: seq<StoreStoragePolicies>, parse: string -> Option<Float64>)
    requires TargetTrace(target, Success(snapshots), parse).err.None?
    ensures |TargetTrace(target, Success(snapshots), parse).emitted| == 6 * |snapshots| + 11 * PolicyTotal(snapshots)
    decreases |snapshots|
  {
    if snapshots != [] {
      var s := snapshots[0];
      var first := SnapshotTrace(target, s, parse);
      var later := TargetTrace(target, Success(snapshots[1..]), parse);
      assert TargetTrace(target, Success(snapshots), parse) == AndThen(first, later);
      SnapshotLayout(target, s, parse);
      PoliciesLayout(target, s.store, s.policies, parse);
      TargetCount(target, snapshots[1..], parse);
    }
  }

  /** The scenario of one store with two policies whose drives-added texts parse:
      6 + 11 + 11 observations and no error. */
  lemma OneStoreTwoPolicies(target: Target, store: Zios, p1: ZiosStoragePolicy, p2: ZiosStoragePolicy, parse: string -> Option<Float64>)
    requires parse(p1.percentageDrivesAdded).Some? && parse(p2.percentageDrivesAdded).Some?
    ensures TargetTrace(target, Success([StoreStoragePolicies(store, [p1, p2])]), parse).err.None?
    ensures |TargetTrace(target, Success([StoreStoragePolicies(store, [p1, p2])]), parse).emitted| == 28
  {
    var snapshots := [StoreStoragePolicies(store, [p1, p2])];
    var step := PolicyStep(target, store, parse);
    assert [p1, p2][1..] == [p2] && [p2][1..] == [];
    assert step(p1).err.None? && step(p2).err.None?;
    assert Run([p2], step) == AndThen(step(p2), Run([], step));
    assert Run([p1, p2], step) == AndThen(step(p1), Run([p2], step));
    assert PoliciesTrace(target, store, [p1, p2], parse).err.None?;
    var sstep := SnapshotStep(target, parse);
    assert snapshots[1..] == [];
    assert Run(snapshots, sstep) == AndThen(sstep(snapshots[0]), Run([], sstep));
    SnapshotLayout(target, snapshots[0], parse);
    assert TargetTrace(target, Success(snapshots), parse).err.None?;
    TargetCount(target, snapshots, parse);
    assert PolicyTotal(snapshots) == 2;
  }

  /** With no targets the callback reports nothing and succeeds. */
  lemma NoTargets(newClient: Target -> Result<seq<StoreStoragePolicies>, Error>, parse: string -> Option<Float64>)
    ensures ScrapeTrace([], newClient, parse) == Trace([], None)
  {
  }

  // ---------------------------------------------------------------------------
  // Attributes

  /** Store-level attributes: exactly the keys name, cloud_name and store_name,
      with the target's name, the constant "cloudName" and the store's name. */
  lemma StoreAttrsKeys(target: Target, store: Zios)
    ensures Keys(StoreAttrs(target, store)) == StoreKeys
    ensures Lookup(StoreAttrs(target, store), "name") == Some(target.name)
    ensures Lookup(StoreAttrs(target, store), "cloud_name") == Some("cloudName")
    ensures Lookup(StoreAttrs(target, store), "store_name") == Some(store.name)
  {
    var a := StoreAttrs(target, store);
    var a1 := [CloudNameAttr, Attribute("store_name", store.name)];
    var a2 := [Attribute("store_name", store.name)];
    assert a[1..] == a1 && a1[1..] == a2 && a2[1..] == [];
    assert "cloud_name"[0] != "store_name"[0];
    assert Keys(a2) == {"store_name"};
    assert Keys(a1) == {"cloud_name", "store_name"};
    assert Lookup(a2, "store_name") == Some(store.name);
    assert Lookup(a1, "store_name") == Some(store.name);
    assert Lookup(a1, "cloud_name") == Some("cloudName");
  }

  /** Policy-level attributes: the store-level ones plus policy_name with the policy's name. */
  lemma PolicyAttrsKeys(target: Target, store: Zios, policy: ZiosStoragePolicy)
    ensures Keys(PolicyAttrs(target, store, policy)) == PolicyKeys
    ensures Lookup(PolicyAttrs(target, store, policy), "name") == Some(target.name)
    ensures Lookup(PolicyAttrs(target, store, policy), "cloud_name") == Some("cloudName")
    ensures Lookup(PolicyAttrs(target, store, policy), "store_name") == Some(store.name)
    ensures Lookup(PolicyAttrs(target, store, policy), "policy_name") == Some(policy.name)
  {
    var a := PolicyAttrs(target, store, policy);
    var a1 := [CloudNameAttr, Attribute("store_name", store.name), Attribute("policy_name", policy.name)];
    var a2 := [Attribute("store_name", store.name), Attribute("policy_name", policy.name)];
    var a3 := [Attribute("policy_name", policy.name)];
    assert a == [Attribute("name", target.name)] + a1;
    assert a[1..] == a1 && a1[1..] == a2 && a2[1..] == a3 && a3[1..] == [];
    assert "cloud_name"[0] != "store_name"[0];
    assert Keys(a3) == {"policy_name"};
    assert Keys(a2) == {"store_name", "policy_name"};
    assert Keys(a1) == {"cloud_name", "store_name", "policy_name"};
    assert Lookup(a3, "policy_name") == Some(policy.name);
    assert Lookup(a2, "policy_name") == Some(policy.name);
    assert Lookup(a1, "policy_name") == Some(policy.name);
    assert Lookup(a2, "store_name") == Some(store.name);
    assert Lookup(a1, "store_name") == Some(store.name);
    assert Lookup(a1, "cloud_name") == Some("cloudName");
  }

  /** A value of the type of its gauge: Int64 gauges get integers, the others floats. */
  predicate WellTyped(ob: Observation)
  {
    ob.instrument.IsInt64Gauge() <==> ob.value.Int64Value?
  }

  /** The key set of the level, cloud_name "cloudName" and the target's name. */
  predicate LevelAttrs(storeLevel: bool, attrs: seq<Attribute>, name: string)
  {
    Keys(attrs) == (if storeLevel then StoreKeys else PolicyKeys)
    && Lookup(attrs, "cloud_name") == Some("cloudName")
    && Lookup(attrs, "name") == Some(name)
  }

  /** What every observation of a target carries. */
  predicate Labelled(ob: Observation, name: string)
  {
    WellTyped(ob) && LevelAttrs(ob.instrument.IsStoreLevel(), ob.attrs, name)
  }

  lemma StoreObservationsLabelled(target: Target, store: Zios)
    ensures forall ob :: ob in StoreObservations(store, StoreAttrs(target, store)) ==> Labelled(ob, target.name)
  {
    var a := StoreAttrs(target, store);
    StoreAttrsKeys(target, store);
    assert LevelAttrs(true, a, target.name);
    var r := StoreObservations(store, a);
    forall ob | ob in r
      ensures Labelled(ob, target.name)
    {
      var k :| 0 <= k < |r| && r[k] == ob;
      assert ob.attrs == a && ob.instrument.IsStoreLevel() && WellTyped(ob);
    }
  }

  lemma PolicyObservationsLabelled(target: Target, store: Zios, policy: ZiosStoragePolicy, v: Float64)
    ensures forall ob :: ob in PolicyObservations(policy, v, PolicyAttrs(target, store, policy)) ==> Labelled(ob, target.name)
  {
    var a := PolicyAttrs(target, store, policy);
    PolicyAttrsKeys(target, store, policy);
    assert LevelAttrs(false, a, target.name);
    var r := PolicyObservations(policy, v, a);
    PolicyObservationsTyped(policy, v, a);
    forall ob | ob in r
      ensures Labelled(ob, target.name)
    {
      var k :| 0 <= k < |r| && r[k] == ob;
    }
  }

  /** Each policy observation has the given attributes, a policy-level gauge and a value of its type. */
  lemma PolicyObservationsTyped(policy: ZiosStoragePolicy, v: Float64, a: seq<Attribute>)
    ensures forall k :: 0 <= k < 11 ==>
      var ob := PolicyObservations(policy, v, a)[k];
      ob.attrs == a && !ob.instrument.IsStoreLevel() && WellTyped(ob)
  {
  }

  lemma {:induction false} PoliciesLabelled(target: Target, store: Zios, policies: seq<ZiosStoragePolicy>, parse: string -> Option<Float64>)
    ensures forall ob :: ob in PoliciesTrace(target, store, policies, parse).emitted ==> Labelled(ob, target.name)
    decreases |policies|
  {
    if policies != [] {
      var p := policies[0];
      var first := PolicyTrace(p, PolicyAttrs(target, store, p), parse);
      assert PoliciesTrace(target, store, policies, parse) == AndThen(first, PoliciesTrace(target, store, policies[1..], parse));
      if parse(p.percentageDrivesAdded).Some? {
        PolicyObservationsLabelled(target, store, p, parse(p.percentageDrivesAdded).value);
      }
      PoliciesLabelled(target, store, policies[1..], parse);
    }
  }

  /** Every observation reported for a target is labelled with that target's name. */
  lemma {:induction false} TargetLabelled(target: Target, snapshots: seq<StoreStoragePolicies>, parse: string -> Option<Float64>)
    ensures forall ob :: ob in TargetTrace(target, Success(snapshots), parse).emitted ==> Labelled(ob, target.name)
    decreases |snapshots|
  {
    if snapshots != [] {
      var s := snapshots[0];
      assert TargetTrace(target, Success(snapshots), parse)
          == AndThen(SnapshotTrace(target, s, parse), TargetTrace(target, Success(snapshots[1..]), parse));
      SnapshotLayout(target, s, parse);
      StoreObservationsLabelled(target, s.store);
      PoliciesLabelled(target, s.store, s.policies, parse);
      TargetLabelled(target, snapshots[1..], parse);
    }
  }

  /** Every observation of the whole scrape is labelled with the name of one of the targets. */
  lemma {:induction false} ScrapeLabelled(
    targets: seq<Target>,
    newClient: Target -> Result<seq<StoreStoragePolicies>, Error>,
    parse: string -> Option<Float64>)
    ensures forall ob :: ob in ScrapeTrace(targets, newClient, parse).emitted ==>
      exists i :: 0 <= i < |targets| && Labelled(ob, targets[i].name)
    decreases |targets|
  {
    if targets != [] {
      var t := targets[0];
      var first := TargetTrace(t, newClient(t), parse);
      assert ScrapeTrace(targets, newClient, parse) == AndThen(first, ScrapeTrace(targets[1..], newClient, parse));
      if newClient(t).Success? {
        TargetLabelled(t, newClient(t).value, parse);
      }
      ScrapeLabelled(targets[1..], newClient, parse);
      forall ob | ob in ScrapeTrace(targets, newClient, parse).emitted
        ensures exists i :: 0 <= i < |targets| && Labelled(ob, targets[i].name)
      {
        if ob in first.emitted {
          assert Labelled(ob, targets[0].name);
        } else {
          var i :| 0 <= i < |targets[1..]| && Labelled(ob, targets[1..][i].name);
          assert targets[1..][i] == targets[i + 1];
        }
      }
    }
  }
}
