/** The Command Centre client's aggregation: list a cloud's stores, then fetch each
    store's storage policies in turn and concatenate them, all or nothing.

    The repository is inconsistent here: `GetAllStoragePolicies` returns one
    flat list of policies and takes a cloud name, while the metrics pipeline and
    its tests consume a list grouped by store (`StoreStoragePolicies`, a type the
    pipeline and its tests use, declared here). This module models the flat list the function
    returns; the pipeline in module Observe models the grouped shape it consumes. */
module CommandCenter {
  import opened Wrappers
  import opened Errors
  import opened Numbers
  import opened ObjectStorage

  /** The grouped record the metrics pipeline reads: one store and its policies. */
  datatype StoreStoragePolicies = StoreStoragePolicies(store: Zios, policies: seq<ZiosStoragePolicy>)

  /** A call made on the embedded VPSA Object Storage client. */
  datatype Call =
    | GetStoresCall(cloudName: string)
    | GetStoragePoliciesCall(cloudName: string, ziosID: int64)

  /** What an aggregation returned, and the calls it made, in order. */
  datatype Fetch = Fetch(result: Result<seq<ZiosStoragePolicy>, Error>, calls: seq<Call>)

  /** The policies of `stores`, one store after another, stopping at the first failure. */
  function FetchPolicies(
    cloudName: string, stores: seq<Zios>,
    getStoragePolicies: (string, int64) -> Result<ZiosStoragePoliciesResponse, Error>): Fetch
  {
    if stores == [] then Fetch(Success([]), [])
    else
      var call := GetStoragePoliciesCall(cloudName, stores[0].id);
      match getStoragePolicies(cloudName, stores[0].id)
      case Failure(e) => Fetch(Failure(GettingPoliciesError(e)), [call])
      case Success(res) =>
        var rest := FetchPolicies(cloudName, stores[1..], getStoragePolicies);
        Prepend(res.ziosStoragePolicies, [call], rest)
  }

  /** `f` preceded by policies `ps` gathered with calls `calls`; a failure discards `ps`. */
  function Prepend(ps: seq<ZiosStoragePolicy>, calls: seq<Call>, f: Fetch): Fetch
  {
    Fetch(if f.result.Failure? then f.result else Success(ps + f.result.value), calls + f.calls)
  }

  /** Prepending twice is prepending the joined prefixes. */
  lemma PrependTwice(ps: seq<ZiosStoragePolicy>, calls: seq<Call>, qs: seq<ZiosStoragePolicy>, more: seq<Call>, f: Fetch)
    ensures Prepend(ps, calls, Prepend(qs, more, f)) == Prepend(ps + qs, calls + more, f)
  {
    assert calls + (more + f.calls) == calls + more + f.calls;
    if f.result.Success? {
      assert ps + (qs + f.result.value) == ps + qs + f.result.value;
    }
  }

  /** The whole aggregation for one cloud. */
  function AllStoragePolicies(
    cloudName: string,
    getStores: string -> Result<ZiosResponse, Error>,
    getStoragePolicies: (string, int64) -> Result<ZiosStoragePoliciesResponse, Error>): Fetch
  {
    match getStores(cloudName)
    case Failure(e) => Fetch(Failure(GettingStoresError(e)), [GetStoresCall(cloudName)])
    case Success(res) => Prepend([], [GetStoresCall(cloudName)], FetchPolicies(cloudName, res.zioses, getStoragePolicies))
  }

  /** Client.GetAllStoragePolicies. `getStores` and `getStoragePolicies` are the embedded
      client's answers; `calls` records every call made on it. */
  method GetAllStoragePolicies(
    cloudName: string,
    getStores: string -> Result<ZiosResponse, Error>,
    getStoragePolicies: (string, int64) -> Result<ZiosStoragePoliciesResponse, Error>)
    returns (policies: Result<seq<ZiosStoragePolicy>, Error>, calls: seq<Call>)
    ensures Fetch(policies, calls) == AllStoragePolicies(cloudName, getStores, getStoragePolicies)
  {
    calls := [GetStoresCall(cloudName)];
    var storeRes := getStores(cloudName);
    if storeRes.Failure? {
      return Failure(GettingStoresError(storeRes.error)), calls;
    }
    var stores := storeRes.value.zioses;
    var acc: seq<ZiosStoragePolicy> := [];
    var i := 0;
    while i < |stores|
      invariant 0 <= i <= |stores|
      invariant AllStoragePolicies(cloudName, getStores, getStoragePolicies)
             == Prepend(acc, calls, FetchPolicies(cloudName, stores[i..], getStoragePolicies))
    {
      var store := stores[i];
      calls := calls + [GetStoragePoliciesCall(cloudName, store.id)];
      var policyRes := getStoragePolicies(cloudName, store.id);
      assert stores[i..][1..] == stores[i + 1..];
      if policyRes.Failure? {
        return Failure(GettingPoliciesError(policyRes.error)), calls;
      }
      PrependTwice(acc, calls[..|calls| - 1], policyRes.value.ziosStoragePolicies, [calls[|calls| - 1]],
                   FetchPolicies(cloudName, stores[i + 1..], getStoragePolicies));
      assert calls[..|calls| - 1] + [calls[|calls| - 1]] == calls;
      acc := acc + policyRes.value.ziosStoragePolicies;
      i := i + 1;
    }
    assert acc + [] == acc && calls + [] == calls;
    policies := Success(acc);
  }

  // ---------------------------------------------------------------------------
  // Independent descriptions of the aggregation, and the lemmas tying them to it

  /** The index of the first store whose policy fetch fails, or |stores| if none does. */
  function FirstFailingStore(
    cloudName: string, stores: seq<Zios>,
    getStoragePolicies: (string, int64) -> Result<ZiosStoragePoliciesResponse, Error>): (k: nat)
    ensures k <= |stores|
    ensures forall j :: 0 <= j < k ==> getStoragePolicies(cloudName, stores[j].id).Success?
    ensures k < |stores| ==> getStoragePolicies(cloudName, stores[k].id).Failure?
  {
    if stores == [] || getStoragePolicies(cloudName, stores[0].id).Failure? then 0
    else 1 + FirstFailingStore(cloudName, stores[1..], getStoragePolicies)
  }

  /** One GetStoragePolicies call per store, in order, with the same cloud name. */
  function PolicyCalls(cloudName: string, stores: seq<Zios>): (calls: seq<Call>)
    ensures |calls| == |stores|
    ensures forall j :: 0 <= j < |stores| ==> calls[j] == GetStoragePoliciesCall(cloudName, stores[j].id)
  {
    if stores == [] then [] else [GetStoragePoliciesCall(cloudName, stores[0].id)] + PolicyCalls(cloudName, stores[1..])
  }

  /** Each store's fetched policy list, for stores whose fetches all succeed. */
  function PolicyLists(
    cloudName: string, stores: seq<Zios>,
    getStoragePolicies: (string, int64) -> Result<ZiosStoragePoliciesResponse, Error>): (lists: seq<seq<ZiosStoragePolicy>>)
    requires forall j :: 0 <= j < |stores| ==> getStoragePolicies(cloudName, stores[j].id).Success?
    ensures |lists| == |stores|
    ensures forall j :: 0 <= j < |stores| ==>
      lists[j] == getStoragePolicies(cloudName, stores[j].id).value.ziosStoragePolicies
  {
    if stores == [] then []
    else [getStoragePolicies(cloudName, stores[0].id).value.ziosStoragePolicies]
         + PolicyLists(cloudName, stores[1..], getStoragePolicies)
  }

  /** The lists one after another. */
  function Concat<T>(lists: seq<seq<T>>): seq<T>
  {
    if lists == [] then [] else lists[0] + Concat(lists[1..])
  }

  /** The sum of the lists' lengths. */
  function TotalLength<T>(lists: seq<seq<T>>): nat
  {
    if lists == [] then 0 else |lists[0]| + TotalLength(lists[1..])
  }

  /** Concatenation keeps every element: its length is the sum of the lengths, and
      the element at offset m of list j sits after all earlier lists. */
  lemma {:induction false} ConcatLayout<T>(lists: seq<seq<T>>, j: nat, m: nat)
    requires j < |lists| && m < |lists[j]|
    ensures |Concat(lists)| == TotalLength(lists)
    ensures TotalLength(lists[..j]) + m < |Concat(lists)|
    ensures Concat(lists)[TotalLength(lists[..j]) + m] == lists[j][m]
  {
    ConcatLength(lists);
    if j == 0 {
      assert lists[..0] == [];
    } else {
      ConcatLayout(lists[1..], j - 1, m);
      assert lists[1..][..j - 1] == lists[1..j];
      assert lists[..j][1..] == lists[1..j];
    }
  }

  lemma {:induction false} ConcatLength<T>(lists: seq<seq<T>>)
    ensures |Concat(lists)| == TotalLength(lists)
  {
    if lists != [] {
      ConcatLength(lists[1..]);
    }
  }

  /** The fetch over the stores, described without recursion: it makes one call per
      store up to and including the first failing one; it succeeds iff no store
      fails, with the concatenation of the lists; otherwise it returns the first
      failure, wrapped, and no policies. */
  lemma {:induction false} FetchPoliciesCharacterised(
    cloudName: string, stores: seq<Zios>,
    getStoragePolicies: (string, int64) -> Result<ZiosStoragePoliciesResponse, Error>)
    ensures var f := FetchPolicies(cloudName, stores, getStoragePolicies);
            var k := FirstFailingStore(cloudName, stores, getStoragePolicies);
            && (f.result.Success? <==> k == |stores|)
            && (k == |stores| ==>
                  f.calls == PolicyCalls(cloudName, stores)
                  && f.result.value == Concat(PolicyLists(cloudName, stores, getStoragePolicies)))
            && (k < |stores| ==>
                  f.calls == PolicyCalls(cloudName, stores[..k + 1])
                  && f.result == Failure(GettingPoliciesError(getStoragePolicies(cloudName, stores[k].id).error)))
  {
    if stores != [] {
      var k := FirstFailingStore(cloudName, stores, getStoragePolicies);
      if getStoragePolicies(cloudName, stores[0].id).Success? {
        FetchPoliciesCharacterised(cloudName, stores[1..], getStoragePolicies);
        if k < |stores| {
          assert stores[1..][..k - 1 + 1] == stores[..k + 1][1..];
        }
      } else {
        assert stores[..1][1..] == [];
      }
    }
  }

  /** Client.GetAllStoragePolicies, end to end:
      - if listing the stores fails, the error is wrapped, no policies are returned
        and GetStoragePolicies is never called;
      - otherwise GetStoragePolicies is called once per store, in store order, with
        that store's ID and the same cloud name, up to and including the first store
        whose fetch fails;
      - the result is the concatenation of every store's list (its length the sum of
        the lengths) if no fetch fails, and no policies at all otherwise. */
  lemma AllStoragePoliciesCharacterised(
    cloudName: string,
    getStores: string -> Result<ZiosResponse, Error>,
    getStoragePolicies: (string, int64) -> Result<ZiosStoragePoliciesResponse, Error>)
    ensures var f := AllStoragePolicies(cloudName, getStores, getStoragePolicies);
            && (getStores(cloudName).Failure? ==>
                  f == Fetch(Failure(GettingStoresError(getStores(cloudName).error)), [GetStoresCall(cloudName)]))
            && (getStores(cloudName).Success? ==>
                  var stores := getStores(cloudName).value.zioses;
                  var k := FirstFailingStore(cloudName, stores, getStoragePolicies);
                  && (f.result.Success? <==> k == |stores|)
                  && (k == |stores| ==>
                        var lists := PolicyLists(cloudName, stores, getStoragePolicies);
                        && f.calls == [GetStoresCall(cloudName)] + PolicyCalls(cloudName, stores)
                        && f.result.value == Concat(lists)
                        && |f.result.value| == TotalLength(lists))
                  && (k < |stores| ==>
                        && f.calls == [GetStoresCall(cloudName)] + PolicyCalls(cloudName, stores[..k + 1])
                        && f.result == Failure(GettingPoliciesError(getStoragePolicies(cloudName, stores[k].id).error))))
  {
    if getStores(cloudName).Success? {
      var stores := getStores(cloudName).value.zioses;
      FetchPoliciesCharacterised(cloudName, stores, getStoragePolicies);
      if FirstFailingStore(cloudName, stores, getStoragePolicies) == |stores| {
        ConcatLength(PolicyLists(cloudName, stores, getStoragePolicies));
      }
    }
  }

  /** With no stores the result is an empty list, not an error, after one call. */
  lemma NoStores(
    cloudName: string,
    getStores: string -> Result<ZiosResponse, Error>,
    getStoragePolicies: (string, int64) -> Result<ZiosStoragePoliciesResponse, Error>)
    requires getStores(cloudName).Success? && getStores(cloudName).value.zioses == []
    ensures AllStoragePolicies(cloudName, getStores, getStoragePolicies)
         == Fetch(Success([]), [GetStoresCall(cloudName)])
  {
    var none: seq<ZiosStoragePolicy> := [];
    assert FetchPolicies(cloudName, [], getStoragePolicies) == Fetch(Success(none), []);
    assert none + none == none;
    assert [GetStoresCall(cloudName)] + [] == [GetStoresCall(cloudName)];
  }
}
