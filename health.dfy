/** The health-check handler: load the targets, ask every target for its stores,
    and answer 500 if loading failed or any target could not be reached, 200
    otherwise. Unlike the scrape it does not stop at the first failure. */
module Health {
  import opened Wrappers
  import opened Errors
  import opened Config
  import opened ObjectStorage

  const StatusInternalServerError: int := 500

  /** The http.ResponseWriter: the status codes written to it, in order. */
  class ResponseWriter {
    var written: seq<int>

    constructor ()
      ensures written == []
    {
      written := [];
    }

    method WriteHeader(statusCode: int)
      modifies this
      ensures written == old(written) + [statusCode]
    {
      written := written + [statusCode];
    }
  }

  /** Whether some target's GetStores call, made with its own cloud name, fails. */
  predicate AnyUnreachable(targets: seq<Target>, getStores: (Target, string) -> Result<ZiosResponse, Error>)
  {
    targets != [] &&
    (getStores(targets[0], targets[0].cloudName).Failure? || AnyUnreachable(targets[1..], getStores))
  }

  /** The GetStores calls made for `targets`: one per target, in order, with its cloud name. */
  function Queries(targets: seq<Target>): (qs: seq<(Target, string)>)
    ensures |qs| == |targets|
    ensures forall i :: 0 <= i < |targets| ==> qs[i] == (targets[i], targets[i].cloudName)
  {
    if targets == [] then [] else [(targets[0], targets[0].cloudName)] + Queries(targets[1..])
  }

  /** Handler.ServeHTTP. `loaded` is what config.GetTargets returned (its failure is
      `TargetsError`, "could not unmarshal targets"); `getStores`
      answers the client made for a target, queried with a cloud name. `checked`
      lists the GetStores calls made. */
  method ServeHTTP(
    w: ResponseWriter,
    loaded: Result<seq<Target>, Error>,
    getStores: (Target, string) -> Result<ZiosResponse, Error>)
    returns (checked: seq<(Target, string)>)
    modifies w
    ensures loaded.Failure? ==> checked == [] && w.written == old(w.written) + [StatusInternalServerError]
    ensures loaded.Success? ==> checked == Queries(loaded.value)
    ensures loaded.Success? ==>
      w.written == old(w.written)
                   + [if AnyUnreachable(loaded.value, getStores) then StatusInternalServerError else StatusOK]
  {
    if loaded.Failure? {
      w.WriteHeader(StatusInternalServerError);
      return [];
    }
    var targets := loaded.value;
    var couldNotConnect := false;
    checked := [];
    var i := 0;
    while i < |targets|
      invariant 0 <= i <= |targets|
      invariant checked + Queries(targets[i..]) == Queries(targets)
      invariant AnyUnreachable(targets, getStores) <==> couldNotConnect || AnyUnreachable(targets[i..], getStores)
      invariant w.written == old(w.written)
    {
      var target := targets[i];
      assert targets[i..][1..] == targets[i + 1..];
      var result := getStores(target, target.cloudName);
      checked := checked + [(target, target.cloudName)];
      if result.Failure? {
        couldNotConnect := true;
      }
      i := i + 1;
    }
    assert targets[i..] == [];
    assert checked + [] == checked;
    if couldNotConnect {
      w.WriteHeader(StatusInternalServerError);
      return;
    }
    w.WriteHeader(StatusOK);
  }

  /** Some target is unreachable exactly when one of the GetStores calls fails. */
  lemma {:induction false} AnyUnreachableIff(targets: seq<Target>, getStores: (Target, string) -> Result<ZiosResponse, Error>)
    ensures AnyUnreachable(targets, getStores)
        <==> exists i :: 0 <= i < |targets| && getStores(targets[i], targets[i].cloudName).Failure?
    decreases |targets|
  {
    if targets != [] {
      AnyUnreachableIff(targets[1..], getStores);
      if exists i :: 0 <= i < |targets| && getStores(targets[i], targets[i].cloudName).Failure? {
        var i :| 0 <= i < |targets| && getStores(targets[i], targets[i].cloudName).Failure?;
        if i > 0 {
          assert targets[1..][i - 1] == targets[i];
        }
      }
      if AnyUnreachable(targets[1..], getStores) {
        var i :| 0 <= i < |targets[1..]| && getStores(targets[1..][i], targets[1..][i].cloudName).Failure?;
        assert targets[1..][i] == targets[i + 1];
      }
    }
  }

  /** A failure makes the verdict 500 whatever the other targets answer, and so
      does a failure at any position: no target is skipped. */
  lemma OneFailureSuffices(
    targets: seq<Target>, i: nat,
    getStores: (Target, string) -> Result<ZiosResponse, Error>)
    requires i < |targets| && getStores(targets[i], targets[i].cloudName).Failure?
    ensures AnyUnreachable(targets, getStores)
  {
    AnyUnreachableIff(targets, getStores);
  }

  /** With every target reachable, including the case of no targets, the verdict is 200. */
  lemma AllReachable(targets: seq<Target>, getStores: (Target, string) -> Result<ZiosResponse, Error>)
    requires forall i :: 0 <= i < |targets| ==> getStores(targets[i], targets[i].cloudName).Success?
    ensures !AnyUnreachable(targets, getStores)
  {
    AnyUnreachableIff(targets, getStores);
  }
}
