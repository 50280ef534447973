/** The VPSA Object Storage API client: the records its two GET operations decode,
    the request paths they build, and how each turns the outcome of the exchange
    into a response or an error. HTTP transport and JSON decoding are inputs:
    an `Exchange` says how far the request got and what the body decoded to. */
module ObjectStorage {
  import opened Wrappers
  import opened Errors
  import opened Numbers
  import Paths

  datatype RingBalance = RingBalance(
    normalPercentage: Float64,
    degradedPercentage: Float64,
    criticalPercentage: Float64,
    normalCount: int64,
    degradedCount: int64,
    criticalCount: int64)

  /** A storage policy, reduced to the fields the exporter reads. */
  datatype ZiosStoragePolicy = ZiosStoragePolicy(
    id: int64,
    name: string,
    rebalancePercentage: Float64,
    percentageDrivesAdded: string,   // sent as text by the API
    healthPercentage: Float64,
    ringBalance: RingBalance,
    usedCapacity: int64,
    freeCapacity: int64)

  datatype ZiosStoragePoliciesResponse = ZiosStoragePoliciesResponse(
    status: string,
    message: string,
    ziosStoragePolicies: seq<ZiosStoragePolicy>,
    count: int64)

  /** An object store ("zios"), reduced to the fields the exporter reads. */
  datatype Zios = Zios(
    id: int64,
    name: string,
    drives: int64,
    cache: int64,
    accountsCount: int64,
    usersCount: int64,
    containersCount: int64,
    objectsCount: int64)

  datatype ZiosResponse = ZiosResponse(status: string, zioses: seq<Zios>, count: int64)

  /** How far one GET got: the request could not be built, it could not be sent,
      or a reply came back with a status code and a body that did or did not decode. */
  datatype Exchange<T> =
    | RequestFailed
    | TransportFailed
    | Received(statusCode: int, decoded: Option<T>)

  const StatusOK: int := 200

  datatype Client = Client(baseURL: string)

  /** path.Join("/api/clouds", cloudName, "zioses", strconv.Itoa(ziosID), "storage_policies.json").
      For a cloud name that is one clean path segment this is the template with the
      name and the decimal id filled in. */
  function StoragePoliciesPath(cloudName: string, ziosID: int64): (p: string)
    ensures Paths.CleanSegment(cloudName) ==>
      p == "/api/clouds/" + cloudName + "/zioses/" + Paths.Itoa(ziosID as int) + "/storage_policies.json"
  {
    var id := Paths.Itoa(ziosID as int);
    var p := Paths.Join(["/api/clouds", cloudName, "zioses", id, "storage_policies.json"]);
    if Paths.CleanSegment(cloudName) then
      StoragePoliciesPathJoined(cloudName, id);
      StoragePoliciesText(cloudName, id);
      p
    else
      p
  }

  /** path.Join("/api/clouds", cloudName, "zioses.json"). For a cloud name that is one
      clean path segment this is the template with the name filled in. */
  function StoresPath(cloudName: string): (p: string)
    ensures Paths.CleanSegment(cloudName) ==> p == "/api/clouds/" + cloudName + "/zioses.json"
  {
    var p := Paths.Join(["/api/clouds", cloudName, "zioses.json"]);
    if Paths.CleanSegment(cloudName) then
      StoresPathJoined(cloudName);
      StoresText(cloudName);
      p
    else
      p
  }

  /** The root element "/api/clouds" is a slash before two clean segments. */
  lemma ApiCloudsRoot()
    ensures "/api/clouds" == "/" + Paths.JoinWith(["api", "clouds"])
    ensures forall k :: 0 <= k < 2 ==> Paths.CleanSegment(["api", "clouds"][k])
  {
    Paths.JoinWithCons("api", ["clouds"]);
    assert ["api"] + ["clouds"] == ["api", "clouds"];
  }

  /** path.Join leaves the policies path as its elements joined by slashes. */
  lemma StoragePoliciesPathJoined(cloudName: string, id: string)
    requires Paths.CleanSegment(cloudName) && Paths.CleanSegment(id)
    ensures Paths.Join(["/api/clouds", cloudName, "zioses", id, "storage_policies.json"])
         == "/api/clouds" + "/" + Paths.JoinWith([cloudName, "zioses", id, "storage_policies.json"])
  {
    var rest := [cloudName, "zioses", id, "storage_policies.json"];
    assert forall k :: 0 <= k < |rest| ==> Paths.CleanSegment(rest[k]);
    ApiCloudsRoot();
    Paths.JoinUnderRoot("/api/clouds", ["api", "clouds"], rest);
    assert ["/api/clouds", cloudName, "zioses", id, "storage_policies.json"] == ["/api/clouds"] + rest;
  }

  /** The policies path's segments after the root, joined. */
  lemma StoragePoliciesText(cloudName: string, id: string)
    ensures "/api/clouds" + "/" + Paths.JoinWith([cloudName, "zioses", id, "storage_policies.json"])
         == "/api/clouds/" + cloudName + "/zioses/" + id + "/storage_policies.json"
  {
    var t3 := id + "/storage_policies.json";
    var t2 := "zioses/" + t3;
    var t1 := cloudName + "/" + t2;
    Paths.JoinWithCons(id, ["storage_policies.json"]);
    assert [id] + ["storage_policies.json"] == [id, "storage_policies.json"];
    assert Paths.JoinWith([id, "storage_policies.json"]) == t3;
    Paths.JoinWithCons("zioses", [id, "storage_policies.json"]);
    assert ["zioses"] + [id, "storage_policies.json"] == ["zioses", id, "storage_policies.json"];
    assert Paths.JoinWith(["zioses", id, "storage_policies.json"]) == t2;
    Paths.JoinWithCons(cloudName, ["zioses", id, "storage_policies.json"]);
    assert [cloudName] + ["zioses", id, "storage_policies.json"] == [cloudName, "zioses", id, "storage_policies.json"];
    assert Paths.JoinWith([cloudName, "zioses", id, "storage_policies.json"]) == t1;
    assert "/api/clouds" + "/" + t1 == "/api/clouds/" + cloudName + "/zioses/" + id + "/storage_policies.json";
  }

  /** path.Join leaves the stores path as its elements joined by slashes. */
  lemma StoresPathJoined(cloudName: string)
    requires Paths.CleanSegment(cloudName)
    ensures Paths.Join(["/api/clouds", cloudName, "zioses.json"])
         == "/api/clouds" + "/" + Paths.JoinWith([cloudName, "zioses.json"])
  {
    var rest := [cloudName, "zioses.json"];
    assert forall k :: 0 <= k < |rest| ==> Paths.CleanSegment(rest[k]);
    ApiCloudsRoot();
    Paths.JoinUnderRoot("/api/clouds", ["api", "clouds"], rest);
    assert ["/api/clouds", cloudName, "zioses.json"] == ["/api/clouds"] + rest;
  }

  /** The stores path's segments after the root, joined. */
  lemma StoresText(cloudName: string)
    ensures "/api/clouds" + "/" + Paths.JoinWith([cloudName, "zioses.json"])
         == "/api/clouds/" + cloudName + "/zioses.json"
  {
    Paths.JoinWithCons(cloudName, ["zioses.json"]);
    assert [cloudName] + ["zioses.json"] == [cloudName, "zioses.json"];
    assert "/api/clouds" + "/" + (cloudName + "/" + "zioses.json") == "/api/clouds/" + cloudName + "/zioses.json";
  }

  /** The outcome cascade of GetStoragePolicies: request, transport, decoding, and
      only then the status code and the body's own status. */
  function ClassifyStoragePolicies(x: Exchange<ZiosStoragePoliciesResponse>): (r: Result<ZiosStoragePoliciesResponse, Error>)
    ensures x.RequestFailed? ==> r == Failure(RequestError)
    ensures x.TransportFailed? ==> r == Failure(TransportError)
    // a body that does not decode is a decode error whatever the status code
    ensures x.Received? && x.decoded.None? ==> r == Failure(DecodeError)
    ensures x.Received? && x.decoded.Some? ==>
      (r.Success? <==> x.statusCode == StatusOK && x.decoded.value.status != "error")
    ensures x.Received? && x.decoded.Some? && r.Failure? ==> r.error == ResponseError(x.decoded.value.message)
    ensures r.Success? ==> x.Received? && r == Success(x.decoded.value)
  {
    match x
    case RequestFailed => Failure(RequestError)
    case TransportFailed => Failure(TransportError)
    case Received(code, None) => Failure(DecodeError)
    case Received(code, Some(resp)) =>
      if code != StatusOK || resp.status == "error" then Failure(ResponseError(resp.message))
      else Success(resp)
  }

  /** The outcome cascade of GetStores: request, transport and decoding; no status check. */
  function ClassifyStores(x: Exchange<ZiosResponse>): (r: Result<ZiosResponse, Error>)
    ensures x.RequestFailed? ==> r == Failure(RequestError)
    ensures x.TransportFailed? ==> r == Failure(TransportError)
    ensures x.Received? && x.decoded.None? ==> r == Failure(DecodeError)
    // any decoded body is the answer, whatever its status code or status field
    ensures x.Received? && x.decoded.Some? ==> r == Success(x.decoded.value)
    ensures r.Failure? ==> !r.error.ResponseError?
  {
    match x
    case RequestFailed => Failure(RequestError)
    case TransportFailed => Failure(TransportError)
    case Received(_, None) => Failure(DecodeError)
    case Received(_, Some(resp)) => Success(resp)
  }

  /** GetStoragePolicies: one GET of the policies URL, classified. `send` gives the
      outcome of a GET of a URL. */
  function GetStoragePolicies(
    c: Client, cloudName: string, ziosID: int64,
    send: string -> Exchange<ZiosStoragePoliciesResponse>): (r: Result<ZiosStoragePoliciesResponse, Error>)
    ensures Paths.CleanSegment(cloudName) ==>
      r == ClassifyStoragePolicies(send(c.baseURL + ("/api/clouds/" + cloudName + "/zioses/"
                                        + Paths.Itoa(ziosID as int) + "/storage_policies.json")))
  {
    ClassifyStoragePolicies(send(c.baseURL + StoragePoliciesPath(cloudName, ziosID)))
  }

  /** GetStores: one GET of the stores URL (no page or per_page query), classified. */
  function GetStores(c: Client, cloudName: string, send: string -> Exchange<ZiosResponse>): (r: Result<ZiosResponse, Error>)
    ensures Paths.CleanSegment(cloudName) ==>
      r == ClassifyStores(send(c.baseURL + ("/api/clouds/" + cloudName + "/zioses.json")))
  {
    ClassifyStores(send(c.baseURL + StoresPath(cloudName)))
  }

  /** The only difference between the two cascades is the status check: on the same
      reply, GetStoragePolicies fails exactly where GetStores would have succeeded
      and the status code is not 200 or the body says "error". */
  lemma StatusCheckIsTheOnlyDifference(code: int, body: Option<ZiosStoragePoliciesResponse>, other: Option<ZiosResponse>)
    requires body.Some? <==> other.Some?
    ensures ClassifyStoragePolicies(Received(code, body)).Success? <==>
            ClassifyStores(Received(code, other)).Success? && code == StatusOK && body.value.status != "error"
  {
  }
}
