# zadara-exporter core, modelled in Dafny

The zadara-exporter publishes OpenTelemetry gauges about Zadara VPSA Object
Storage. A gauge callback walks the configured targets. For each target it
fetches the object stores ("zioses") and their storage policies from the
Command Centre API. It reports six gauges per store and eleven per policy, and
stops the whole callback at the first failure. A health handler asks every
target for its stores and answers 500 if any of them cannot be reached.

This project models that core and proves what it promises:

- `wrappers.dfy` holds `Option`/`Result` for Go's `(value, error)` pairs, one
  constructor per kind of error the code creates, the `Target` record, `int64`,
  and an opaque `Float64`.
- `paths.dfy` holds the part of Go's `path.Join`/`path.Clean` and
  `strconv.Itoa` that builds the request paths.
- `objectstorage.dfy` holds the VPSA Object Storage client: its records, its
  request paths, and how `GetStoragePolicies` and `GetStores` turn an HTTP
  exchange into a response or an error.
- `commandcenter.dfy` holds `Client.GetAllStoragePolicies`: list the stores,
  fetch each store's policies in order, concatenate, all or nothing. A
  specification function and lemmas describe the call log and the result.
- `metrics.dfy` holds the 17 gauges, observations with their attributes, and
  the `metric.Observer` as a class that records every observation in order.
- `observe.dfy` holds the callback as the source writes it:
  - methods `ObservePolicies`, `ObserveStore`, `ObserveStores` and
    `StorageMetricsObserve`, whose nested loops push into the Observer;
  - the trace functions they are proved against.
- `observe_properties.dfy` holds the lemmas about those traces: counts, layout,
  where a failing scrape stops, and the attributes.
- `health.dfy` holds `Handler.ServeHTTP` over a `ResponseWriter` class.

The source files do not agree on the aggregator's shape:

- `metrics/observe.go:53-64` calls `GetAllStoragePolicies(ctx)` with no cloud
  name. It consumes a list grouped by store (`StoreStoragePolicies`: a store
  and its policies). The test mock (`metrics/observe_test.go:29-41`) takes a
  cloud name but also returns the grouped list.
- `zadara/commandcenter/storagepolicies.go:11-32` and
  `metrics/metrics.go:21-26` declare a flat list of policies that takes a cloud
  name.

The model follows each file as written. `Observe` consumes the grouped records.
`CommandCenter` returns the flat concatenation. Each target's grouped answer is
an input of the callback (`newClient`).

The `cloud_name` attribute is the constant text `"cloudName"` for every target
(`metrics/observe.go:59`), not the target's cloud name. The model keeps that
constant, and `ObserveProperties.StoreAttrsKeys` states it.

## Model

| member | source | states |
|---|---|---|
| Paths.Split | zadara/commandcenter/vpsaobjectstorage/policies.go:72 | path.Clean's split of a path into slash-free segments, which join back to the path |
| Paths.CleanRooted | zadara/commandcenter/vpsaobjectstorage/policies.go:72 | path.Clean of a rooted path is again a rooted path |
| Paths.ResolveYieldsClean | zadara/commandcenter/vpsaobjectstorage/policies.go:72 | path.Clean's element processing leaves only clean elements: no empty element, no "." and no ".." |
| Paths.CleanIdempotent | zadara/commandcenter/vpsaobjectstorage/policies.go:72 | cleaning a rooted path twice equals cleaning it once |
| Paths.Join | zadara/commandcenter/vpsaobjectstorage/stores.go:75 | path.Join with a rooted first element yields a rooted path |
| Paths.CleanJoined | zadara/commandcenter/vpsaobjectstorage/policies.go:72 | path.Clean leaves a rooted path of clean segments (non-empty, no slash, not "." or "..") unchanged |
| Paths.JoinCleanElements | zadara/commandcenter/vpsaobjectstorage/stores.go:75 | path.Join of a rooted first element and clean segments is their plain slash-join |
| Paths.Itoa | zadara/commandcenter/vpsaobjectstorage/policies.go:72 | strconv.Itoa of any integer is one clean path segment |
| Paths.Digits | zadara/commandcenter/vpsaobjectstorage/policies.go:72 | the canonical decimal text of a natural number: non-empty, digits only, "0" for zero and no leading zero otherwise |
| Paths.DigitsRoundTrip | zadara/commandcenter/vpsaobjectstorage/policies.go:72 | the decimal digits written for a natural number read back as that number |
| ObjectStorage.StoragePoliciesPath | zadara/commandcenter/vpsaobjectstorage/policies.go:71-72 | for a clean cloud name the policies path is "/api/clouds/{cloud}/zioses/{id}/storage_policies.json" |
| ObjectStorage.StoresPath | zadara/commandcenter/vpsaobjectstorage/stores.go:73-76 | for a clean cloud name the stores path is "/api/clouds/{cloud}/zioses.json", with no page or per_page query |
| ObjectStorage.ClassifyStoragePolicies | zadara/commandcenter/vpsaobjectstorage/policies.go:74-98 | request and transport failures are errors; an undecodable body is a decode error whatever the status; a decoded body succeeds iff the status is 200 and its status field is not "error"; otherwise ErrResponse carries the body's message; success returns the decoded body unchanged |
| ObjectStorage.ClassifyStores | zadara/commandcenter/vpsaobjectstorage/stores.go:77-97 | request, transport and decode failures are errors; any decoded body is returned unchanged whatever the status code or status field; ErrResponse never arises |
| ObjectStorage.GetStoragePolicies | zadara/commandcenter/vpsaobjectstorage/policies.go:67-99 | for a clean cloud name, the outcome of one GET of BaseURL + the policies template, classified |
| ObjectStorage.GetStores | zadara/commandcenter/vpsaobjectstorage/stores.go:69-98 | for a clean cloud name, the outcome of one GET of BaseURL + the stores template, classified |
| ObjectStorage.StatusCheckIsTheOnlyDifference | zadara/commandcenter/vpsaobjectstorage/policies.go:94-96 | on the same reply, the policies call succeeds iff the stores call would and the status is 200 and the body's status is not "error" |
| CommandCenter.GetAllStoragePolicies | zadara/commandcenter/storagepolicies.go:11-32 | the loop's result and call log are those of the aggregation `AllStoragePolicies` |
| CommandCenter.FirstFailingStore | zadara/commandcenter/storagepolicies.go:22-26 | the first store whose policy fetch fails: every earlier fetch succeeds, and this one fails |
| CommandCenter.PolicyCalls | zadara/commandcenter/storagepolicies.go:22-23 | one GetStoragePolicies call per store, in store order, with that store's ID and the same cloud name |
| CommandCenter.PolicyLists | zadara/commandcenter/storagepolicies.go:23-28 | each store's fetched list of policies, in store order |
| CommandCenter.ConcatLayout | zadara/commandcenter/storagepolicies.go:28 | the concatenation keeps every element of every list, in order, after all earlier lists |
| CommandCenter.ConcatLength | zadara/commandcenter/storagepolicies.go:28 | the concatenation's length is the sum of the lists' lengths |
| CommandCenter.FetchPoliciesCharacterised | zadara/commandcenter/storagepolicies.go:20-31 | the store loop calls stores in order up to and including the first failing one; it succeeds iff none fails, with the concatenated lists; otherwise it returns that failure wrapped and no policies |
| CommandCenter.AllStoragePoliciesCharacterised | zadara/commandcenter/storagepolicies.go:15-31 | a failing GetStores returns its wrapped error after one call and no GetStoragePolicies call; otherwise the store loop as above, after the GetStores call |
| CommandCenter.NoStores | zadara/commandcenter/storagepolicies.go:20-31 | with no stores the result is an empty list, not an error |
| Metrics.Keys | metrics/observe.go:67-71 | the keys of an attribute list: every key present, and only those |
| Metrics.Lookup | metrics/observe.go:67-71 | a key has a value iff it is among the list's keys |
| Metrics.Observer.ObserveInt64 | metrics/observe.go:35-36 | an Int64 gauge observation is appended to the record of observations, and nothing else changes |
| Metrics.Observer.ObserveFloat64 | metrics/observe.go:30-34 | a Float64 gauge observation is appended to the record of observations, and nothing else changes |
| Observe.StoreObservationsPositional | metrics/observe.go:73-78 | store observation k reports store gauge k (accounts, users, containers, objects, drives, cache) with the field's value unchanged |
| Observe.PolicyObservationsPositional | metrics/observe.go:30-41 | policy observation k reports policy gauge k (drives added, ring %, free, used, health, rebalance, ring counts) with the field's value unchanged |
| Observe.PolicyTrace | metrics/observe.go:19-44 | observePolicies fails iff the drives-added text does not parse, reporting nothing and the parse error; otherwise it reports 11 observations |
| Observe.TargetTrace | metrics/observe.go:53-56 | a failed retrieval reports nothing and returns the error wrapped |
| Observe.ObservePolicies | metrics/observe.go:19-44 | the Observer's record grows by exactly the policy's trace, and the returned error is the trace's |
| Observe.ObserveStore | metrics/observe.go:62-94 | one store's loop body: the record grows by the store's six gauges then its policies, stopping at the first policy that fails |
| Observe.ObserveStores | metrics/observe.go:46-97 | the record grows by the target's trace, and the returned error is the trace's |
| Observe.StorageMetricsObserve | metrics/observe.go:105-117 | the record grows by the whole scrape's trace; the error is the trace's; clients are created for the targets in order, up to and including the first failing one and none after it |
| ObserveProperties.FirstFailureIsFirst | metrics/observe.go:108-113 | every step before the first failure succeeds, and that step fails |
| ObserveProperties.RunCharacterised | metrics/observe.go:108-113 | a fail-fast loop fails iff some step fails; all earlier output stays reported, followed by the failing step's own; with no failure it reports every step's output in order |
| ObserveProperties.PolicyTraceCases | metrics/observe.go:25-41 | when the drives-added text parses to v, observePolicies reports exactly eleven observations, observation k being policy gauge k with the value the gauge table reads from the policy (v for drives added) |
| ObserveProperties.PoliciesLayout | metrics/observe.go:81-93 | on success policy j's eleven observations sit at positions 11j..11j+10 in policy order, so a store's policies report 11 per policy |
| ObserveProperties.PoliciesAbort | metrics/observe.go:90-92 | on failure the loop stops at the first unparsable policy: earlier policies' 11 each stay reported, the error names that policy's text |
| ObserveProperties.SnapshotLayout | metrics/observe.go:62-93 | a store reports its six gauges first, then its policies, and fails iff a policy fails |
| ObserveProperties.TargetCount | metrics/observe.go:62-93 | on success a target reports 6 per store plus 11 per policy |
| ObserveProperties.OneStoreTwoPolicies | metrics/observe_test.go:115-231 | one store with two parsable policies reports 6 + 11 + 11 = 28 observations and no error |
| ObserveProperties.NoTargets | metrics/observe.go:108-115 | an empty target list reports nothing and succeeds |
| ObserveProperties.StoreAttrsKeys | metrics/observe.go:58-71 | store-level attributes have exactly the keys name, cloud_name and store_name, valued target name, "cloudName" and store name |
| ObserveProperties.PolicyAttrsKeys | metrics/observe.go:83-88 | policy-level attributes add policy_name with the policy's name to the store-level ones |
| ObserveProperties.StoreObservationsLabelled | metrics/observe.go:67-78 | each store observation has an integer value, the store-level keys, cloud_name "cloudName" and the target's name |
| ObserveProperties.PolicyObservationsTyped | metrics/observe.go:30-41 | each policy observation has the policy-level attributes and a value of its gauge's type |
| ObserveProperties.PolicyObservationsLabelled | metrics/observe.go:30-41 | each policy observation has the policy-level keys, cloud_name "cloudName" and the target's name |
| ObserveProperties.PoliciesLabelled | metrics/observe.go:81-93 | everything a store's policies report is labelled with the target's name |
| ObserveProperties.TargetLabelled | metrics/observe.go:58-94 | everything a target reports is well typed and has its level's key set, cloud_name "cloudName" and the target's name |
| ObserveProperties.ScrapeLabelled | metrics/observe.go:108-113 | everything the scrape reports is so labelled with the name of one of the targets |
| Health.ResponseWriter.WriteHeader | health/health.go:20 | each WriteHeader call (health.go:20, 45, 50) appends its status code to what was written, and nothing else changes |
| Health.Queries | health/health.go:27-31 | one GetStores call per target, in order, with that target's own cloud name |
| Health.ServeHTTP | health/health.go:16-51 | if loading fails, 500 is written and no target is checked; otherwise every target is checked in order, failures included, and one status is written: 500 if any check failed, else 200 |
| Health.AnyUnreachableIff | health/health.go:25-41 | the flag the loop computes is set iff some target's GetStores call fails |
| Health.OneFailureSuffices | health/health.go:39-48 | one failing target at any position makes the reply 500 |
| Health.AllReachable | health/health.go:43-50 | with every target reachable, including no targets, the reply is 200 |

## Left out

- HTTP transport, JSON decoding, request contexts and the deferred `Body.Close` are left out. An `Exchange` value says how far a request got and what its body decoded to. The logged body-close error does not change the result.
- `strconv.ParseFloat` is the parameter `parse`, a partial function from text to float. Float values are opaque bit patterns, because no IEEE arithmetic is done.
- Logging (`slog`) is left out: it has no effect on results.
- Instrument creation and registration (`metrics/metrics.go`, `metrics/exporter.go`) are left out. The 17 gauges are an enumeration. `metrics/metrics.go:15-18` declares only two of the seventeen that `metrics/observe.go` uses.
- `config.GetTargets` (viper) is the input `loaded`. `commandcenter.NewClient` and the client callback are inputs: `getStores` in `Health`, `newClient` in `Observe`.
- `newClient` in `Observe`, `getStores` and `getStoragePolicies` in `CommandCenter`, `getStores` in `Health` and `send` in `ObjectStorage` are pure functions of their arguments. A target listed twice, or a store ID that appears twice, therefore gets the same answer both times, where the network calls in Go can answer differently each time. No proved property depends on this.
- `commandCenter.go:44` reads `target.APIBaseURL`, which `config.Target` does not declare. `Client` is therefore just a base URL.
- The token transport (`token.go`), the HTTP server, the CLI and signal handling are process wiring, not modelled.
- Nil entries in the decoded Go slices are not modelled: the records are plain values.
- The Zios counters are Go `int`, but `ObserveInt64` takes an `int64` gauge value. The model types them `int64`, assuming 64-bit `int`.
- `Metrics.Observer.ObserveInt64` and `Metrics.Observer.ObserveFloat64` require the gauge kind their Go signatures impose statically.
- Observe.StorageMetricsObserve: Go returns the callback as a closure. The model is the callback itself, with the target list and client factory as parameters. It returns the number of clients created rather than the clients.
- Observe.ObserveStore: the body of `observeStores`' store loop is its own method, so each proof stays small. The order of calls on the Observer is unchanged.
- ObjectStorage.GetStoragePolicies and ObjectStorage.GetStores: the URL is stated only for cloud names that are one clean path segment. For other names the model still applies `path.Join`'s cleaning but states no template.
- `Paths` models `path.Join` only with a rooted first element, which is the only way the client calls it.
