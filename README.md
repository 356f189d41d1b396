# F8Framework asset manager, modelled in Dafny

This project models `AssetManager`, the asset resolver and load orchestrator of the
F8Framework Unity framework. The orchestrator stands between game code and two stores,
`ResourcesManager` and `AssetBundleManager`. It turns an asset name into a location
descriptor (`AssetInfo`) and gates every entry point on `IsLegal`. It then drives one
store in one of three disciplines: blocking, callback or coroutine. It also loads whole
directories, forwards unloads to every origin whose lookup is legal, and combines the
stores' progress values into one number.

Modules, in dependency order:

- `Wrappers`: `Option`, which models C# `null`.
- `Descriptor`: the `AssetInfo` record, its constructor and `IsLegal`.
- `Resolver`:
  - the access-mode flags (`bv32`, as in the `[Flags]` enum);
  - the two name→location tables;
  - `GetAssetInfo`, `GetAssetInfoFromResource` and `GetAssetInfoFromAssetBundle`, as pure functions.
- `PathKeys`: the keys a directory entry yields (sub-asset name, lower-cased container name, container path) and the count of non-empty entries.
- `Progress`: the running minimum of `GetLoadProgress` and the aggregate it computes.
- `Stores`: both stores as one class of abstract state:
  - resident Resources objects;
  - container loaders with a content flag and dependency counters;
  - extractable and packed objects;
  - the asynchronous operations in flight;
  - a ghost trace of the calls the orchestrator makes on the stores.
- `Steps`: single steps of the pipeline, with the as-written and the corrected versions side by side (see "Findings").
- `DirLoads`: what one pass of a directory load does to the bundle store, as a function over the entries.
- `Unloads`: what `Unload` and `UnloadAsync` reach for a name.
- `Completion`: the callback books. Every asynchronous request gets an identity. The invariant `Consistent` says what each request is owed. A single load gets exactly one callback. A directory load gets one callback after all its entries. An asynchronous unload gets one callback per container.
- `Manager`: class `AssetManager`, one method per operation of the source.

The typed overloads (`Load<T>`, ...) and the untyped ones differ only in the requested
type, which is passed here as a `Kind`. There is one real difference in behaviour. The
typed `LoadAsync<T>` also distrusts a loader whose dependencies are incomplete, and the
untyped overloads check only its content. The model carries this as the
`checkDependencies` argument of `LoadAsync`.

Asynchronous behaviour is modelled as follows:

- A store's continuation is a `PendingOp` kept in `Stores.pending`.
- `AssetManager.CompletePending(i)` is the store finishing operation `i` and running the continuation registered with it.
- Coroutines are modelled as the sequence of values they yield. A nested store coroutine is taken to run to its end before the next value is yielded.

## Model

| member | source | states |
|---|---|---|
| Descriptor.MakeInfo | Assets/F8Framework-main/Runtime/AssetManager/AssetManager.cs:38-48 | the constructor keeps type, paths and `AbName` as given and sets the container path to exactly prefix followed by `abName`, never null |
| Descriptor.Concat | Assets/F8Framework-main/Runtime/AssetManager/AssetManager.cs:46 | C# string `+` with null operands: the result is the first operand (or "") followed by the second (or "") |
| Descriptor.IllegalIff | Assets/F8Framework-main/Runtime/AssetManager/AssetManager.cs:90-104 | `IsLegal` is false exactly when the type is NONE, or RESOURCE with null paths, or ASSET_BUNDLE with null paths or null container path |
| Descriptor.UnresolvedIsIllegal | Assets/F8Framework-main/Runtime/AssetManager/AssetManager.cs:90-93 | the default `new AssetInfo()` is never legal |
| Descriptor.ConstructedLegalIff | Assets/F8Framework-main/Runtime/AssetManager/AssetManager.cs:38-48 | a constructed descriptor is legal iff its type is not NONE and its path array is not null (the container-path test cannot fail) |
| Resolver.FromResource | Assets/F8Framework-main/Runtime/AssetManager/AssetManager.cs:913-925 | legal iff the name is in the Resources table; a hit is a RESOURCE descriptor with the one-element path list of the mapped key; a miss is the default struct |
| Resolver.FromAssetBundle | Assets/F8Framework-main/Runtime/AssetManager/AssetManager.cs:927-946 | a hit copies the mapping and prefixes the container name with the remote path iff `remote` or ForceRemote is set, the local prefix otherwise; a miss is the default struct; legal iff the name is mapped with a non-null path list |
| Resolver.GetAssetInfo | Assets/F8Framework-main/Runtime/AssetManager/AssetManager.cs:112-161 | a RESOURCE result is legal and holds the mapped key; a bundle result names a mapped asset; unless only the ASSET_BUNDLE branch can be taken, the result is legal or the default struct |
| Resolver.ForceRemoteIgnoresMode | Assets/F8Framework-main/Runtime/AssetManager/AssetManager.cs:115-118 | with ForceRemote set, the result is the one for REMOTE_ASSET_BUNDLE, whatever the mode |
| Resolver.ForceRemoteResolvesRemoteBundle | Assets/F8Framework-main/Runtime/AssetManager/AssetManager.cs:115-159 | with ForceRemote set, the result is the default struct or a legal bundle descriptor on the remote path |
| Resolver.ResourceFlagFirst | Assets/F8Framework-main/Runtime/AssetManager/AssetManager.cs:120-123 | the RESOURCE bit wins over every other bit |
| Resolver.BundleFlagSecond | Assets/F8Framework-main/Runtime/AssetManager/AssetManager.cs:124-127 | without RESOURCE, the ASSET_BUNDLE bit selects the local bundle lookup |
| Resolver.UnknownPrefersBundle | Assets/F8Framework-main/Runtime/AssetManager/AssetManager.cs:128-145 | under UNKNOWN, a usable bundle mapping wins even if the Resources table has the name too |
| Resolver.UnknownFallsBackToResource | Assets/F8Framework-main/Runtime/AssetManager/AssetManager.cs:128-145 | under UNKNOWN, a name without a usable bundle mapping but in the Resources table resolves to RESOURCE |
| Resolver.UnknownNeitherUnresolved | Assets/F8Framework-main/Runtime/AssetManager/AssetManager.cs:128-145 | under UNKNOWN, a name in neither table yields the default struct |
| Resolver.RemoteFlagLast | Assets/F8Framework-main/Runtime/AssetManager/AssetManager.cs:146-159 | REMOTE_ASSET_BUNDLE is consulted only without the other three bits, and filters the remote lookup through `IsLegal` |
| Resolver.NoTestedFlagUnresolved | Assets/F8Framework-main/Runtime/AssetManager/AssetManager.cs:160 | a mode with none of the four tested bits (NONE) yields the default struct |
| Resolver.ExplicitBundleMayBeIllegal | Assets/F8Framework-main/Runtime/AssetManager/AssetManager.cs:124-127 | the explicit ASSET_BUNDLE branch is not filtered: a mapping with null paths yields an illegal descriptor that is not the default struct |
| PathKeys.EntryOf | Assets/F8Framework-main/Runtime/AssetManager/AssetManager.cs:383-385 | an entry's container name is its lower-cased sub-asset name, and its container path is the local prefix of the sub-name followed by that container name |
| PathKeys.ToLower | Assets/F8Framework-main/Runtime/AssetManager/AssetManager.cs:384 | lower-casing keeps the length, maps each character and leaves no upper-case ASCII letter |
| PathKeys.ToLowerIdempotent | Assets/F8Framework-main/Runtime/AssetManager/AssetManager.cs:384 | lower-casing an already lower-cased container name changes nothing |
| PathKeys.NonEmptyCountAll | Assets/F8Framework-main/Runtime/AssetManager/AssetManager.cs:664-667 | every entry counts (none is skipped by `IsNullOrEmpty`) exactly when no entry is empty |
| PathKeys.NonEmptyCountPrefix | Assets/F8Framework-main/Runtime/AssetManager/AssetManager.cs:661-700 | a prefix of the entries has no more non-empty entries than the whole list |
| Steps.AsWrittenLoadFaultsAfterFailedOpen | Assets/F8Framework-main/Runtime/AssetManager/AssetManager.cs:335-345 | as written, `Load` after an open that found no container file still has no loader and dereferences null at `ab.Expand()`; the corrected tail gives null |
| Steps.ExtractOrExpand | Assets/F8Framework-main/Runtime/AssetManager/AssetManager.cs:190-204 | cache first: an object already extractable is returned without expanding; where the as-written step does not throw it returns the same object; without a loader the result is null; any object returned is of the requested type and comes from the container |
| Steps.AsWrittenFaultsWithoutLoader | Assets/F8Framework-main/Runtime/AssetManager/AssetManager.cs:195-196 | as written, a miss on a container with no loader dereferences null |
| Steps.DirEntryExpands | Assets/F8Framework-main/Runtime/AssetManager/AssetManager.cs:684-694 | the corrected test expands exactly when the entry's own container lacks the object |
| Steps.AsWrittenDirEntryExpandsNeedlessly | Assets/F8Framework-main/Runtime/AssetManager/AssetManager.cs:684-694 | as written, the extraction is addressed to the bare prefix, so an object that is already extracted still triggers `Expand` |
| Steps.EndsAfterCount | Assets/F8Framework-main/Runtime/AssetManager/AssetManager.cs:676 | how often `if (++assetCount >= target) End();` fires over a number of increments |
| Steps.AsWrittenDirLoadNeverCompletes | Assets/F8Framework-main/Runtime/AssetManager/AssetManager.cs:661-700 | as written, an empty entry or an empty list means the directory callback never fires |
| Steps.AsWrittenDirLoadWithoutGaps | Assets/F8Framework-main/Runtime/AssetManager/AssetManager.cs:661-700 | as written, a non-empty list without empty entries gets its callback exactly once |
| Steps.DirLoadCompletesOnce | Assets/F8Framework-main/Runtime/AssetManager/AssetManager.cs:661-700 | with the counter compared against the number of non-empty entries (and an empty list completing at once), the counting rule fires exactly once for every list |
| DirLoads.DirStepFrame | Assets/F8Framework-main/Runtime/AssetManager/AssetManager.cs:677-697 | one entry's step touches only that entry's container |
| DirLoads.DirStepShift | Assets/F8Framework-main/Runtime/AssetManager/AssetManager.cs:677-697 | a step depends on the earlier state only through the loaders, and appends to the started list and the calls |
| DirLoads.DirPassStep | Assets/F8Framework-main/Runtime/AssetManager/AssetManager.cs:662-699 | the pass over one more entry skips an empty entry and otherwise takes one step |
| DirLoads.DirPassStartedBound | Assets/F8Framework-main/Runtime/AssetManager/AssetManager.cs:662-699 | each non-empty entry starts at most one container load |
| DirLoads.DirPassFrame | Assets/F8Framework-main/Runtime/AssetManager/AssetManager.cs:662-699 | a container no entry names is left alone |
| DirLoads.DirStepKeepsReady | Assets/F8Framework-main/Runtime/AssetManager/AssetManager.cs:377-392 | a step of the blocking or step-wise walk never makes a ready container unready |
| DirLoads.DirPassOpensEveryEntry | Assets/F8Framework-main/Runtime/AssetManager/AssetManager.cs:377-392 | after `LoadDir` (or the coroutine), the container of every non-empty entry that exists is ready |
| DirLoads.DirPassCallbackReadiness | Assets/F8Framework-main/Runtime/AssetManager/AssetManager.cs:662-699 | the callback walk changes no container's readiness; it only starts opens and expands |
| DirLoads.DirPassCallbackNothingStarted | Assets/F8Framework-main/Runtime/AssetManager/AssetManager.cs:671-697 | the callback walk starts no open exactly when every non-empty entry's container is ready, dependencies included |
| DirLoads.DirPassBlockingCacheFirst | Assets/F8Framework-main/Runtime/AssetManager/AssetManager.cs:386-391 | `LoadDir` over containers that are all loaded with content changes nothing and calls nothing |
| Unloads.UnloadTargets | Assets/F8Framework-main/Runtime/AssetManager/AssetManager.cs:963-972 | the containers `Unload` reaches: for a name mapped with a path list, the local (or forced remote) container and then the remote one; otherwise none |
| Unloads.UnloadTargetsLegal | Assets/F8Framework-main/Runtime/AssetManager/AssetManager.cs:963-972 | the local and the remote bundle lookup are legal together, exactly when there are targets, and the targets are their two container paths |
| Unloads.ForceRemoteUnloadsTwice | Assets/F8Framework-main/Runtime/AssetManager/AssetManager.cs:963-972 | with ForceRemote set, both lookups name the same remote container |
| Unloads.UnloadCoversResolved | Assets/F8Framework-main/Runtime/AssetManager/AssetManager.cs:963-977 | whatever a load resolved, in any mode, `Unload` reaches it: a legal bundle descriptor's container is a target, and a Resources descriptor's key is the one released |
| Progress.MinStep | Assets/F8Framework-main/Runtime/AssetManager/AssetManager.cs:1044-1047 | one `Mathf.Min` step: never increases, and takes the value exactly when it is active (> -1) and smaller |
| Progress.Finish | Assets/F8Framework-main/Runtime/AssetManager/AssetManager.cs:1062-1065 | a result of 2 or more becomes 0; any other is kept |
| Progress.Fold | Assets/F8Framework-main/Runtime/AssetManager/AssetManager.cs:1021-1060 | the running minimum from 2.1 is at most every active value, and is 2.1 or one of them |
| Progress.FoldAggregates | Assets/F8Framework-main/Runtime/AssetManager/AssetManager.cs:1021-1067 | the fold followed by the closing step is the aggregate: 0 if no active value is below 2, otherwise the least active value |
| Progress.AggregateOfTwo | Assets/F8Framework-main/Runtime/AssetManager/AssetManager.cs:1076-1100 | the two-value fold of the overall progress, with its closing step, is the aggregate of the two values |
| Progress.AggregateOfThree | Assets/F8Framework-main/Runtime/AssetManager/AssetManager.cs:1015-1068 | the three-value fold of the per-name progress, with its closing step, is the aggregate of the three values |
| Progress.AggregateUnique | Assets/F8Framework-main/Runtime/AssetManager/AssetManager.cs:1021-1067 | the aggregate is determined by the values |
| Progress.AggregateInUnitRange | Assets/F8Framework-main/Runtime/AssetManager/AssetManager.cs:1021-1067 | with every value in [0,1] or -1, the result lies in [0,1] |
| Progress.NoActiveLoadIsZero | Assets/F8Framework-main/Runtime/AssetManager/AssetManager.cs:1062-1065 | with no store tracking a load, the result is 0 |
| Manager.DirLoadSettlesOnce | Assets/F8Framework-main/Runtime/AssetManager/AssetManager.cs:661-700 | a bundle directory owed its non-empty entry count has, once nothing of it is pending, had its callback exactly `DirCallbacks` times, which is once |
| Completion.NeverTwice | Assets/F8Framework-main/Runtime/AssetManager/AssetManager.cs:562-565 | in every consistent state, a single or directory load has had its callback at most once, an unload at most once per container, and a Resources directory never |
| Completion.SettledExactlyOnce | Assets/F8Framework-main/Runtime/AssetManager/AssetManager.cs:562-565 | once nothing of a request is pending, a single or directory load has had its callback exactly once, and an unload once per container |
| Completion.Deliver | Assets/F8Framework-main/Runtime/AssetManager/AssetManager.cs:545-547 | a finished single load or unload invoking its callback keeps the books consistent |
| Completion.CountFinished | Assets/F8Framework-main/Runtime/AssetManager/AssetManager.cs:673-680 | a finished open of a directory entry counts once, and fires the callback when the count reaches the target, keeping the books consistent |
| Completion.StartUnloads | Assets/F8Framework-main/Runtime/AssetManager/AssetManager.cs:996-1005 | a new asynchronous unload is owed one callback per container it registers, and the books stay consistent |
| Manager.AssetManager.GetAssetObject | Assets/F8Framework-main/Runtime/AssetManager/AssetManager.cs:170-206 | never opens a container and registers nothing; NONE gives null with no store call; RESOURCE gives the resident object; a bundle gives extract, then `Expand` and extract again only on a miss with a loader |
| Manager.AssetManager.Load | Assets/F8Framework-main/Runtime/AssetManager/AssetManager.cs:303-350 | illegal: null and no store call; RESOURCE: a resident object without loading, otherwise one Resources load; bundle: opens only when the loader is missing or has no content, extracts, and expands only after a failed extraction |
| Manager.AssetManager.LoadAsync | Assets/F8Framework-main/Runtime/AssetManager/AssetManager.cs:510-569 | illegal: the callback runs at once with null and no store call; a resident or ready object is delivered at once without a store load; otherwise exactly one continuation is registered; in every case the callback is owed exactly once and the books stay consistent |
| Manager.AssetManager.CompletePending | Assets/F8Framework-main/Runtime/AssetManager/AssetManager.cs:545-547 | the store finishing one pending operation: the waiting load's extraction (no expansion), the directory entry's count, or the caller's callback, with the books kept consistent |
| Manager.AssetManager.LoadAsyncCoroutine | Assets/F8Framework-main/Runtime/AssetManager/AssetManager.cs:577-627 | illegal: yields nothing; RESOURCE: the resident object or the store's load coroutine; bundle: the open coroutine and then the extracted object, or, when ready, the extract-or-expand result |
| Manager.AssetManager.LoadDir | Assets/F8Framework-main/Runtime/AssetManager/AssetManager.cs:357-394 | illegal or RESOURCE: nothing changes; bundle: the store ends as the blocking pass over the entries leaves it, with exactly its calls |
| Manager.AssetManager.LoadDirAsyncCoroutine | Assets/F8Framework-main/Runtime/AssetManager/AssetManager.cs:714-774 | illegal or RESOURCE: yields nothing; bundle: the store ends as the step-wise pass leaves it, and one store coroutine is yielded per container it opens |
| Manager.AssetManager.StepwiseEntry | Assets/F8Framework-main/Runtime/AssetManager/AssetManager.cs:736-770 | one entry of the coroutine walk raises the counter exactly when the entry is non-empty, so the early exit comes only after the last entry |
| Manager.AssetManager.LoadDirAsync | Assets/F8Framework-main/Runtime/AssetManager/AssetManager.cs:635-707 | illegal: one callback at once; RESOURCE: never a callback; bundle: the store ends as the callback pass leaves it, each deferred entry owes one count, and the callback has fired exactly when no open was left pending |
| Manager.AssetManager.CountEntry | Assets/F8Framework-main/Runtime/AssetManager/AssetManager.cs:686-698 | an entry served at once raises the counter, a deferred one leaves it to its open, and reaching the target fires the callback once |
| Manager.AssetManager.Unload | Assets/F8Framework-main/Runtime/AssetManager/AssetManager.cs:955-978 | releases exactly the containers of the legal bundle lookups and the Resources key iff that lookup is legal, with one store call each, in the source's order |
| Manager.AssetManager.UnloadAsync | Assets/F8Framework-main/Runtime/AssetManager/AssetManager.cs:988-1006 | one asynchronous unload per legal bundle lookup, each registering the callback; the Resources store is untouched; the request is owed one callback per container |
| Manager.AssetManager.ProgressInputs | Assets/F8Framework-main/Runtime/AssetManager/AssetManager.cs:1028-1056 | the values read, in order: the Resources key's progress if that lookup is legal, then the bundle progress for the local and the remote path ("" when illegal) |
| Manager.AssetManager.GetLoadProgress | Assets/F8Framework-main/Runtime/AssetManager/AssetManager.cs:1015-1068 | the result is the aggregate of the values read: the least active one, or 0 when none is below 2 |
| Manager.AssetManager.GetTotalLoadProgress | Assets/F8Framework-main/Runtime/AssetManager/AssetManager.cs:1076-1100 | the same aggregate over the bundle store's and the Resources store's overall progress |

## Left out

- Editor mode: the `_isEditorMode` branches and `UnityEditor.AssetDatabase` are engine calls behind `#if UNITY_EDITOR`, so `IsEditorMode` is taken to be false.
- `OnInit`: it reads files and decodes JSON. The two tables are inputs to the model.
- The lifecycle hooks (`OnUpdate`, `OnLateUpdate`, `OnFixedUpdate`, `OnTermination`) and all `LogF8` logging have no behaviour to model.
- The internals of `ResourcesManager` and `AssetBundleManager` are not part of this model. Each store call is an abstract state change with a contract. `GetAssetBundlePathWithoutAb` and `GetRemoteAssetBundleCompletePath` are uninterpreted.
- The asset-name argument the orchestrator passes to the bundle store's `Load` and `LoadAsync` is dropped, because the model's store opens a container by its path. The store's `Load` also takes the descriptor by `ref` (line 335, and the other overloads), and `Load` re-reads `info.AssetBundlePath` after the call (line 336); the model takes the descriptor to be unchanged by the store.
- `Path.ChangeExtension(...).Replace(...)` is an uninterpreted function, `Config.subAssetName`.
- Coroutine scheduling: Unity's frame-driven execution of `IEnumerator` is not modelled. A coroutine is the sequence of values it yields.
- Concurrency: a store's continuations run one at a time, when `CompletePending` is called.
- Null callbacks: `callback?.Invoke` on a null callback is modelled as an invocation that nobody observes. The log records it all the same.
- Unity's `Object` null semantics (a destroyed object compares equal to null) are not modelled.
- Null entries and an empty string in `AssetPath` are both written `""`, since `IsNullOrEmpty` treats them alike.
- Progress values are `real`. Only comparisons and minimum occur, so 32-bit float rounding plays no part.
- PathKeys.ToLower: lower-cases ASCII letters only, not the culture-sensitive Unicode mapping of `string.ToLower()`.
- Manager.AssetManager.LoadDirAsync: the counter is compared against the number of non-empty entries rather than `AssetPath.Length`, and a list with nothing to load calls back at once (see Findings). Steps.DirCallbacksAsWritten models the code as written. Its already-open branch also extracts from the entry's own container and expands only on a real miss, where the source extracts at the bare prefix (line 684) and expands after that miss (line 694). Steps.DirEntryExpandsAsWritten models that test as written.
- Manager.AssetManager.LoadDirAsyncCoroutine: the already-open branch extracts from the entry's own container and expands only on a real miss, where the source extracts at the bare prefix (line 756) and expands after that miss (line 766) (see Findings).
- Manager.AssetManager.GetAssetObject: the expansion step uses the corrected tail, which returns null without a loader where the source throws (see Findings). Steps.ExtractOrExpandAsWritten models the code as written.
- Manager.AssetManager.Load: the expansion step uses the corrected tail too. When the open finds no container file, the model returns null where the source calls `ab.Expand()` on a null loader and throws (line 345, and lines 444 and 496 in the other overloads) (see Findings). Steps.AsWrittenLoadFaultsAfterFailedOpen models the code as written.
- Stores.UnloadBundle: the bundle store's reference counting and release of dependencies are not modelled; an unload removes exactly that container's loader. So the `loaders` clause of Manager.AssetManager.Unload holds of this store model only, and the two unloads of one container under `ForceRemoteAssetBundle` look like one removal. The call sequence `Unload` promises does not depend on this.

The model deliberately keeps several behaviours of the source as written:

- `IsLegal` tests only for null. A non-null empty path list passes, so the loads index `AssetPath[0]` only after a legal RESOURCE lookup, and that lookup always has one element.
- `LoadDirAsync` on a Resources asset logs and never invokes its callback. The model gives such a request the kind `Unsupported`, which is owed nothing.
- `GetAssetObject` has no legality gate. It branches on the type alone.
- The continuation that the bundle branch of `LoadAsync` registers extracts the object once and never expands.
- With `ForceRemoteAssetBundle` set, both bundle lookups of `Unload` and `UnloadAsync` name the same remote container. It is therefore unloaded twice, and an asynchronous unload owes its callback twice.
- The doc comments of both `GetLoadProgress` overloads say they return -1 when no loader exists. The code returns 0, and the model follows the code.

## Findings

| source | as written | input that shows it | evidently intended | confidence | as-written member | corrected member |
|---|---|---|---|---|---|---|
| Assets/F8Framework-main/Runtime/AssetManager/AssetManager.cs:676 | `++assetCount >= info.AssetPath.Length`, but empty entries are skipped and never counted | a directory whose path list is empty, or holds an empty entry | the callback fires once, after every non-empty entry has been loaded | not executed | Steps.AsWrittenDirLoadNeverCompletes | Manager.DirLoadSettlesOnce |
| Assets/F8Framework-main/Runtime/AssetManager/AssetManager.cs:684 | the already-open branch extracts from `GetAssetBundlePathWithoutAb(subAssetName)` without `+ abName` | a ready container whose object is already extractable, with no loader at the bare prefix | extract from the container that was just checked, and expand only if the object is missing | not executed | Steps.AsWrittenDirEntryExpandsNeedlessly | Steps.DirEntryExpands |
| Assets/F8Framework-main/Runtime/AssetManager/AssetManager.cs:756 | the already-open branch of the coroutine extracts from `GetAssetBundlePathWithoutAb(subAssetName)` without `+ abName` | a ready container whose object is already extractable, with no loader at the bare prefix | extract from the container that was just checked, and expand only if the object is missing | not executed | Steps.AsWrittenDirEntryExpandsNeedlessly | Steps.DirEntryExpands |
| Assets/F8Framework-main/Runtime/AssetManager/AssetManager.cs:195-196 | on a miss, `ab.Expand()` is called on the loader `GetAssetBundleLoader` returned, which is null when the container is not open | `GetAssetObject` for a mapped bundle asset whose container has never been opened | return null, as the method's other miss paths do | not executed | Steps.AsWrittenFaultsWithoutLoader | Steps.ExtractOrExpand |
| Assets/F8Framework-main/Runtime/AssetManager/AssetManager.cs:345 | after the open, `ab.Expand()` is called on the loader `GetAssetBundleLoader` returned at line 336, which is null when the open found no container file; the same tail is at lines 444 and 496 | `Load` for a mapped bundle asset whose container has no loader and no file | return null, as the method's other miss paths do | not executed | Steps.AsWrittenLoadFaultsAfterFailedOpen | Steps.ExtractOrExpand |
