/**
 * The load orchestrator, `AssetManager`: resolves a name, gates on
 * legality, then drives the Resources store or the bundle store in one of
 * three disciplines (blocking, callback, coroutine). The typed and untyped
 * overloads differ only in the requested type, passed here as a `Kind`.
 */
module Manager {
  import opened Wrappers
  import opened Descriptor
  import opened Resolver
  import opened PathKeys
  import opened Progress
  import opened Stores
  import opened Completion
  import opened Steps
  import opened DirLoads
  import opened Unloads

  /** A value a coroutine yielded. */
  datatype Yield =
    /** The object itself (possibly null). */
    | YieldObject(obj: Option<Obj>)
    /** The Resources store's load coroutine for a key. */
    | YieldResourceLoad(key: string)
    /** The bundle store's load coroutine for a container path. */
    | YieldBundleLoad(path: string)

  /** What the directory coroutine yielded: one store coroutine per container it opens. */
  function BundleLoads(paths: seq<string>): (ys: seq<Yield>)
    ensures |ys| == |paths|
    ensures forall k | 0 <= k < |paths| :: ys[k] == YieldBundleLoad(paths[k])
  {
    if paths == [] then [] else BundleLoads(paths[..|paths| - 1]) + [YieldBundleLoad(paths[|paths| - 1])]
  }

  /**
   * The corrected directory load, as the callback books see it: a bundle
   * directory is owed `NonEmptyCount(entries)` counts, and once none of its
   * container loads is pending its callback has run exactly `DirCallbacks`
   * times, which is once.
   */
  lemma DirLoadSettlesOnce(
    kinds: map<nat, RequestKind>, counts: map<nat, nat>, log: seq<Invocation>, ops: seq<PendingOp>,
    next: nat, req: nat, entries: seq<string>)
    requires Consistent(kinds, counts, log, ops, next)
    requires req in kinds && kinds[req] == Directory(NonEmptyCount(entries)) && PendingFor(ops, req) == 0
    ensures Deliveries(log, req) == DirCallbacks(entries) == 1
  {
    SettledExactlyOnce(kinds, counts, log, ops, next, req);
    DirLoadCompletesOnce(entries);
  }

  class AssetManager {
    const config: Config
    const tables: Tables
    const stores: Stores
    /** The callbacks invoked so far, in order. */
    var log: seq<Invocation>
    /** What each issued request is owed. */
    var kinds: map<nat, RequestKind>
    /** The `assetCount` counter of each directory load. */
    var counts: map<nat, nat>
    /** The next request identity. */
    var nextRequest: nat

    /** Every callback issued is owed exactly what its request promises. */
    ghost predicate Valid()
      reads this, stores
    {
      Consistent(kinds, counts, log, stores.pending, nextRequest)
    }

    constructor (config: Config, tables: Tables, stores: Stores)
      requires stores.pending == []
      ensures Valid()
      ensures this.config == config && this.tables == tables && this.stores == stores
      ensures log == [] && kinds == map[] && nextRequest == 0
    {
      this.config := config;
      this.tables := tables;
      this.stores := stores;
      log := [];
      kinds := map[];
      counts := map[];
      nextRequest := 0;
    }

    /** `GetAssetInfo(name, mode)` against this manager's tables and configuration. */
    function Resolve(name: string, mode: AccessMode): AssetInfo {
      GetAssetInfo(config, tables, name, mode)
    }

    /** Extract; on a miss, expand the loader if there is one and extract again. */
    method ExtractWithFallback(path: string, key: string, kind: Kind) returns (o: Option<Obj>)
      modifies stores`loaders, stores`trace
      ensures o == ExtractOrExpand(old(stores.loaders), path, key, kind)
      ensures var expands := NeedsExpand(old(stores.loaders), path, key, kind);
        && stores.loaders == (if expands then Expanded(old(stores.loaders), path) else old(stores.loaders))
        && stores.trace == old(stores.trace) + [Extract(path, key)]
                           + (if expands then [Expand(path), Extract(path, key)] else [])
    {
      o := stores.ExtractObject(path, key, kind);
      if o.None? && path in stores.loaders {
        stores.ExpandLoader(path);
        o := stores.ExtractObject(path, key, kind);
      }
    }

    /**
     * `GetAssetObject`: the object if it is already there, never opening a
     * container. There is no legality gate: the branch is chosen by type.
     */
    method GetAssetObject(name: string, mode: AccessMode, kind: Kind) returns (o: Option<Obj>)
      modifies stores`loaders, stores`trace
      ensures stores.pending == old(stores.pending)
      ensures Resolve(name, mode).assetType == Untyped ==>
        o.None? && stores.trace == old(stores.trace) && stores.loaders == old(stores.loaders)
      ensures var info := Resolve(name, mode);
        info.assetType == Resource ==>
          && o == old(stores.ResidentObject(info.assetPath.value[0], kind))
          && stores.trace == old(stores.trace) && stores.loaders == old(stores.loaders)
      ensures var info := Resolve(name, mode);
        info.assetType == AssetBundle ==>
          var path, key := info.assetBundlePath.value, info.abName.GetOr("");
          var expands := NeedsExpand(old(stores.loaders), path, key, kind);
          && o == ExtractOrExpand(old(stores.loaders), path, key, kind)
          && stores.loaders == (if expands then Expanded(old(stores.loaders), path) else old(stores.loaders))
          && stores.trace == old(stores.trace) + [Extract(path, key)]
                             + (if expands then [Expand(path), Extract(path, key)] else [])
    {
      var info := Resolve(name, mode);
      if info.assetType == Resource {
        o := stores.ResidentObject(info.assetPath.value[0], kind);
      } else if info.assetType == AssetBundle {
        o := ExtractWithFallback(info.assetBundlePath.value, info.abName.GetOr(""), kind);
      } else {
        o := None;
      }
    }

    /**
     * `Load`: the blocking load. An illegal descriptor touches no store; a
     * resident Resources object is returned without loading; a container is
     * opened only when it has no loader or no content, and expanded only
     * after an extraction failed.
     */
    method Load(name: string, mode: AccessMode, kind: Kind) returns (o: Option<Obj>)
      modifies stores`resident, stores`loaders, stores`trace
      ensures stores.pending == old(stores.pending)
      ensures !IsLegal(Resolve(name, mode)) ==>
        && o.None? && stores.trace == old(stores.trace)
        && stores.loaders == old(stores.loaders) && stores.resident == old(stores.resident)
      ensures var info := Resolve(name, mode);
        info.assetType == Resource ==>
          var key := info.assetPath.value[0];
          var cached := old(stores.ResidentObject(key, kind));
          && stores.loaders == old(stores.loaders)
          && (cached.Some? ==>
                o == cached && stores.trace == old(stores.trace) && stores.resident == old(stores.resident))
          && (cached.None? ==>
                && o == ResourceResult(stores.resourceFiles, key, kind)
                && stores.resident == ResourceLoaded(old(stores.resident), stores.resourceFiles, key)
                && stores.trace == old(stores.trace) + [ResLoad(key)])
      ensures var info := Resolve(name, mode);
        IsLegal(info) && info.assetType == AssetBundle ==>
          var path, key := info.assetBundlePath.value, info.abName.GetOr("");
          var opens := !Ready(old(stores.loaders), path, false);
          var current := if opens then Opened(old(stores.loaders), stores.bundleFiles, path) else old(stores.loaders);
          var expands := NeedsExpand(current, path, key, kind);
          && o == ExtractOrExpand(current, path, key, kind)
          && stores.resident == old(stores.resident)
          && stores.loaders == (if expands then Expanded(current, path) else current)
          && stores.trace == old(stores.trace) + (if opens then [BundleOpen(path)] else []) + [Extract(path, key)]
                             + (if expands then [Expand(path), Extract(path, key)] else [])
    {
      var info := Resolve(name, mode);
      if !IsLegal(info) {
        return None;
      }
      if info.assetType == Resource {
        var key := info.assetPath.value[0];
        o := stores.ResidentObject(key, kind);
        if o.None? {
          o := stores.LoadResource(key, kind);
        }
      } else {
        var path, key := info.assetBundlePath.value, info.abName.GetOr("");
        if !Ready(stores.loaders, path, false) {
          stores.Open(path);
        }
        o := ExtractWithFallback(path, key, kind);
      }
    }
      /** The operation a single load registers when it cannot deliver at once. */
    function SingleWait(info: AssetInfo, kind: Kind, req: nat): (op: PendingOp)
      ensures OpRequest(op) == req && Compatible(Single, op)
    {
      var paths := info.assetPath.GetOr([]);
      if info.assetType == Resource then AwaitResource(if |paths| > 0 then paths[0] else "", kind, req)
      else AwaitOpen(info.assetBundlePath.GetOr(""), EndWithObject(req, info.assetBundlePath.GetOr(""), info.abName.GetOr(""), kind))
    }

    /**
     * The store side of a legal single load: either an object to deliver at
     * once (`delivered`), or an operation registered with a store whose
     * callback will deliver it later.
     */
    method StartSingle(name: string, mode: AccessMode, kind: Kind, checkDependencies: bool, req: nat)
      returns (delivered: bool, o: Option<Obj>)
      requires IsLegal(Resolve(name, mode))
      modifies stores`loaders, stores`pending, stores`trace
      ensures delivered ==> stores.pending == old(stores.pending)
      ensures !delivered ==> stores.pending == old(stores.pending) + [SingleWait(Resolve(name, mode), kind, req)]
      ensures var info := Resolve(name, mode);
        info.assetType == Resource ==>
        var key := info.assetPath.value[0];
        var cached := old(stores.ResidentObject(key, kind));
        && stores.loaders == old(stores.loaders)
        && (delivered <==> cached.Some?)
        && (cached.Some? ==> o == cached && stores.trace == old(stores.trace))
        && (cached.None? ==> stores.trace == old(stores.trace) + [ResLoadAsync(key)])
      ensures var info := Resolve(name, mode);
        info.assetType == AssetBundle ==>
        var path, key := info.assetBundlePath.value, info.abName.GetOr("");
        var expands := NeedsExpand(old(stores.loaders), path, key, kind);
        && (delivered <==> Ready(old(stores.loaders), path, checkDependencies))
        && (!delivered ==>
              stores.loaders == old(stores.loaders) && stores.trace == old(stores.trace) + [BundleOpenAsync(path)])
        && (delivered ==>
              && o == ExtractOrExpand(old(stores.loaders), path, key, kind)
              && stores.loaders == (if expands then Expanded(old(stores.loaders), path) else old(stores.loaders))
              && stores.trace == old(stores.trace) + [Extract(path, key)]
                                 + (if expands then [Expand(path), Extract(path, key)] else []))
    {
      var info := Resolve(name, mode);
      o := None;
      if info.assetType == Resource {
        var key := info.assetPath.value[0];
        o := stores.ResidentObject(key, kind);
        delivered := o.Some?;
        if !delivered {
          stores.LoadResourceAsync(key, kind, req);
        }
      } else {
        var path, key := info.assetBundlePath.value, info.abName.GetOr("");
        delivered := Ready(stores.loaders, path, checkDependencies);
        if !delivered {
          stores.OpenAsync(path, EndWithObject(req, path, key, kind));
        } else {
          o := ExtractWithFallback(path, key, kind);
        }
      }
    }

    /**
     * `LoadAsync`: the callback load. The typed overload checks the
     * container's dependencies before trusting an open loader
     * (`checkDependencies`); the untyped overloads check its content only.
     * Whatever the path, the callback of the new request is owed exactly
     * once: delivered now, or registered with a store.
     */
    method LoadAsync(name: string, mode: AccessMode, kind: Kind, checkDependencies: bool) returns (req: nat)
      requires Valid()
      modifies this, stores`loaders, stores`pending, stores`trace
      ensures Valid()
      ensures req == old(nextRequest) && nextRequest == req + 1
      ensures kinds == old(kinds)[req := Single]
      ensures Deliveries(log, req) + PendingFor(stores.pending, req) == 1
      ensures !IsLegal(Resolve(name, mode)) ==>
        && log == old(log) + [Delivered(req, None)]
        && stores.pending == old(stores.pending) && stores.trace == old(stores.trace)
        && stores.loaders == old(stores.loaders)
      ensures var info := Resolve(name, mode);
        info.assetType == Resource ==>
          var key := info.assetPath.value[0];
          var cached := old(stores.ResidentObject(key, kind));
          && stores.loaders == old(stores.loaders)
          && (cached.Some? ==>
                && log == old(log) + [Delivered(req, cached)]
                && stores.pending == old(stores.pending) && stores.trace == old(stores.trace))
          && (cached.None? ==>
                && log == old(log)
                && stores.pending == old(stores.pending) + [AwaitResource(key, kind, req)]
                && stores.trace == old(stores.trace) + [ResLoadAsync(key)])
      ensures var info := Resolve(name, mode);
        IsLegal(info) && info.assetType == AssetBundle ==>
          var path, key := info.assetBundlePath.value, info.abName.GetOr("");
          var expands := NeedsExpand(old(stores.loaders), path, key, kind);
          && (!Ready(old(stores.loaders), path, checkDependencies) ==>
                && log == old(log) && stores.loaders == old(stores.loaders)
                && stores.pending == old(stores.pending) + [AwaitOpen(path, EndWithObject(req, path, key, kind))]
                && stores.trace == old(stores.trace) + [BundleOpenAsync(path)])
          && (Ready(old(stores.loaders), path, checkDependencies) ==>
                && log == old(log) + [Delivered(req, ExtractOrExpand(old(stores.loaders), path, key, kind))]
                && stores.pending == old(stores.pending)
                && stores.loaders == (if expands then Expanded(old(stores.loaders), path) else old(stores.loaders))
                && stores.trace == old(stores.trace) + [Extract(path, key)]
                                   + (if expands then [Expand(path), Extract(path, key)] else []))
    {
      req := nextRequest;
      Issue(kinds, counts, log, stores.pending, nextRequest, Single, 0);
      kinds := kinds[req := Single];
      counts := counts[req := 0];
      nextRequest := nextRequest + 1;
      var info := Resolve(name, mode);
      if !IsLegal(info) {
        Invoke(kinds, counts, log, stores.pending, nextRequest, req, Delivered(req, None));
        log := log + [Delivered(req, None)];
      } else {
        ghost var ops := stores.pending;
        var delivered, o := StartSingle(name, mode, kind, checkDependencies, req);
        if delivered {
          Invoke(kinds, counts, log, stores.pending, nextRequest, req, Delivered(req, o));
          log := log + [Delivered(req, o)];
        } else {
          Register(kinds, counts, log, ops, nextRequest, req, SingleWait(info, kind, req));
        }
      }
      Settle(kinds, counts, log, stores.pending, nextRequest, req);
    }

    /**
     * The store finishing its `i`-th pending operation and running the
     * callback registered with it: the orchestrator's extraction for a
     * single load (no expansion here), a count for a directory entry, the
     * caller's own callback for Resources loads and unloads.
     */
    method CompletePending(i: nat)
      requires Valid() && i < |stores.pending|
      modifies this`log, this`counts, stores`resident, stores`loaders, stores`pending, stores`trace
      ensures Valid()
      ensures stores.pending == RemoveAt(old(stores.pending), i)
      ensures var op := old(stores.pending[i]);
        op.AwaitOpen? && op.continuation.EndWithObject? ==>
          var c := op.continuation;
          var loaded := Opened(old(stores.loaders), stores.bundleFiles, op.path);
          && stores.loaders == loaded && counts == old(counts) && stores.resident == old(stores.resident)
          && log == old(log) + [Delivered(c.req, ExtractFrom(loaded, c.path, c.key, c.kind))]
          && stores.trace == old(stores.trace) + [Extract(c.path, c.key)]
      ensures var op := old(stores.pending[i]);
        op.AwaitOpen? && op.continuation.CountDirEntry? ==>
          var r := op.continuation.req;
          && r in old(counts) && r in kinds && kinds[r].Directory?
          && stores.loaders == Opened(old(stores.loaders), stores.bundleFiles, op.path)
          && counts == old(counts)[r := old(counts)[r] + 1]
          && log == old(log) + (if old(counts)[r] + 1 >= kinds[r].target then [DirectoryDone(r)] else [])
          && stores.resident == old(stores.resident) && stores.trace == old(stores.trace)
      ensures var op := old(stores.pending[i]);
        op.AwaitResource? ==>
          && stores.resident == ResourceLoaded(old(stores.resident), stores.resourceFiles, op.key)
          && log == old(log) + [Delivered(op.callback, ResourceResult(stores.resourceFiles, op.key, op.kind))]
          && stores.loaders == old(stores.loaders) && counts == old(counts) && stores.trace == old(stores.trace)
      ensures var op := old(stores.pending[i]);
        op.AwaitUnload? ==>
          && stores.loaders == old(stores.loaders) - {op.path}
          && log == old(log) + [UnloadDone(op.callback)]
          && stores.resident == old(stores.resident) && counts == old(counts) && stores.trace == old(stores.trace)
    {
      ghost var ops0 := stores.pending;
      var op := stores.pending[i];
      stores.pending := RemoveAt(stores.pending, i);
      match op {
      case AwaitOpen(path, c) =>
        match c {
        case EndWithObject(r, p, key, kind) => FinishObjectOpen(ops0, i, path, r, p, key, kind);
        case CountDirEntry(r) => FinishEntryOpen(ops0, i, path, r);
        }
      case AwaitResource(key, kind, cb) => FinishResourceLoad(ops0, i, key, kind, cb);
      case AwaitUnload(path, full, cb) => FinishUnload(ops0, i, path, full, cb);
      }
    }

    /** An open a single load waited on: extract the object and deliver it. */
    method FinishObjectOpen(
      ghost ops0: seq<PendingOp>, i: nat, path: string, r: nat, p: string, key: string, kind: Kind)
      requires Consistent(kinds, counts, log, ops0, nextRequest)
      requires i < |ops0| && ops0[i] == AwaitOpen(path, EndWithObject(r, p, key, kind))
      requires stores.pending == RemoveAt(ops0, i)
      modifies this`log, stores`loaders, stores`trace
      ensures Valid()
      ensures var loaded := Opened(old(stores.loaders), stores.bundleFiles, path);
        && stores.loaders == loaded
        && log == old(log) + [Delivered(r, ExtractFrom(loaded, p, key, kind))]
        && stores.trace == old(stores.trace) + [Extract(p, key)]
    {
      ghost var log0 := log;
      stores.loaders := Opened(stores.loaders, stores.bundleFiles, path);
      var o := stores.ExtractObject(p, key, kind);
      log := log + [Delivered(r, o)];
      Deliver(kinds, counts, log0, ops0, nextRequest, i, Delivered(r, o), log, stores.pending);
    }

    /** An open a directory load waited on: count the entry; the last count fires the callback. */
    method FinishEntryOpen(ghost ops0: seq<PendingOp>, i: nat, path: string, r: nat)
      requires Consistent(kinds, counts, log, ops0, nextRequest)
      requires i < |ops0| && ops0[i] == AwaitOpen(path, CountDirEntry(r))
      requires stores.pending == RemoveAt(ops0, i)
      modifies this`log, this`counts, stores`loaders
      ensures Valid()
      ensures r in old(counts) && r in kinds && kinds[r].Directory?
      ensures stores.loaders == Opened(old(stores.loaders), stores.bundleFiles, path)
      ensures counts == old(counts[r := counts[r] + 1])
      ensures log == old(log) + (if old(counts)[r] + 1 >= kinds[r].target then [DirectoryDone(r)] else [])
    {
      PendingCountOwner(kinds, counts, log, ops0, nextRequest, i);
      ghost var counts0, log0 := counts, log;
      var n := counts[r] + 1;
      stores.loaders := Opened(stores.loaders, stores.bundleFiles, path);
      counts := counts[r := n];
      if n >= kinds[r].target {
        log := log + [DirectoryDone(r)];
      } else {
        assert log + [] == log;
      }
      CountFinished(kinds, counts0, log0, ops0, nextRequest, i, counts, log, stores.pending);
    }

    /** A Resources load finished: the object becomes resident and goes to the caller's callback. */
    method FinishResourceLoad(ghost ops0: seq<PendingOp>, i: nat, key: string, kind: Kind, cb: nat)
      requires Consistent(kinds, counts, log, ops0, nextRequest)
      requires i < |ops0| && ops0[i] == AwaitResource(key, kind, cb)
      requires stores.pending == RemoveAt(ops0, i)
      modifies this`log, stores`resident
      ensures Valid()
      ensures stores.resident == ResourceLoaded(old(stores.resident), stores.resourceFiles, key)
      ensures log == old(log) + [Delivered(cb, ResourceResult(stores.resourceFiles, key, kind))]
    {
      ghost var log0 := log;
      var o := ResourceResult(stores.resourceFiles, key, kind);
      stores.resident := ResourceLoaded(stores.resident, stores.resourceFiles, key);
      log := log + [Delivered(cb, o)];
      Deliver(kinds, counts, log0, ops0, nextRequest, i, Delivered(cb, o), log, stores.pending);
    }

    /** A bundle unload finished: its loader is gone and the caller's callback runs. */
    method FinishUnload(ghost ops0: seq<PendingOp>, i: nat, path: string, full: bool, cb: nat)
      requires Consistent(kinds, counts, log, ops0, nextRequest)
      requires i < |ops0| && ops0[i] == AwaitUnload(path, full, cb)
      requires stores.pending == RemoveAt(ops0, i)
      modifies this`log, stores`loaders
      ensures Valid()
      ensures stores.loaders == old(stores.loaders) - {path}
      ensures log == old(log) + [UnloadDone(cb)]
    {
      ghost var log0 := log;
      stores.loaders := stores.loaders - {path};
      log := log + [UnloadDone(cb)];
      Deliver(kinds, counts, log0, ops0, nextRequest, i, UnloadDone(cb), log, stores.pending);
    }

    /**
     * `LoadAsyncCoroutine`: the step-wise load, as the values it yielded. A
     * nested store coroutine is driven to its end before the next value is
     * taken, so the object a step-wise open makes available is the last yield.
     */
    method LoadAsyncCoroutine(name: string, mode: AccessMode, kind: Kind) returns (yielded: seq<Yield>)
      modifies stores`resident, stores`loaders, stores`trace
      ensures stores.pending == old(stores.pending)
      ensures !IsLegal(Resolve(name, mode)) ==>
        && yielded == [] && stores.trace == old(stores.trace)
        && stores.loaders == old(stores.loaders) && stores.resident == old(stores.resident)
      ensures var info := Resolve(name, mode);
        info.assetType == Resource ==>
          var key := info.assetPath.value[0];
          var cached := old(stores.ResidentObject(key, kind));
          && stores.loaders == old(stores.loaders)
          && (cached.Some? ==>
                yielded == [YieldObject(cached)] && stores.trace == old(stores.trace) && stores.resident == old(stores.resident))
          && (cached.None? ==>
                && yielded == [YieldResourceLoad(key)]
                && stores.resident == ResourceLoaded(old(stores.resident), stores.resourceFiles, key)
                && stores.trace == old(stores.trace) + [ResLoadStepwise(key)])
      ensures var info := Resolve(name, mode);
        IsLegal(info) && info.assetType == AssetBundle ==>
          var path, key := info.assetBundlePath.value, info.abName.GetOr("");
          var loaded := Opened(old(stores.loaders), stores.bundleFiles, path);
          var expands := NeedsExpand(old(stores.loaders), path, key, kind);
          && stores.resident == old(stores.resident)
          && (!Ready(old(stores.loaders), path, true) ==>
                && yielded == [YieldBundleLoad(path), YieldObject(ExtractFrom(loaded, path, key, kind))]
                && stores.loaders == loaded
                && stores.trace == old(stores.trace) + [BundleOpenStepwise(path), Extract(path, key)])
          && (Ready(old(stores.loaders), path, true) ==>
                && yielded == [YieldObject(ExtractOrExpand(old(stores.loaders), path, key, kind))]
                && stores.loaders == (if expands then Expanded(old(stores.loaders), path) else old(stores.loaders))
                && stores.trace == old(stores.trace) + [Extract(path, key)]
                                   + (if expands then [Expand(path), Extract(path, key)] else []))
    {
      var info := Resolve(name, mode);
      yielded := [];
      if !IsLegal(info) {
        return;
      }
      if info.assetType == Resource {
        var key := info.assetPath.value[0];
        var o := stores.ResidentObject(key, kind);
        if o.Some? {
          yielded := [YieldObject(o)];
        } else {
          stores.LoadResourceStepwise(key);
          yielded := [YieldResourceLoad(key)];
        }
      } else {
        var path, key := info.assetBundlePath.value, info.abName.GetOr("");
        if !Ready(stores.loaders, path, true) {
          stores.OpenStepwise(path);
          var o := stores.ExtractObject(path, key, kind);
          yielded := [YieldBundleLoad(path), YieldObject(o)];
        } else {
          var o := ExtractWithFallback(path, key, kind);
          yielded := [YieldObject(o)];
        }
      }
    }

    /**
     * `LoadDir`: opens, with the blocking call, the container of every
     * non-empty entry of a bundle directory that has no loader or no
     * content. A Resources directory, or an illegal descriptor, does nothing.
     */
    method LoadDir(name: string, mode: AccessMode)
      modifies stores`loaders, stores`trace
      ensures var info := Resolve(name, mode);
        if IsLegal(info) && info.assetType == AssetBundle then
          var r := DirPass(Blocking, config, stores.bundleFiles, old(stores.loaders), info.assetPath.value);
          stores.loaders == r.loaders && stores.trace == old(stores.trace) + r.calls
        else
          stores.loaders == old(stores.loaders) && stores.trace == old(stores.trace)
    {
      var info := Resolve(name, mode);
      if !IsLegal(info) || info.assetType != AssetBundle {
        return;
      }
      var entries := info.assetPath.value;
      ghost var l0, t0 := stores.loaders, stores.trace;
      ghost var pass := Pass(l0, [], []);
      var i := 0;
      while i < |entries|
        invariant 0 <= i <= |entries|
        invariant pass == DirPass(Blocking, config, stores.bundleFiles, l0, entries[..i])
        invariant stores.loaders == pass.loaders && stores.trace == t0 + pass.calls
      {
        pass := VisitBlocking(entries, i, l0, t0, pass);
        i := i + 1;
      }
      assert entries[..i] == entries;
    }

    /** One entry of `LoadDir`: open its container unless it is loaded and has content. */
    method VisitBlocking(
      entries: seq<string>, i: nat, ghost l0: map<string, Loader>, ghost t0: seq<StoreCall>, ghost before: Pass)
      returns (ghost after: Pass)
      requires i < |entries|
      requires before == DirPass(Blocking, config, stores.bundleFiles, l0, entries[..i])
      requires stores.loaders == before.loaders && stores.trace == t0 + before.calls
      modifies stores`loaders, stores`trace
      ensures after == DirPass(Blocking, config, stores.bundleFiles, l0, entries[..i + 1])
      ensures stores.loaders == after.loaders && stores.trace == t0 + after.calls
    {
      DirPassStep(Blocking, config, stores.bundleFiles, l0, entries, i);
      after := before;
      if entries[i] != "" {
        var e := EntryOf(config, entries[i]);
        DirStepShift(Blocking, stores.bundleFiles, before, e);
        after := DirStep(Blocking, stores.bundleFiles, before, e);
        if !Ready(stores.loaders, e.BundlePath(), false) {
          stores.Open(e.BundlePath());
        }
      }
    }

    /**
     * The already-open branch of the directory loads: extract the entry's
     * object from its container, expanding the container when it is missing.
     */
    method ExtractDirEntry(mode: DirMode, e: DirEntry)
      requires mode != Blocking && Ready(stores.loaders, e.BundlePath(), true)
      modifies stores`loaders, stores`trace
      ensures var step := DirStep(mode, stores.bundleFiles, Pass(old(stores.loaders), [], []), e);
        && step.started == []
        && stores.loaders == step.loaders && stores.trace == old(stores.trace) + step.calls
    {
      var path := e.BundlePath();
      var o := stores.ExtractObject(path, e.abName, AnyType);
      if o.None? {
        stores.ExpandLoader(path);
      }
    }

    /** One non-empty entry of the step-wise directory load, with the value it yields if it opens its container. */
    method VisitStepwise(
      entries: seq<string>, i: nat, ghost l0: map<string, Loader>, ghost t0: seq<StoreCall>, ghost before: Pass,
      yielded: seq<Yield>)
      returns (ghost after: Pass, yielded': seq<Yield>)
      requires i < |entries| && entries[i] != ""
      requires before == DirPass(Stepwise, config, stores.bundleFiles, l0, entries[..i])
      requires stores.loaders == before.loaders && stores.trace == t0 + before.calls
      requires yielded == BundleLoads(before.started)
      modifies stores`loaders, stores`trace
      ensures after == DirPass(Stepwise, config, stores.bundleFiles, l0, entries[..i + 1])
      ensures stores.loaders == after.loaders && stores.trace == t0 + after.calls
      ensures yielded' == BundleLoads(after.started)
    {
      DirPassStep(Stepwise, config, stores.bundleFiles, l0, entries, i);
      var e := EntryOf(config, entries[i]);
      if !Ready(stores.loaders, e.BundlePath(), true) {
        yielded' := OpenStepwiseEntry(e, t0, before, yielded);
      } else {
        ExtractReadyEntry(Stepwise, e, t0, before);
        yielded' := yielded;
      }
      after := DirStep(Stepwise, stores.bundleFiles, before, e);
    }

    /** A step-wise entry whose container is not ready: the coroutine opens it and yields the bundle load. */
    method OpenStepwiseEntry(e: DirEntry, ghost t0: seq<StoreCall>, ghost before: Pass, yielded: seq<Yield>)
      returns (yielded': seq<Yield>)
      requires !Ready(stores.loaders, e.BundlePath(), true)
      requires stores.loaders == before.loaders && stores.trace == t0 + before.calls
      requires yielded == BundleLoads(before.started)
      modifies stores`loaders, stores`trace
      ensures var after := DirStep(Stepwise, stores.bundleFiles, before, e);
        && stores.loaders == after.loaders && stores.trace == t0 + after.calls
        && yielded' == BundleLoads(after.started)
    {
      var path := e.BundlePath();
      assert (before.started + [path])[..|before.started|] == before.started;
      stores.OpenStepwise(path);
      yielded' := yielded + [YieldBundleLoad(path)];
    }

    /** An entry of an asynchronous walk whose container is ready: the asset is extracted from it. */
    method ExtractReadyEntry(mode: DirMode, e: DirEntry, ghost t0: seq<StoreCall>, ghost before: Pass)
      requires mode != Blocking && Ready(stores.loaders, e.BundlePath(), true)
      requires stores.loaders == before.loaders && stores.trace == t0 + before.calls
      modifies stores`loaders, stores`trace
      ensures var after := DirStep(mode, stores.bundleFiles, before, e);
        && stores.loaders == after.loaders && stores.trace == t0 + after.calls
        && after.started == before.started
    {
      DirStepShift(mode, stores.bundleFiles, before, e);
      ExtractDirEntry(mode, e);
    }

    /** A callback-walk entry whose container is not ready: its open is started, and counts the entry when it ends. */
    method OpenCallbackEntry(e: DirEntry, req: nat, ghost t0: seq<StoreCall>, ghost before: Pass)
      requires !Ready(stores.loaders, e.BundlePath(), true)
      requires stores.loaders == before.loaders && stores.trace == t0 + before.calls
      modifies stores`pending, stores`trace
      ensures var after := DirStep(Callback, stores.bundleFiles, before, e);
        && stores.loaders == after.loaders && stores.trace == t0 + after.calls
        && after.started == before.started + [e.BundlePath()]
        && stores.pending == old(stores.pending) + [AwaitOpen(e.BundlePath(), CountDirEntry(req))]
    {
      stores.OpenAsync(e.BundlePath(), CountDirEntry(req));
    }

    /**
     * The walk of `LoadDirAsyncCoroutine` over the entries of a bundle
     * directory. The counter is compared with the length of the path list,
     * as written; it can only reach it at the last entry.
     */
    method WalkStepwise(entries: seq<string>) returns (yielded: seq<Yield>)
      modifies stores`loaders, stores`trace
      ensures var r := DirPass(Stepwise, config, stores.bundleFiles, old(stores.loaders), entries);
        && stores.loaders == r.loaders && stores.trace == old(stores.trace) + r.calls
        && yielded == BundleLoads(r.started)
    {
      yielded := [];
      ghost var l0, t0 := stores.loaders, stores.trace;
      ghost var pass := Pass(l0, [], []);
      var count := 0;
      var i := 0;
      while i < |entries|
        invariant 0 <= i <= |entries| && count <= i
        invariant pass == DirPass(Stepwise, config, stores.bundleFiles, l0, entries[..i])
        invariant stores.loaders == pass.loaders && stores.trace == t0 + pass.calls
        invariant yielded == BundleLoads(pass.started)
      {
        count, pass, yielded := StepwiseEntry(entries, i, count, l0, t0, pass, yielded);
        i := i + 1;
        if count >= |entries| {
          break;
        }
      }
      assert entries[..i] == entries;
    }

    /**
     * One iteration of the step-wise directory walk. Only a non-empty
     * entry raises the counter, so the counter never passes the number of
     * entries visited and the early exit on reaching the length of the
     * list can only be taken after the last entry.
     */
    method StepwiseEntry(
      entries: seq<string>, i: nat, count: nat, ghost l0: map<string, Loader>, ghost t0: seq<StoreCall>,
      ghost pass: Pass, yielded: seq<Yield>)
      returns (count': nat, ghost pass': Pass, yielded': seq<Yield>)
      requires i < |entries|
      requires pass == DirPass(Stepwise, config, stores.bundleFiles, l0, entries[..i])
      requires stores.loaders == pass.loaders && stores.trace == t0 + pass.calls
      requires yielded == BundleLoads(pass.started)
      modifies stores`loaders, stores`trace
      ensures count' == count + (if entries[i] != "" then 1 else 0)
      ensures pass' == DirPass(Stepwise, config, stores.bundleFiles, l0, entries[..i + 1])
      ensures stores.loaders == pass'.loaders && stores.trace == t0 + pass'.calls
      ensures yielded' == BundleLoads(pass'.started)
    {
      if entries[i] != "" {
        pass', yielded' := VisitStepwise(entries, i, l0, t0, pass, yielded);
        count' := count + 1;
      } else {
        DirPassStep(Stepwise, config, stores.bundleFiles, l0, entries, i);
        count', pass', yielded' := count, pass, yielded;
      }
    }

    /** `LoadDirAsyncCoroutine`: the step-wise directory load, as the values it yields. */
    method LoadDirAsyncCoroutine(name: string, mode: AccessMode) returns (yielded: seq<Yield>)
      modifies stores`loaders, stores`trace
      ensures var info := Resolve(name, mode);
        if IsLegal(info) && info.assetType == AssetBundle then
          var r := DirPass(Stepwise, config, stores.bundleFiles, old(stores.loaders), info.assetPath.value);
          && stores.loaders == r.loaders && stores.trace == old(stores.trace) + r.calls
          && yielded == BundleLoads(r.started)
        else
          yielded == [] && stores.loaders == old(stores.loaders) && stores.trace == old(stores.trace)
    {
      var info := Resolve(name, mode);
      yielded := [];
      if IsLegal(info) && info.assetType == AssetBundle {
        yielded := WalkStepwise(info.assetPath.value);
      }
    }
    /** One non-empty entry of the callback directory load; whether it deferred the entry to an open. */
    method VisitCallback(
      entries: seq<string>, i: nat, req: nat,
      ghost l0: map<string, Loader>, ghost t0: seq<StoreCall>, ghost before: Pass)
      returns (deferred: bool, ghost after: Pass)
      requires i < |entries| && entries[i] != ""
      requires before == DirPass(Callback, config, stores.bundleFiles, l0, entries[..i])
      requires stores.loaders == before.loaders && stores.trace == t0 + before.calls
      modifies stores`loaders, stores`pending, stores`trace
      ensures var path := EntryOf(config, entries[i]).BundlePath();
        && deferred == !Ready(old(stores.loaders), path, true)
        && after.started == (if deferred then before.started + [path] else before.started)
        && stores.pending == if deferred then old(stores.pending) + [AwaitOpen(path, CountDirEntry(req))]
                             else old(stores.pending)
      ensures after == DirPass(Callback, config, stores.bundleFiles, l0, entries[..i + 1])
      ensures stores.loaders == after.loaders && stores.trace == t0 + after.calls
    {
      DirPassStep(Callback, config, stores.bundleFiles, l0, entries, i);
      var e := EntryOf(config, entries[i]);
      deferred := !Ready(stores.loaders, e.BundlePath(), true);
      if deferred {
        OpenCallbackEntry(e, req, t0, before);
      } else {
        ExtractReadyEntry(Callback, e, t0, before);
      }
      after := DirStep(Callback, stores.bundleFiles, before, e);
    }

    /**
     * The walk of `LoadDirAsync` over the entries of a bundle directory:
     * an entry whose container is ready is counted at once, any other is
     * counted by the callback of the open it starts. The callback of the
     * request fires when the count reaches the number of non-empty entries.
     */
    method WalkCallback(entries: seq<string>, req: nat, n: nat, base: map<nat, nat>, ghost logBefore: seq<Invocation>)
      returns (count: nat)
      requires n == NonEmptyCount(entries) && counts == base[req := 0]
      requires log == logBefore + (if n == 0 then [DirectoryDone(req)] else [])
      requires DirBooks(kinds, base, 0, log, stores.pending, nextRequest, req, n, log, stores.pending, [], 0)
      modifies this`log, this`counts, stores`loaders, stores`pending, stores`trace
      ensures Valid()
      ensures var r := DirPass(Callback, config, stores.bundleFiles, old(stores.loaders), entries);
        && stores.loaders == r.loaders && stores.trace == old(stores.trace) + r.calls
        && counts == base[req := count] && count + |r.started| == n
        && stores.pending == old(stores.pending) + DirWaits(r.started, req)
        && log == logBefore + (if r.started == [] then [DirectoryDone(req)] else [])
    {
      ghost var l0, t0 := stores.loaders, stores.trace;
      ghost var pass := Pass(l0, [], []);
      count := 0;
      var i := 0;
      assert entries[..i] == [];
      while i < |entries|
        invariant 0 <= i <= |entries|
        invariant pass == DirPass(Callback, config, stores.bundleFiles, l0, entries[..i])
        invariant stores.loaders == pass.loaders && stores.trace == t0 + pass.calls
        invariant counts == base[req := count]
        invariant DirBooks(kinds, base, count, log, stores.pending, nextRequest, req, n, old(log), old(stores.pending),
                           pass.started, NonEmptyCount(entries[..i]))
      {
        count, pass := CallbackEntry(entries, i, req, n, base, count, l0, t0, old(log), old(stores.pending), pass);
        i := i + 1;
      }
      assert entries[..i] == entries;
      DirBooksFinish(kinds, base, count, log, stores.pending, nextRequest, req, n, old(log), old(stores.pending),
                     DirPass(Callback, config, stores.bundleFiles, old(stores.loaders), entries).started,
                     counts, logBefore);
    }

    /** One iteration of the callback directory walk; `count` is the source's `assetCount`. */
    method CallbackEntry(
      entries: seq<string>, i: nat, req: nat, n: nat, base: map<nat, nat>, count: nat,
      ghost l0: map<string, Loader>, ghost t0: seq<StoreCall>, ghost log0: seq<Invocation>, ghost p0: seq<PendingOp>,
      ghost pass: Pass)
      returns (count': nat, ghost pass': Pass)
      requires i < |entries| && n == NonEmptyCount(entries)
      requires pass == DirPass(Callback, config, stores.bundleFiles, l0, entries[..i])
      requires stores.loaders == pass.loaders && stores.trace == t0 + pass.calls
      requires counts == base[req := count]
      requires DirBooks(kinds, base, count, log, stores.pending, nextRequest, req, n, log0, p0,
                        pass.started, NonEmptyCount(entries[..i]))
      modifies this`log, this`counts, stores`loaders, stores`pending, stores`trace
      ensures pass' == DirPass(Callback, config, stores.bundleFiles, l0, entries[..i + 1])
      ensures stores.loaders == pass'.loaders && stores.trace == t0 + pass'.calls
      ensures counts == base[req := count']
      ensures DirBooks(kinds, base, count', log, stores.pending, nextRequest, req, n, log0, p0,
                       pass'.started, NonEmptyCount(entries[..i + 1]))
    {
      NonEmptyCountStep(entries, i);
      NonEmptyCountPrefix(entries, i + 1);
      count', pass' := count, pass;
      if entries[i] != "" {
        var path := EntryOf(config, entries[i]).BundlePath();
        ghost var ops := stores.pending;
        var deferred;
        deferred, pass' := VisitCallback(entries, i, req, l0, t0, pass);
        count' := CountEntry(deferred, path, req, n, base, count, log0, p0, ops, pass.started, pass'.started,
                             NonEmptyCount(entries[..i]), NonEmptyCount(entries[..i + 1]));
      } else {
        DirPassStep(Callback, config, stores.bundleFiles, l0, entries, i);
      }
    }

    /**
     * The count kept for one non-empty entry of the callback walk: a
     * deferred entry owes the callback of its open, any other is counted
     * at once, and the count reaching `n` fires the request's callback.
     */
    method CountEntry(
      deferred: bool, path: string, req: nat, n: nat, base: map<nat, nat>, count: nat,
      ghost log0: seq<Invocation>, ghost p0: seq<PendingOp>, ghost ops: seq<PendingOp>,
      ghost started: seq<string>, ghost started': seq<string>, ghost done: nat, ghost done': nat)
      returns (count': nat)
      requires counts == base[req := count] && done' == done + 1 && done' <= n
      requires DirBooks(kinds, base, count, log, ops, nextRequest, req, n, log0, p0, started, done)
      requires stores.pending == if deferred then ops + [AwaitOpen(path, CountDirEntry(req))] else ops
      requires started' == if deferred then started + [path] else started
      modifies this`log, this`counts
      ensures count' == if deferred then count else count + 1
      ensures counts == base[req := count']
      ensures old(log) <= log
      ensures DirBooks(kinds, base, count', log, stores.pending, nextRequest, req, n, log0, p0, started', done')
    {
      count' := count;
      if deferred {
        DirBooksDefer(kinds, base, count, log, ops, nextRequest, req, n, log0, p0, started, done,
                      path, stores.pending, started', done');
      } else {
        ghost var log1 := log;
        count' := count + 1;
        counts := base[req := count'];
        if count' >= n {
          log := log + [DirectoryDone(req)];
        }
        DirBooksCount(kinds, base, count, log1, ops, nextRequest, req, n, log0, p0, started, done,
                      count', log, done');
      }
    }

    /**
     * `LoadDirAsync`: the callback directory load. An illegal descriptor
     * completes at once; a Resources directory is unsupported and never
     * completes; a bundle directory completes exactly once, when every
     * non-empty entry has been counted, or at once if there is none.
     */
    method LoadDirAsync(name: string, mode: AccessMode) returns (req: nat)
      requires Valid()
      modifies this, stores`loaders, stores`pending, stores`trace
      ensures Valid()
      ensures req == old(nextRequest) && nextRequest == req + 1
      ensures var info := Resolve(name, mode);
        !IsLegal(info) ==>
          && kinds == old(kinds)[req := Directory(0)] && counts == old(counts)[req := 0]
          && log == old(log) + [DirectoryDone(req)]
          && stores.loaders == old(stores.loaders) && stores.pending == old(stores.pending)
          && stores.trace == old(stores.trace)
      ensures var info := Resolve(name, mode);
        info.assetType == Resource ==>
          && kinds == old(kinds)[req := Unsupported] && counts == old(counts)[req := 0]
          && log == old(log)
          && stores.loaders == old(stores.loaders) && stores.pending == old(stores.pending)
          && stores.trace == old(stores.trace)
      ensures var info := Resolve(name, mode);
        IsLegal(info) && info.assetType == AssetBundle ==>
          var n := NonEmptyCount(info.assetPath.value);
          var r := DirPass(Callback, config, stores.bundleFiles, old(stores.loaders), info.assetPath.value);
          && kinds == old(kinds)[req := Directory(n)]
          && req in counts && counts == old(counts)[req := counts[req]] && counts[req] + |r.started| == n
          && stores.loaders == r.loaders && stores.trace == old(stores.trace) + r.calls
          && stores.pending == old(stores.pending) + DirWaits(r.started, req)
          && log == old(log) + (if r.started == [] then [DirectoryDone(req)] else [])
    {
      req := nextRequest;
      var info := Resolve(name, mode);
      if !IsLegal(info) {
        Issue(kinds, counts, log, stores.pending, nextRequest, Directory(0), 0);
        kinds, counts, nextRequest := kinds[req := Directory(0)], counts[req := 0], nextRequest + 1;
        Invoke(kinds, counts, log, stores.pending, nextRequest, req, DirectoryDone(req));
        log := log + [DirectoryDone(req)];
        Settle(kinds, counts, log, stores.pending, nextRequest, req);
      } else if info.assetType == Resource {
        Issue(kinds, counts, log, stores.pending, nextRequest, Unsupported, 0);
        kinds, counts, nextRequest := kinds[req := Unsupported], counts[req := 0], nextRequest + 1;
        Settle(kinds, counts, log, stores.pending, nextRequest, req);
      } else {
        StartBundleDir(info.assetPath.value);
      }
    }

    /** The bundle branch of `LoadDirAsync`, over the directory's path list. */
    method StartBundleDir(entries: seq<string>)
      requires Valid()
      modifies this, stores`loaders, stores`pending, stores`trace
      ensures Valid()
      ensures nextRequest == old(nextRequest) + 1
      ensures var req, n := old(nextRequest), NonEmptyCount(entries);
        var r := DirPass(Callback, config, stores.bundleFiles, old(stores.loaders), entries);
        && kinds == old(kinds)[req := Directory(n)]
        && req in counts && counts == old(counts)[req := counts[req]] && counts[req] + |r.started| == n
        && stores.loaders == r.loaders && stores.trace == old(stores.trace) + r.calls
        && stores.pending == old(stores.pending) + DirWaits(r.started, req)
        && log == old(log) + (if r.started == [] then [DirectoryDone(req)] else [])
    {
      var req := nextRequest;
      var n := NonEmptyCount(entries);
      var base := counts;
      kinds, counts, nextRequest := kinds[req := Directory(n)], counts[req := 0], nextRequest + 1;
      if n == 0 {
        log := log + [DirectoryDone(req)];
      }
      DirBooksOpen(old(kinds), base, old(log), stores.pending, req, n, kinds, counts, log, nextRequest);
      var count := WalkCallback(entries, req, n, base, old(log));
    }

    /**
     * `Unload`: the blocking unload of the local and the remote container
     * and of the Resources key, each when its lookup is legal.
     */
    method Unload(name: string, full: bool)
      modifies stores`loaders, stores`resident, stores`trace
      ensures var paths := UnloadTargets(config, tables, name);
        && stores.loaders == old(stores.loaders) - (set p | p in paths)
        && stores.resident == (match UnloadKey(tables, name)
                               case Some(key) => old(stores.resident) - {key}
                               case None => old(stores.resident))
        && stores.trace == old(stores.trace) + UnloadCalls(paths, full)
                           + (match UnloadKey(tables, name) case Some(key) => [ResUnload(key)] case None => [])
    {
      UnloadBundles(name, full);
      var res := FromResource(tables, name);
      if IsLegal(res) {
        stores.UnloadResource(res.assetPath.value[0]);
      }
    }

    /** The bundle half of `Unload`: the local, then the remote container, each when its lookup is legal. */
    method UnloadBundles(name: string, full: bool)
      modifies stores`loaders, stores`trace
      ensures var paths := UnloadTargets(config, tables, name);
        && stores.loaders == old(stores.loaders) - (set p | p in paths)
        && stores.trace == old(stores.trace) + UnloadCalls(paths, full)
    {
      ghost var l0, t0 := stores.loaders, stores.trace;
      ghost var paths := UnloadTargets(config, tables, name);
      UnloadTargetsLegal(config, tables, name);
      var ab := FromAssetBundle(config, tables, name, false);
      if IsLegal(ab) {
        stores.UnloadBundle(ab.assetBundlePath.value, full);
      }
      var abRemote := FromAssetBundle(config, tables, name, true);
      if IsLegal(abRemote) {
        stores.UnloadBundle(abRemote.assetBundlePath.value, full);
      }
      if paths != [] {
        assert UnloadCalls(paths, full) == [BundleUnload(paths[0], full), BundleUnload(paths[1], full)];
        assert stores.loaders == l0 - (set p | p in paths);
      } else {
        assert UnloadCalls(paths, full) == [];
        assert stores.loaders == l0 - (set p | p in paths);
      }
    }

    /**
     * `UnloadAsync`: the asynchronous unload of the local and the remote
     * container. The caller's callback is registered with each: it is owed
     * once per container, and never when no bundle lookup is legal.
     */
    method UnloadAsync(name: string, full: bool) returns (req: nat)
      requires Valid()
      modifies this, stores`pending, stores`trace
      ensures Valid()
      ensures req == old(nextRequest) && nextRequest == req + 1
      ensures var paths := UnloadTargets(config, tables, name);
        && kinds == old(kinds)[req := UnloadAll(|paths|)] && counts == old(counts)[req := 0]
        && log == old(log)
        && stores.pending == old(stores.pending) + UnloadWaits(paths, full, req)
        && stores.trace == old(stores.trace) + AsyncUnloadCalls(paths, full)
        && PendingFor(stores.pending, req) == |paths|
    {
      req := nextRequest;
      var paths := UnloadTargets(config, tables, name);
      kinds, counts, nextRequest := kinds[req := UnloadAll(|paths|)], counts[req := 0], nextRequest + 1;
      UnloadBundlesAsync(name, full, req);
      StartUnloads(old(kinds), old(counts), log, old(stores.pending), req, paths, full,
                   kinds, counts, stores.pending, nextRequest);
    }

    /** The two store calls of `UnloadAsync`, each registering the request's callback. */
    method UnloadBundlesAsync(name: string, full: bool, req: nat)
      modifies stores`pending, stores`trace
      ensures var paths := UnloadTargets(config, tables, name);
        && stores.pending == old(stores.pending) + UnloadWaits(paths, full, req)
        && stores.trace == old(stores.trace) + AsyncUnloadCalls(paths, full)
    {
      ghost var paths := UnloadTargets(config, tables, name);
      ghost var p0, t0 := stores.pending, stores.trace;
      var ab := FromAssetBundle(config, tables, name, false);
      if IsLegal(ab) {
        stores.UnloadBundleAsync(ab.assetBundlePath.value, full, req);
      }
      var abRemote := FromAssetBundle(config, tables, name, true);
      if IsLegal(abRemote) {
        stores.UnloadBundleAsync(abRemote.assetBundlePath.value, full, req);
      }
      if paths != [] {
        assert UnloadWaits(paths, full, req) == [AwaitUnload(paths[0], full, req), AwaitUnload(paths[1], full, req)];
        assert AsyncUnloadCalls(paths, full) == [BundleUnloadAsync(paths[0], full), BundleUnloadAsync(paths[1], full)];
      } else {
        assert p0 + UnloadWaits(paths, full, req) == p0;
        assert t0 + AsyncUnloadCalls(paths, full) == t0;
      }
    }

    /**
     * The values `GetLoadProgress(name)` reads, in order: the Resources
     * key's progress when that lookup is legal, then the bundle store's
     * progress for the local and the remote container path ("" when the
     * lookup is illegal).
     */
    function ProgressInputs(name: string): (vs: seq<real>)
      ensures |vs| == 2 || |vs| == 3
      ensures vs[|vs| - 1] == stores.BundleProgress(
        if name in tables.bundles && tables.bundles[name].assetPath.Some?
        then config.remotePrefix + tables.bundles[name].abName.GetOr("") else "")
    {
      var ab := FromAssetBundle(config, tables, name, false);
      var abRemote := FromAssetBundle(config, tables, name, true);
      var res := FromResource(tables, name);
      (if IsLegal(res) then [stores.ResourceProgress(res.assetPath.value[0])] else [])
        + [stores.BundleProgress(if IsLegal(ab) then ab.assetBundlePath.value else ""),
           stores.BundleProgress(if IsLegal(abRemote) then abRemote.assetBundlePath.value else "")]
    }

    /**
     * `GetLoadProgress(name)`: the least progress among the stores that
     * track a load for the name, or 0 when none does.
     */
    method GetLoadProgress(name: string) returns (progress: real)
      ensures IsAggregate(ProgressInputs(name), progress)
    {
      progress := Sentinel;
      var assetBundlePath, assetBundlePathRemote := "", "";
      var ab := FromAssetBundle(config, tables, name, false);
      if IsLegal(ab) {
        assetBundlePath := ab.assetBundlePath.value;
      }
      var abRemote := FromAssetBundle(config, tables, name, true);
      if IsLegal(abRemote) {
        assetBundlePathRemote := abRemote.assetBundlePath.value;
      }
      var res := FromResource(tables, name);
      var resProgress := 0.0;
      if IsLegal(res) {
        resProgress := stores.ResourceProgress(res.assetPath.value[0]);
        progress := MinStep(progress, resProgress);
      }
      var bundleProgress := stores.BundleProgress(assetBundlePath);
      progress := MinStep(progress, bundleProgress);
      var bundleProgressRemote := stores.BundleProgress(assetBundlePathRemote);
      progress := MinStep(progress, bundleProgressRemote);
      progress := Finish(progress);
      if IsLegal(res) {
        assert ProgressInputs(name) == [resProgress, bundleProgress, bundleProgressRemote];
        AggregateOfThree(resProgress, bundleProgress, bundleProgressRemote, progress);
      } else {
        assert ProgressInputs(name) == [bundleProgress, bundleProgressRemote];
        AggregateOfTwo(bundleProgress, bundleProgressRemote, progress);
      }
    }

    /** `GetLoadProgress()`: the same aggregate over the two stores' overall progress. */
    method GetTotalLoadProgress() returns (progress: real)
      ensures IsAggregate([stores.bundleTotalProgress, stores.resourceTotalProgress], progress)
    {
      progress := Sentinel;
      var abProgress := stores.bundleTotalProgress;
      progress := MinStep(progress, abProgress);
      var resProgress := stores.resourceTotalProgress;
      progress := MinStep(progress, resProgress);
      progress := Finish(progress);
      AggregateOfTwo(abProgress, resProgress, progress);
    }
  }
}
