/**
 * The two external stores, `ResourcesManager` and `AssetBundleManager`, as
 * abstract state: resident Resources objects, container loaders with a
 * content flag and dependency counters, the objects each open container
 * can hand out, the callbacks registered by asynchronous requests, the
 * progress values they report, and a ghost trace of the calls made on them.
 */
module Stores {
  import opened Wrappers

  /** An engine object: an identity and its runtime type name. */
  datatype Obj = Obj(id: nat, typeName: string)

  /** The type a typed request asks for (`T`, a `System.Type`), or any `Object`. */
  datatype Kind = AnyType | OfType(typeName: string)

  predicate Matches(o: Obj, kind: Kind) {
    kind.AnyType? || o.typeName == kind.typeName
  }

  /** A store lookup seen through the requested type: a mismatch reads as null. */
  function Typed(o: Option<Obj>, kind: Kind): (r: Option<Obj>)
    ensures r.Some? <==> o.Some? && Matches(o.value, kind)
    ensures r.Some? ==> r == o
  {
    if o.Some? && Matches(o.value, kind) then o else None
  }

  /**
   * A container as an open would find it: the leaf objects the open itself
   * makes extractable, the ones only `Expand` materialises, and how many
   * dependencies it declares.
   */
  datatype BundleImage = BundleImage(loaded: map<string, Obj>, objects: map<string, Obj>, dependencies: nat)

  /**
   * An `AssetBundleLoader`: whether its content is loaded, its dependency
   * counters (`GetDependentNamesLoadFinished`, `AddDependentNames`), the
   * objects already extracted and the ones `Expand` materialises.
   */
  datatype Loader = Loader(
    hasContent: bool,
    dependenciesLoaded: nat,
    dependenciesTotal: nat,
    extractable: map<string, Obj>,
    packed: map<string, Obj>)

  /**
   * The orchestrator's readiness test: a loader, with content, and (when
   * asked) no fewer finished dependencies than declared ones.
   */
  predicate Ready(loaders: map<string, Loader>, path: string, checkDependencies: bool) {
    && path in loaders
    && loaders[path].hasContent
    && (!checkDependencies || loaders[path].dependenciesLoaded >= loaders[path].dependenciesTotal)
  }

  /** `AssetBundleManager.GetAssetObject(path, key, type)`: null unless extracted and of the type. */
  function ExtractFrom(loaders: map<string, Loader>, path: string, key: string, kind: Kind): (r: Option<Obj>)
    ensures r.Some? ==>
      path in loaders && key in loaders[path].extractable
      && r.value == loaders[path].extractable[key] && Matches(r.value, kind)
    ensures path !in loaders ==> r.None?
  {
    if path in loaders && key in loaders[path].extractable then
      Typed(Some(loaders[path].extractable[key]), kind)
    else
      None
  }

  /** Opening a container: a fresh, dependency-complete loader if the container exists; nothing otherwise. */
  function Opened(loaders: map<string, Loader>, files: map<string, BundleImage>, path: string): (r: map<string, Loader>)
    ensures path in files ==>
      && path in r && Ready(r, path, true)
      && r[path].extractable == files[path].loaded && r[path].packed == files[path].objects
    ensures path !in files ==> r == loaders
    ensures forall p | p in loaders && p != path :: p in r && r[p] == loaders[p]
    ensures forall p | p in r && p != path :: p in loaders
  {
    if path in files then
      var d := files[path].dependencies;
      loaders[path := Loader(true, d, d, files[path].loaded, files[path].objects)]
    else
      loaders
  }

  /** `AssetBundleLoader.Expand()`: every packed object becomes extractable. */
  function Expanded(loaders: map<string, Loader>, path: string): (r: map<string, Loader>)
    requires path in loaders
    ensures path in r && r[path].extractable.Keys == loaders[path].extractable.Keys + loaders[path].packed.Keys
    ensures forall k | k in loaders[path].packed :: r[path].extractable[k] == loaders[path].packed[k]
    ensures forall p | p != path :: (p in r <==> p in loaders) && (p in r ==> r[p] == loaders[p])
    ensures Ready(r, path, true) == Ready(loaders, path, true) && Ready(r, path, false) == Ready(loaders, path, false)
  {
    var l := loaders[path];
    loaders[path := l.(extractable := l.extractable + l.packed)]
  }

  /** A resolved request waiting inside a store for a load to finish. */
  datatype Continuation =
    /** The orchestrator's lambda: extract the object, then invoke the caller's callback with it. */
    | EndWithObject(req: nat, path: string, key: string, kind: Kind)
    /** The directory load's lambda: count one finished entry. */
    | CountDirEntry(req: nat)

  /** An asynchronous store operation in flight, with the callback it will invoke. */
  datatype PendingOp =
    | AwaitOpen(path: string, continuation: Continuation)
    | AwaitResource(key: string, kind: Kind, callback: nat)
    | AwaitUnload(path: string, full: bool, callback: nat)

  /** The request whose callback a pending operation will invoke. */
  function OpRequest(op: PendingOp): nat {
    match op
    case AwaitOpen(_, c) => c.req
    case AwaitResource(_, _, cb) => cb
    case AwaitUnload(_, _, cb) => cb
  }

  /** A call the orchestrator makes on a store that changes or materialises something. */
  datatype StoreCall =
    | ResLoad(key: string)
    | ResLoadAsync(key: string)
    | ResLoadStepwise(key: string)
    | ResUnload(key: string)
    | BundleOpen(path: string)
    | BundleOpenAsync(path: string)
    | BundleOpenStepwise(path: string)
    | Extract(path: string, key: string)
    | Expand(path: string)
    | BundleUnload(path: string, full: bool)
    | BundleUnloadAsync(path: string, full: bool)

  /** The Resources store after loading `key`: resident if the asset exists. */
  function ResourceLoaded(resident: map<string, Obj>, files: map<string, Obj>, key: string): (r: map<string, Obj>)
    ensures key in files ==> key in r && r[key] == files[key]
    ensures forall k | k != key :: (k in r <==> k in resident) && (k in r ==> r[k] == resident[k])
    ensures key !in files ==> r == resident
  {
    if key in files then resident[key := files[key]] else resident
  }

  /** What a Resources load hands back: the asset, seen through the requested type. */
  function ResourceResult(files: map<string, Obj>, key: string, kind: Kind): Option<Obj> {
    if key in files then Typed(Some(files[key]), kind) else None
  }

  class Stores {
    /** `ResourcesManager`: the objects it holds, by key. */
    var resident: map<string, Obj>
    /** The assets a Resources load can find. */
    const resourceFiles: map<string, Obj>
    /** `AssetBundleManager`: its loaders, by full container path. */
    var loaders: map<string, Loader>
    /** The containers an open can find, by full container path. */
    const bundleFiles: map<string, BundleImage>
    /** Asynchronous operations in flight, each holding the callback it will invoke. */
    var pending: seq<PendingOp>
    /** The per-key and global progress values the stores report (-1: no such load). */
    const resourceProgress: map<string, real>
    const bundleProgress: map<string, real>
    const resourceTotalProgress: real
    const bundleTotalProgress: real
    /** Every call made on the stores, in order. */
    ghost var trace: seq<StoreCall>

    constructor (
      resident: map<string, Obj>, resourceFiles: map<string, Obj>,
      loaders: map<string, Loader>, bundleFiles: map<string, BundleImage>,
      resourceProgress: map<string, real>, bundleProgress: map<string, real>,
      resourceTotalProgress: real, bundleTotalProgress: real)
      ensures this.resident == resident && this.resourceFiles == resourceFiles
      ensures this.loaders == loaders && this.bundleFiles == bundleFiles
      ensures this.resourceProgress == resourceProgress && this.bundleProgress == bundleProgress
      ensures this.resourceTotalProgress == resourceTotalProgress && this.bundleTotalProgress == bundleTotalProgress
      ensures pending == [] && trace == []
    {
      this.resident := resident;
      this.resourceFiles := resourceFiles;
      this.loaders := loaders;
      this.bundleFiles := bundleFiles;
      this.resourceProgress := resourceProgress;
      this.bundleProgress := bundleProgress;
      this.resourceTotalProgress := resourceTotalProgress;
      this.bundleTotalProgress := bundleTotalProgress;
      pending := [];
      trace := [];
    }

    /** `ResourcesManager.GetResouceObject(key, type)`: a resident object of the type, or null. */
    function ResidentObject(key: string, kind: Kind): (r: Option<Obj>)
      reads this`resident
      ensures r.Some? <==> key in resident && Matches(resident[key], kind)
      ensures r.Some? ==> r.value == resident[key]
    {
      if key in resident then Typed(Some(resident[key]), kind) else None
    }

    /** `ResourcesManager.GetLoadProgress(key)`. */
    function ResourceProgress(key: string): real {
      if key in resourceProgress then resourceProgress[key] else -1.0
    }

    /** `AssetBundleManager.GetLoadProgress(path)`. */
    function BundleProgress(path: string): real {
      if path in bundleProgress then bundleProgress[path] else -1.0
    }

    /** `ResourcesManager.Load(key, type)`. */
    method LoadResource(key: string, kind: Kind) returns (o: Option<Obj>)
      modifies this`resident, this`trace
      ensures resident == ResourceLoaded(old(resident), resourceFiles, key)
      ensures o == ResourceResult(resourceFiles, key, kind)
      ensures trace == old(trace) + [ResLoad(key)]
    {
      resident := ResourceLoaded(resident, resourceFiles, key);
      o := ResourceResult(resourceFiles, key, kind);
      trace := trace + [ResLoad(key)];
    }

    /** `ResourcesManager.LoadAsync(key, type, callback)`: registers the callback. */
    method LoadResourceAsync(key: string, kind: Kind, callback: nat)
      modifies this`pending, this`trace
      ensures pending == old(pending) + [AwaitResource(key, kind, callback)]
      ensures trace == old(trace) + [ResLoadAsync(key)]
    {
      pending := pending + [AwaitResource(key, kind, callback)];
      trace := trace + [ResLoadAsync(key)];
    }

    /** `ResourcesManager.LoadAsyncCoroutine(key)`, driven to its end by the scheduler. */
    method LoadResourceStepwise(key: string)
      modifies this`resident, this`trace
      ensures resident == ResourceLoaded(old(resident), resourceFiles, key)
      ensures trace == old(trace) + [ResLoadStepwise(key)]
    {
      resident := ResourceLoaded(resident, resourceFiles, key);
      trace := trace + [ResLoadStepwise(key)];
    }

    /** `ResourcesManager.Unload(key)`. */
    method UnloadResource(key: string)
      modifies this`resident, this`trace
      ensures resident == old(resident) - {key}
      ensures trace == old(trace) + [ResUnload(key)]
    {
      resident := resident - {key};
      trace := trace + [ResUnload(key)];
    }

    /** `AssetBundleManager.Load(name, ref info)`: opens the container at `path`. */
    method Open(path: string)
      modifies this`loaders, this`trace
      ensures loaders == Opened(old(loaders), bundleFiles, path)
      ensures trace == old(trace) + [BundleOpen(path)]
    {
      loaders := Opened(loaders, bundleFiles, path);
      trace := trace + [BundleOpen(path)];
    }

    /** `AssetBundleManager.LoadAsync(name, info, callback)`: registers the continuation. */
    method OpenAsync(path: string, continuation: Continuation)
      modifies this`pending, this`trace
      ensures pending == old(pending) + [AwaitOpen(path, continuation)]
      ensures trace == old(trace) + [BundleOpenAsync(path)]
    {
      pending := pending + [AwaitOpen(path, continuation)];
      trace := trace + [BundleOpenAsync(path)];
    }

    /** `AssetBundleManager.LoadAsyncCoroutine(name, info)`, driven to its end by the scheduler. */
    method OpenStepwise(path: string)
      modifies this`loaders, this`trace
      ensures loaders == Opened(old(loaders), bundleFiles, path)
      ensures trace == old(trace) + [BundleOpenStepwise(path)]
    {
      loaders := Opened(loaders, bundleFiles, path);
      trace := trace + [BundleOpenStepwise(path)];
    }

    /** `AssetBundleManager.GetAssetObject(path, key, type)`. */
    method ExtractObject(path: string, key: string, kind: Kind) returns (o: Option<Obj>)
      modifies this`trace
      ensures o == ExtractFrom(loaders, path, key, kind)
      ensures trace == old(trace) + [Extract(path, key)]
    {
      o := ExtractFrom(loaders, path, key, kind);
      trace := trace + [Extract(path, key)];
    }

    /** `AssetBundleLoader.Expand()` on the loader of `path`. */
    method ExpandLoader(path: string)
      requires path in loaders
      modifies this`loaders, this`trace
      ensures loaders == Expanded(old(loaders), path)
      ensures trace == old(trace) + [Expand(path)]
    {
      loaders := Expanded(loaders, path);
      trace := trace + [Expand(path)];
    }

    /** `AssetBundleManager.Unload(path, unloadAllLoadedObjects)`. */
    method UnloadBundle(path: string, full: bool)
      modifies this`loaders, this`trace
      ensures loaders == old(loaders) - {path}
      ensures trace == old(trace) + [BundleUnload(path, full)]
    {
      loaders := loaders - {path};
      trace := trace + [BundleUnload(path, full)];
    }

    /** `AssetBundleManager.UnloadAsync(path, unloadAllLoadedObjects, callback)`: registers the callback. */
    method UnloadBundleAsync(path: string, full: bool, callback: nat)
      modifies this`pending, this`trace
      ensures pending == old(pending) + [AwaitUnload(path, full, callback)]
      ensures trace == old(trace) + [BundleUnloadAsync(path, full)]
    {
      pending := pending + [AwaitUnload(path, full, callback)];
      trace := trace + [BundleUnloadAsync(path, full)];
    }
  }
}
