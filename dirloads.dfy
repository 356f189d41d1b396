/**
 * What one pass of a directory load does to the bundle store, entry by
 * entry. The three directory loads share the walk: skip empty entries,
 * derive the entry's container path, start a load of a container that is
 * not ready, and (except for the blocking load) extract from a ready one,
 * expanding it first when the object is missing.
 */
module DirLoads {
  import opened Wrappers
  import opened Resolver
  import opened PathKeys
  import opened Stores
  import opened Steps

  /** Which directory load walks the entries. */
  datatype DirMode =
    /** `LoadDir`: open with the blocking call; checks content only; never extracts. */
    | Blocking
    /** `LoadDirAsync`: start an asynchronous open; checks dependencies too. */
    | Callback
    /** `LoadDirAsyncCoroutine`: open step-wise in place; checks dependencies too. */
    | Stepwise

  /** The state after part of a pass: the loaders, the containers whose load it started, the calls made. */
  datatype Pass = Pass(loaders: map<string, Loader>, started: seq<string>, calls: seq<StoreCall>)

  /** The container path a directory entry is kept under. */
  function EntryPath(config: Config, assetPath: string): string {
    EntryOf(config, assetPath).BundlePath()
  }

  /** One non-empty entry. */
  function DirStep(mode: DirMode, files: map<string, BundleImage>, before: Pass, e: DirEntry): Pass {
    var path := e.BundlePath();
    if !Ready(before.loaders, path, mode != Blocking) then
      match mode
      case Blocking => Pass(Opened(before.loaders, files, path), before.started + [path], before.calls + [BundleOpen(path)])
      case Callback => Pass(before.loaders, before.started + [path], before.calls + [BundleOpenAsync(path)])
      case Stepwise => Pass(Opened(before.loaders, files, path), before.started + [path], before.calls + [BundleOpenStepwise(path)])
    else if mode == Blocking then before
    else
      var expands := DirEntryExpands(before.loaders, e);
      Pass(
        if expands then Expanded(before.loaders, path) else before.loaders,
        before.started,
        before.calls + [Extract(path, e.abName)] + (if expands then [Expand(path)] else []))
  }

  /** A step touches only the entry's own container. */
  lemma DirStepFrame(mode: DirMode, files: map<string, BundleImage>, before: Pass, e: DirEntry, q: string)
    requires q != e.BundlePath()
    ensures var after := DirStep(mode, files, before, e);
      (q in after.loaders <==> q in before.loaders) && (q in after.loaders ==> after.loaders[q] == before.loaders[q])
  {
  }

  /** A step depends on the state before it only through the loaders; it appends to the rest. */
  lemma DirStepShift(mode: DirMode, files: map<string, BundleImage>, before: Pass, e: DirEntry)
    ensures var x := DirStep(mode, files, Pass(before.loaders, [], []), e);
      DirStep(mode, files, before, e) == Pass(x.loaders, before.started + x.started, before.calls + x.calls)
  {
  }

  /** The pass over every entry, in order. */
  function DirPass(
    mode: DirMode, config: Config, files: map<string, BundleImage>,
    loaders: map<string, Loader>, entries: seq<string>): Pass
    decreases |entries|
  {
    if entries == [] then Pass(loaders, [], [])
    else
      var before := DirPass(mode, config, files, loaders, entries[..|entries| - 1]);
      var p := entries[|entries| - 1];
      if p == "" then before else DirStep(mode, files, before, EntryOf(config, p))
  }

  /** The pass over one more entry. */
  lemma DirPassStep(
    mode: DirMode, config: Config, files: map<string, BundleImage>,
    loaders: map<string, Loader>, entries: seq<string>, i: nat)
    requires i < |entries|
    ensures DirPass(mode, config, files, loaders, entries[..i + 1]) ==
      var before := DirPass(mode, config, files, loaders, entries[..i]);
      if entries[i] == "" then before else DirStep(mode, files, before, EntryOf(config, entries[i]))
  {
    assert entries[..i + 1][..i] == entries[..i];
  }

  /** Each entry starts at most one load. */
  lemma {:induction false} DirPassStartedBound(
    mode: DirMode, config: Config, files: map<string, BundleImage>,
    loaders: map<string, Loader>, entries: seq<string>)
    ensures |DirPass(mode, config, files, loaders, entries).started| <= NonEmptyCount(entries)
    decreases |entries|
  {
    if entries != [] {
      DirPassStartedBound(mode, config, files, loaders, entries[..|entries| - 1]);
    }
  }

  /** A container no entry names is left alone. */
  lemma {:induction false} DirPassFrame(
    mode: DirMode, config: Config, files: map<string, BundleImage>,
    loaders: map<string, Loader>, entries: seq<string>, q: string)
    requires forall j | 0 <= j < |entries| && entries[j] != "" :: EntryPath(config, entries[j]) != q
    ensures var r := DirPass(mode, config, files, loaders, entries).loaders;
      (q in r <==> q in loaders) && (q in r ==> r[q] == loaders[q])
    decreases |entries|
  {
    if entries != [] {
      var init := entries[..|entries| - 1];
      assert forall j | 0 <= j < |init| :: init[j] == entries[j];
      DirPassFrame(mode, config, files, loaders, init, q);
      var last := entries[|entries| - 1];
      if last != "" {
        DirStepFrame(mode, files, DirPass(mode, config, files, loaders, init), EntryOf(config, last), q);
      }
    }
  }

  /** A step of the blocking or step-wise walk never makes a ready container unready. */
  lemma DirStepKeepsReady(
    mode: DirMode, files: map<string, BundleImage>, before: Pass, e: DirEntry, q: string, deps: bool)
    requires mode != Callback
    requires Ready(before.loaders, q, deps)
    ensures Ready(DirStep(mode, files, before, e).loaders, q, deps)
  {
  }

  /**
   * After the blocking or step-wise walk, the container of every non-empty
   * entry that exists is ready (with its dependencies, for the step-wise one).
   */
  lemma {:induction false} DirPassOpensEveryEntry(
    mode: DirMode, config: Config, files: map<string, BundleImage>,
    loaders: map<string, Loader>, entries: seq<string>, j: nat)
    requires mode != Callback
    requires j < |entries| && entries[j] != "" && EntryPath(config, entries[j]) in files
    ensures Ready(DirPass(mode, config, files, loaders, entries).loaders, EntryPath(config, entries[j]), mode == Stepwise)
    decreases |entries|
  {
    var init := entries[..|entries| - 1];
    var before := DirPass(mode, config, files, loaders, init);
    var last := entries[|entries| - 1];
    var q := EntryPath(config, entries[j]);
    if j < |entries| - 1 {
      assert init[j] == entries[j];
      DirPassOpensEveryEntry(mode, config, files, loaders, init, j);
      if last != "" {
        DirStepKeepsReady(mode, files, before, EntryOf(config, last), q, mode == Stepwise);
      }
    }
  }

  /** The callback walk changes no container's readiness: it only expands. */
  lemma {:induction false} DirPassCallbackReadiness(
    config: Config, files: map<string, BundleImage>,
    loaders: map<string, Loader>, entries: seq<string>, q: string, deps: bool)
    ensures Ready(DirPass(Callback, config, files, loaders, entries).loaders, q, deps) == Ready(loaders, q, deps)
    decreases |entries|
  {
    if entries != [] {
      DirPassCallbackReadiness(config, files, loaders, entries[..|entries| - 1], q, deps);
    }
  }

  /**
   * The callback walk starts no load exactly when the container of every
   * non-empty entry is ready, dependencies included, at the outset.
   */
  lemma {:induction false} DirPassCallbackNothingStarted(
    config: Config, files: map<string, BundleImage>,
    loaders: map<string, Loader>, entries: seq<string>)
    ensures DirPass(Callback, config, files, loaders, entries).started == [] <==>
      forall j | 0 <= j < |entries| && entries[j] != "" :: Ready(loaders, EntryPath(config, entries[j]), true)
    decreases |entries|
  {
    if entries != [] {
      var init := entries[..|entries| - 1];
      var last := entries[|entries| - 1];
      assert forall j | 0 <= j < |init| :: init[j] == entries[j];
      DirPassCallbackNothingStarted(config, files, loaders, init);
      DirPassCallbackReadiness(config, files, loaders, init, EntryPath(config, last), true);
    }
  }

  /** The blocking walk over containers that are all open already changes nothing and calls nothing. */
  lemma {:induction false} DirPassBlockingCacheFirst(
    config: Config, files: map<string, BundleImage>,
    loaders: map<string, Loader>, entries: seq<string>)
    requires forall j | 0 <= j < |entries| && entries[j] != "" :: Ready(loaders, EntryPath(config, entries[j]), false)
    ensures DirPass(Blocking, config, files, loaders, entries) == Pass(loaders, [], [])
    decreases |entries|
  {
    if entries != [] {
      var init := entries[..|entries| - 1];
      assert forall j | 0 <= j < |init| :: init[j] == entries[j];
      DirPassBlockingCacheFirst(config, files, loaders, init);
    }
  }
}
