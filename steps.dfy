/**
 * Single steps of the load pipeline, stated on a snapshot of the bundle
 * store's loaders. Where the source's step misbehaves, the step as written
 * sits next to the one the orchestrator uses.
 */
module Steps {
  import opened Wrappers
  import opened Stores
  import opened PathKeys

  /** How a step ends: with a value, or with a `NullReferenceException`. */
  datatype Outcome = Returned(obj: Option<Obj>) | NullDereference

  /**
   * The extract-expand-extract tail of `GetAssetObject` (and of `Load`)
   * as written: on a miss it calls `Expand()` on whatever
   * `GetAssetBundleLoader` returned, which is null when no loader exists.
   */
  function ExtractOrExpandAsWritten(loaders: map<string, Loader>, path: string, key: string, kind: Kind): Outcome {
    var first := ExtractFrom(loaders, path, key, kind);
    if first.Some? then Returned(first)
    else if path !in loaders then NullDereference
    else Returned(ExtractFrom(Expanded(loaders, path), path, key, kind))
  }

  /** As written, asking for an object of a container that is not open throws. */
  lemma AsWrittenFaultsWithoutLoader(loaders: map<string, Loader>, path: string, key: string, kind: Kind)
    requires path !in loaders
    ensures ExtractOrExpandAsWritten(loaders, path, key, kind) == NullDereference
  {
  }

  /**
   * The same tail in `Load`, after an open that found no container file: as
   * written the loader is still missing and `Expand()` throws, where the
   * corrected tail gives null.
   */
  lemma AsWrittenLoadFaultsAfterFailedOpen(
    loaders: map<string, Loader>, files: map<string, BundleImage>, path: string, key: string, kind: Kind)
    requires path !in loaders && path !in files
    ensures ExtractOrExpandAsWritten(Opened(loaders, files, path), path, key, kind) == NullDereference
    ensures ExtractOrExpand(Opened(loaders, files, path), path, key, kind) == None
  {
  }

  /**
   * The tail the orchestrator uses: extract; on a miss expand the loader,
   * if there is one, and extract again; without a loader the result is null.
   */
  function ExtractOrExpand(loaders: map<string, Loader>, path: string, key: string, kind: Kind): (r: Option<Obj>)
    ensures ExtractOrExpandAsWritten(loaders, path, key, kind) != NullDereference ==>
      ExtractOrExpandAsWritten(loaders, path, key, kind) == Returned(r)
    ensures ExtractFrom(loaders, path, key, kind).Some? ==> r == ExtractFrom(loaders, path, key, kind)
    ensures path !in loaders ==> r.None?
    ensures r.Some? ==>
      && path in loaders && Matches(r.value, kind)
      && (|| (key in loaders[path].packed && r.value == loaders[path].packed[key])
          || (key in loaders[path].extractable && r.value == loaders[path].extractable[key]))
  {
    var first := ExtractFrom(loaders, path, key, kind);
    if first.Some? || path !in loaders then first
    else ExtractFrom(Expanded(loaders, path), path, key, kind)
  }

  /** Whether the corrected tail goes on to expand: the first extraction failed and a loader exists. */
  predicate NeedsExpand(loaders: map<string, Loader>, path: string, key: string, kind: Kind) {
    ExtractFrom(loaders, path, key, kind).None? && path in loaders
  }

  /**
   * Whether the already-open branch of `LoadDirAsync` (and of its coroutine)
   * goes on to `Expand()`, as written: the extraction is addressed to the
   * path prefix alone, without the container name.
   */
  function DirEntryExpandsAsWritten(loaders: map<string, Loader>, e: DirEntry): bool {
    ExtractFrom(loaders, e.prefix, e.abName, AnyType).None?
  }

  /**
   * As written, a container whose object is already extracted is expanded
   * again whenever no loader sits at the bare prefix.
   */
  lemma AsWrittenDirEntryExpandsNeedlessly(loaders: map<string, Loader>, e: DirEntry)
    requires e.prefix !in loaders
    requires Ready(loaders, e.BundlePath(), true) && e.abName in loaders[e.BundlePath()].extractable
    ensures DirEntryExpandsAsWritten(loaders, e)
    ensures ExtractFrom(loaders, e.BundlePath(), e.abName, AnyType).Some?
  {
  }

  /** The test the orchestrator uses: expand only when the checked container has not got the object. */
  function DirEntryExpands(loaders: map<string, Loader>, e: DirEntry): (r: bool)
    ensures r <==> e.BundlePath() !in loaders || e.abName !in loaders[e.BundlePath()].extractable
  {
    ExtractFrom(loaders, e.BundlePath(), e.abName, AnyType).None?
  }

  /**
   * How many times `if (++assetCount >= target) End();` fires over
   * `finished` increments.
   */
  function EndsAfter(finished: nat, target: nat): nat {
    if finished == 0 then 0
    else EndsAfter(finished - 1, target) + (if finished >= target then 1 else 0)
  }

  lemma {:induction false} EndsAfterCount(finished: nat, target: nat)
    ensures EndsAfter(finished, target) ==
      if target == 0 then finished
      else if finished >= target then finished - target + 1
      else 0
  {
    if finished > 0 {
      EndsAfterCount(finished - 1, target);
    }
  }

  /**
   * The callbacks `LoadDirAsync` makes as written, once every container load
   * it started has finished: skipped entries never increment the counter,
   * yet the counter is compared with the full length of the path list.
   */
  function DirCallbacksAsWritten(entries: seq<string>): nat {
    EndsAfter(NonEmptyCount(entries), |entries|)
  }

  /** As written, an empty entry (or an empty list) means the callback never fires. */
  lemma AsWrittenDirLoadNeverCompletes(entries: seq<string>)
    requires entries == [] || exists i :: 0 <= i < |entries| && entries[i] == ""
    ensures DirCallbacksAsWritten(entries) == 0
  {
    NonEmptyCountAll(entries);
    EndsAfterCount(NonEmptyCount(entries), |entries|);
  }

  /** As written, a list with no empty entry completes exactly once. */
  lemma AsWrittenDirLoadWithoutGaps(entries: seq<string>)
    requires entries != [] && forall i :: 0 <= i < |entries| ==> entries[i] != ""
    ensures DirCallbacksAsWritten(entries) == 1
  {
    NonEmptyCountAll(entries);
    EndsAfterCount(NonEmptyCount(entries), |entries|);
  }

  /**
   * The callbacks of the directory load the orchestrator uses: the counter
   * is compared with the number of entries it will count, and a list with
   * nothing to load completes at once.
   */
  function DirCallbacks(entries: seq<string>): nat {
    var n := NonEmptyCount(entries);
    if n == 0 then 1 else EndsAfter(n, n)
  }

  /** Every directory load completes exactly once. */
  lemma DirLoadCompletesOnce(entries: seq<string>)
    ensures DirCallbacks(entries) == 1
  {
    var n := NonEmptyCount(entries);
    if n > 0 {
      EndsAfterCount(n, n);
    }
  }
}
