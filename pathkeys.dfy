/**
 * The keys the directory loads derive from each sub-path: the sub-asset
 * name, its lower-cased container name and the local container path.
 */
module PathKeys {
  import opened Resolver

  /** Lower-casing of one character, for the ASCII letters. */
  function LowerChar(c: char): char {
    if 'A' <= c <= 'Z' then (c as int + 32) as char else c
  }

  /** `string.ToLower()`, restricted to ASCII letters. */
  function ToLower(s: string): (r: string)
    ensures |r| == |s|
    ensures forall i :: 0 <= i < |s| ==> r[i] == LowerChar(s[i])
    ensures forall i :: 0 <= i < |r| ==> !('A' <= r[i] <= 'Z')
  {
    if s == [] then [] else [LowerChar(s[0])] + ToLower(s[1..])
  }

  /** Lower-casing twice is lower-casing once. */
  lemma ToLowerIdempotent(s: string)
    ensures ToLower(ToLower(s)) == ToLower(s)
  {
  }

  /** What one directory entry stands for: its sub-asset name, container name and container-path prefix. */
  datatype DirEntry = DirEntry(subName: string, abName: string, prefix: string) {
    /** The path the store keeps the entry's container under: prefix + container name. */
    function BundlePath(): string {
      prefix + abName
    }
  }

  /** The keys of one entry; the container name is the lower-cased sub-asset name. */
  function EntryOf(config: Config, assetPath: string): (e: DirEntry)
    ensures e.abName == ToLower(e.subName)
    ensures e.BundlePath() == config.localPrefix(config.subAssetName(assetPath)) + ToLower(config.subAssetName(assetPath))
  {
    var sub := config.subAssetName(assetPath);
    DirEntry(sub, ToLower(sub), config.localPrefix(sub))
  }

  /** The number of entries `string.IsNullOrEmpty` does not skip. */
  function NonEmptyCount(entries: seq<string>): (n: nat)
    ensures n <= |entries|
  {
    if entries == [] then 0
    else NonEmptyCount(entries[..|entries| - 1]) + (if entries[|entries| - 1] != "" then 1 else 0)
  }

  /** Every entry is counted exactly when none is empty. */
  lemma {:induction false} NonEmptyCountAll(entries: seq<string>)
    ensures NonEmptyCount(entries) == |entries| <==> forall i :: 0 <= i < |entries| ==> entries[i] != ""
    decreases |entries|
  {
    if entries != [] {
      var shorter := entries[..|entries| - 1];
      NonEmptyCountAll(shorter);
      if NonEmptyCount(entries) == |entries| {
        forall i | 0 <= i < |entries|
          ensures entries[i] != ""
        {
          if i < |shorter| {
            assert entries[i] == shorter[i];
          }
        }
      } else if entries[|entries| - 1] != "" {
        var i :| 0 <= i < |shorter| && shorter[i] == "";
        assert entries[i] == "";
      }
    }
  }

  /** Counting one more entry. */
  lemma NonEmptyCountStep(entries: seq<string>, i: nat)
    requires i < |entries|
    ensures NonEmptyCount(entries[..i + 1]) == NonEmptyCount(entries[..i]) + (if entries[i] != "" then 1 else 0)
  {
    assert entries[..i + 1][..i] == entries[..i];
  }

  /** A prefix of the entries has no more non-empty entries than the whole list. */
  lemma {:induction false} NonEmptyCountPrefix(entries: seq<string>, k: nat)
    requires k <= |entries|
    ensures NonEmptyCount(entries[..k]) <= NonEmptyCount(entries)
    decreases |entries|
  {
    if k == |entries| {
      assert entries[..k] == entries;
    } else {
      var shorter := entries[..|entries| - 1];
      assert shorter[..k] == entries[..k];
      NonEmptyCountPrefix(shorter, k);
    }
  }
}
