/**
 * The location descriptor (`AssetManager.AssetInfo`) and its legality check.
 *
 * An `AssetInfo` is an immutable struct. Its reference-typed fields may be
 * null, which the model writes as `None`. The default struct
 * (`new AssetInfo()`) has type NONE and every field null.
 */
module Descriptor {
  import opened Wrappers

  /** `AssetTypeEnum`: which store serves the asset; `Untyped` is the source's NONE. */
  datatype AssetType = Untyped | Resource | AssetBundle

  datatype AssetInfo = AssetInfo(
    assetType: AssetType,
    /** `AssetPath`: the project-relative asset paths (a null array is `None`). */
    assetPath: Option<seq<string>>,
    /** `AssetBundlePath`: the full container path. */
    assetBundlePath: Option<string>,
    /** `AbName`: the short container name. */
    abName: Option<string>)

  /** The default struct `new AssetInfo()`: type NONE, every field null. */
  const Unresolved: AssetInfo := AssetInfo(Untyped, None, None, None)

  /**
   * C#'s `+` on two strings, either of which may be null: a null operand
   * contributes nothing, so the result is never null.
   */
  function Concat(a: Option<string>, b: Option<string>): (r: string)
    ensures |r| == |a.GetOr("")| + |b.GetOr("")|
    ensures r[..|a.GetOr("")|] == a.GetOr("") && r[|a.GetOr("")|..] == b.GetOr("")
  {
    a.GetOr("") + b.GetOr("")
  }

  /**
   * The four-argument constructor: the container path is the prefix
   * followed by the container name; every other field is stored as given.
   */
  function MakeInfo(
    assetType: AssetType,
    assetPath: Option<seq<string>>,
    assetBundlePathWithoutAb: Option<string>,
    abName: Option<string>): (r: AssetInfo)
    ensures r.assetType == assetType && r.assetPath == assetPath && r.abName == abName
    ensures r.assetBundlePath.Some?
    ensures var p, n := assetBundlePathWithoutAb.GetOr(""), abName.GetOr("");
      |r.assetBundlePath.value| == |p| + |n|
      && r.assetBundlePath.value[..|p|] == p
      && r.assetBundlePath.value[|p|..] == n
  {
    AssetInfo(assetType, assetPath, Some(Concat(assetBundlePathWithoutAb, abName)), abName)
  }

  /** `IsLegal`: the gate every entry point consults before it touches a store. */
  predicate IsLegal(info: AssetInfo) {
    if info.assetType == Untyped then false
    else if info.assetType == Resource && info.assetPath.None? then false
    else if info.assetType == AssetBundle && (info.assetPath.None? || info.assetBundlePath.None?) then false
    else true
  }

  /** A descriptor is illegal exactly when one of the three rejection rules applies. */
  lemma IllegalIff(info: AssetInfo)
    ensures !IsLegal(info) <==>
      || info.assetType == Untyped
      || (info.assetType == Resource && info.assetPath.None?)
      || (info.assetType == AssetBundle && (info.assetPath.None? || info.assetBundlePath.None?))
  {
  }

  /** The default struct is never legal. */
  lemma UnresolvedIsIllegal()
    ensures !IsLegal(Unresolved)
  {
  }

  /**
   * For a descriptor built by the constructor, the container-path test can
   * never fail: legality depends only on the type and the path array.
   */
  lemma ConstructedLegalIff(
    assetType: AssetType,
    assetPath: Option<seq<string>>,
    prefix: Option<string>,
    abName: Option<string>)
    ensures IsLegal(MakeInfo(assetType, assetPath, prefix, abName))
      <==> assetType != Untyped && assetPath.Some?
  {
  }
}
