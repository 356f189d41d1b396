/**
 * The asset resolver: `GetAssetInfo`, `GetAssetInfoFromResource` and
 * `GetAssetInfoFromAssetBundle`, a pure function of the name, the access-mode
 * flags, the process-wide `ForceRemoteAssetBundle` flag and the two
 * name-to-location tables.
 */
module Resolver {
  import opened Wrappers
  import opened Descriptor

  /** `AssetAccessMode`, a [Flags] enum over a 32-bit integer. */
  type AccessMode = bv32

  const ModeNone: AccessMode := 0x1
  const ModeUnknown: AccessMode := 0x2
  const ModeResource: AccessMode := 0x4
  const ModeAssetBundle: AccessMode := 0x8
  const ModeRemoteAssetBundle: AccessMode := 0x10

  /** `Enum.HasFlag`: every bit of `flag` is set in `mode`. */
  predicate HasFlag(mode: AccessMode, flag: AccessMode) {
    mode & flag == flag
  }

  /** One row of `AssetBundleMap.Mappings`; either field may be null. */
  datatype BundleMapping = BundleMapping(assetPath: Option<seq<string>>, abName: Option<string>)

  /** The two tables loaded at start-up: `ResourceMap.Mappings` and `AssetBundleMap.Mappings`. */
  datatype Tables = Tables(resources: map<string, string>, bundles: map<string, BundleMapping>)

  /**
   * What the resolver reads besides the tables: the `ForceRemoteAssetBundle`
   * flag and the bundle store's two path-prefix functions,
   * `GetAssetBundlePathWithoutAb(name)` and `GetRemoteAssetBundleCompletePath()`,
   * which are not part of this model and are taken as given.
   */
  datatype Config = Config(
    forceRemote: bool,
    localPrefix: string -> string,
    remotePrefix: string,
    /** `Path.ChangeExtension(p, null).Replace(URLSetting.AssetBundlesPath, "")`, used by the directory loads. */
    subAssetName: string -> string)

  /** `GetAssetInfoFromResource`: a hit yields a one-element path list holding the mapped key. */
  function FromResource(tables: Tables, name: string): (r: AssetInfo)
    ensures IsLegal(r) <==> name in tables.resources
    ensures name in tables.resources ==>
      r.assetType == Resource && r.assetPath == Some([tables.resources[name]])
    ensures name !in tables.resources ==> r == Unresolved
  {
    if name in tables.resources then
      MakeInfo(Resource, Some([tables.resources[name]]), None, None)
    else
      Unresolved
  }

  /** The container-path prefix: remote when asked for or forced, local otherwise. */
  function BundlePrefix(config: Config, name: string, remote: bool): string {
    if remote || config.forceRemote then config.remotePrefix else config.localPrefix(name)
  }

  /**
   * `GetAssetInfoFromAssetBundle`: a hit copies the mapping's paths and
   * container name and prefixes the container name with the remote or the
   * local path; a miss yields the default struct.
   */
  function FromAssetBundle(config: Config, tables: Tables, name: string, remote: bool): (r: AssetInfo)
    ensures name !in tables.bundles ==> r == Unresolved
    ensures name in tables.bundles ==>
      var m := tables.bundles[name];
      && r.assetType == AssetBundle && r.assetPath == m.assetPath && r.abName == m.abName
      && r.assetBundlePath == Some(BundlePrefix(config, name, remote) + m.abName.GetOr(""))
    ensures IsLegal(r) <==> name in tables.bundles && tables.bundles[name].assetPath.Some?
  {
    if name in tables.bundles then
      var m := tables.bundles[name];
      if remote || config.forceRemote then
        MakeInfo(AssetBundle, m.assetPath, Some(config.remotePrefix), m.abName)
      else
        MakeInfo(AssetBundle, m.assetPath, Some(config.localPrefix(name)), m.abName)
    else
      Unresolved
  }

  /** The mode after the `ForceRemoteAssetBundle` override. */
  function EffectiveMode(config: Config, mode: AccessMode): AccessMode {
    if config.forceRemote then ModeRemoteAssetBundle else mode
  }

  /** `GetAssetInfo`: tests RESOURCE, ASSET_BUNDLE, UNKNOWN, REMOTE_ASSET_BUNDLE, in that order. */
  function GetAssetInfo(config: Config, tables: Tables, name: string, mode: AccessMode): (r: AssetInfo)
    ensures r.assetType == Resource ==>
      IsLegal(r) && name in tables.resources && r.assetPath == Some([tables.resources[name]])
    ensures r.assetType == AssetBundle ==> name in tables.bundles && r.assetBundlePath.Some?
    ensures !HasFlag(EffectiveMode(config, mode), ModeAssetBundle)
      || HasFlag(EffectiveMode(config, mode), ModeResource)
      ==> IsLegal(r) || r == Unresolved
  {
    var m := EffectiveMode(config, mode);
    if HasFlag(m, ModeResource) then
      FromResource(tables, name)
    else if HasFlag(m, ModeAssetBundle) then
      FromAssetBundle(config, tables, name, false)
    else if HasFlag(m, ModeUnknown) then
      var fromBundle := FromAssetBundle(config, tables, name, false);
      var r := if !IsLegal(fromBundle) then FromResource(tables, name) else fromBundle;
      if IsLegal(r) then r else Unresolved
    else if HasFlag(m, ModeRemoteAssetBundle) then
      var r := FromAssetBundle(config, tables, name, true);
      if IsLegal(r) then r else Unresolved
    else
      Unresolved
  }

  /** With `ForceRemoteAssetBundle` set, the caller's mode is ignored. */
  lemma ForceRemoteIgnoresMode(config: Config, tables: Tables, name: string, mode: AccessMode)
    requires config.forceRemote
    ensures GetAssetInfo(config, tables, name, mode) == GetAssetInfo(config, tables, name, ModeRemoteAssetBundle)
  {
  }

  /**
   * With `ForceRemoteAssetBundle` set, every resolution either fails or
   * yields a legal bundle descriptor on the remote path.
   */
  lemma ForceRemoteResolvesRemoteBundle(config: Config, tables: Tables, name: string, mode: AccessMode)
    requires config.forceRemote
    ensures var r := GetAssetInfo(config, tables, name, mode);
      r == Unresolved
      || (&& IsLegal(r) && r.assetType == AssetBundle
          && r.assetBundlePath == Some(config.remotePrefix + tables.bundles[name].abName.GetOr("")))
  {
  }

  /** RESOURCE wins over every other bit. */
  lemma ResourceFlagFirst(config: Config, tables: Tables, name: string, mode: AccessMode)
    requires !config.forceRemote && HasFlag(mode, ModeResource)
    ensures GetAssetInfo(config, tables, name, mode) == FromResource(tables, name)
  {
  }

  /** ASSET_BUNDLE comes next and uses the local prefix. */
  lemma BundleFlagSecond(config: Config, tables: Tables, name: string, mode: AccessMode)
    requires !config.forceRemote && !HasFlag(mode, ModeResource) && HasFlag(mode, ModeAssetBundle)
    ensures GetAssetInfo(config, tables, name, mode) == FromAssetBundle(config, tables, name, false)
  {
  }

  /** REMOTE_ASSET_BUNDLE is consulted only when none of the other three bits is set. */
  lemma RemoteFlagLast(config: Config, tables: Tables, name: string, mode: AccessMode)
    requires !config.forceRemote
    requires !HasFlag(mode, ModeResource) && !HasFlag(mode, ModeAssetBundle) && !HasFlag(mode, ModeUnknown)
    requires HasFlag(mode, ModeRemoteAssetBundle)
    ensures var r := FromAssetBundle(config, tables, name, true);
      GetAssetInfo(config, tables, name, mode) == if IsLegal(r) then r else Unresolved
  {
  }

  /** A mode with none of the four tested bits (NONE, for one) yields the default struct. */
  lemma NoTestedFlagUnresolved(config: Config, tables: Tables, name: string, mode: AccessMode)
    requires !config.forceRemote
    requires !HasFlag(mode, ModeResource) && !HasFlag(mode, ModeAssetBundle)
    requires !HasFlag(mode, ModeUnknown) && !HasFlag(mode, ModeRemoteAssetBundle)
    ensures GetAssetInfo(config, tables, name, mode) == Unresolved
  {
  }

  /** The mode UNKNOWN alone, as the test for the third branch sees it. */
  predicate UnknownOnly(config: Config, mode: AccessMode) {
    && !config.forceRemote
    && !HasFlag(mode, ModeResource) && !HasFlag(mode, ModeAssetBundle) && HasFlag(mode, ModeUnknown)
  }

  /** Under UNKNOWN a usable bundle mapping wins, even if the Resources table also has the name. */
  lemma UnknownPrefersBundle(config: Config, tables: Tables, name: string, mode: AccessMode)
    requires UnknownOnly(config, mode)
    requires name in tables.bundles && tables.bundles[name].assetPath.Some?
    ensures var r := GetAssetInfo(config, tables, name, mode);
      r.assetType == AssetBundle && IsLegal(r)
      && r.assetBundlePath == Some(config.localPrefix(name) + tables.bundles[name].abName.GetOr(""))
  {
  }

  /** Under UNKNOWN a name without a usable bundle mapping falls back to Resources. */
  lemma UnknownFallsBackToResource(config: Config, tables: Tables, name: string, mode: AccessMode)
    requires UnknownOnly(config, mode)
    requires name !in tables.bundles || tables.bundles[name].assetPath.None?
    requires name in tables.resources
    ensures var r := GetAssetInfo(config, tables, name, mode);
      r.assetType == Resource && r.assetPath == Some([tables.resources[name]])
  {
  }

  /** Under UNKNOWN a name found in neither table yields the default struct. */
  lemma UnknownNeitherUnresolved(config: Config, tables: Tables, name: string, mode: AccessMode)
    requires UnknownOnly(config, mode)
    requires name !in tables.bundles || tables.bundles[name].assetPath.None?
    requires name !in tables.resources
    ensures GetAssetInfo(config, tables, name, mode) == Unresolved
  {
  }

  /**
   * The explicit ASSET_BUNDLE branch does not filter its result through
   * `IsLegal`: a mapping with a null path list yields an illegal descriptor
   * that is not the default struct.
   */
  lemma ExplicitBundleMayBeIllegal(config: Config, tables: Tables, name: string)
    requires !config.forceRemote
    requires name in tables.bundles && tables.bundles[name].assetPath.None?
    ensures var r := GetAssetInfo(config, tables, name, ModeAssetBundle);
      !IsLegal(r) && r != Unresolved && r.assetType == AssetBundle
  {
  }
}
