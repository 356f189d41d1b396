/**
 * What `Unload` and `UnloadAsync` release for a name: the container of the
 * local bundle lookup, the container of the remote bundle lookup, each when
 * its lookup is legal, and the Resources key when that lookup is legal.
 */
module Unloads {
  import opened Wrappers
  import opened Descriptor
  import opened Resolver
  import opened Stores

  /**
   * The container paths the unloads reach, in the order the source visits
   * them. The two bundle lookups hit the same table row, so they are legal
   * together: a name whose bundle mapping has a path list reaches two
   * containers, the local (or forced remote) one first, any other name none.
   */
  function UnloadTargets(config: Config, tables: Tables, name: string): (paths: seq<string>)
    ensures if name in tables.bundles && tables.bundles[name].assetPath.Some? then
        var ab := tables.bundles[name].abName.GetOr("");
        paths == [BundlePrefix(config, name, false) + ab, config.remotePrefix + ab]
      else
        paths == []
  {
    var ab := FromAssetBundle(config, tables, name, false);
    var abRemote := FromAssetBundle(config, tables, name, true);
    (if IsLegal(ab) then [ab.assetBundlePath.value] else [])
      + (if IsLegal(abRemote) then [abRemote.assetBundlePath.value] else [])
  }

  /** The two bundle lookups are legal together, and the targets are their containers. */
  lemma UnloadTargetsLegal(config: Config, tables: Tables, name: string)
    ensures var ab, abRemote := FromAssetBundle(config, tables, name, false), FromAssetBundle(config, tables, name, true);
      var paths := UnloadTargets(config, tables, name);
      && IsLegal(ab) == IsLegal(abRemote) == (paths != [])
      && (paths != [] ==> paths == [ab.assetBundlePath.value, abRemote.assetBundlePath.value])
  {
  }

  /** The Resources key `Unload` releases, if the Resources lookup is legal. */
  function UnloadKey(tables: Tables, name: string): Option<string> {
    var res := FromResource(tables, name);
    if IsLegal(res) then Some(res.assetPath.value[0]) else None
  }

  /** One blocking bundle unload per path. */
  function UnloadCalls(paths: seq<string>, full: bool): (calls: seq<StoreCall>)
    ensures |calls| == |paths|
    ensures forall k | 0 <= k < |paths| :: calls[k] == BundleUnload(paths[k], full)
  {
    if paths == [] then [] else UnloadCalls(paths[..|paths| - 1], full) + [BundleUnload(paths[|paths| - 1], full)]
  }

  /** One asynchronous bundle unload per path. */
  function AsyncUnloadCalls(paths: seq<string>, full: bool): (calls: seq<StoreCall>)
    ensures |calls| == |paths|
    ensures forall k | 0 <= k < |paths| :: calls[k] == BundleUnloadAsync(paths[k], full)
  {
    if paths == [] then [] else AsyncUnloadCalls(paths[..|paths| - 1], full) + [BundleUnloadAsync(paths[|paths| - 1], full)]
  }

  /** With `ForceRemoteAssetBundle` set, both lookups name the remote container: it is unloaded twice. */
  lemma ForceRemoteUnloadsTwice(config: Config, tables: Tables, name: string)
    requires config.forceRemote
    ensures var paths := UnloadTargets(config, tables, name);
      paths == [] || (|paths| == 2 && paths[0] == paths[1])
  {
  }

  /**
   * Whatever a load resolved for the name, in any access mode, an unload
   * reaches it: a legal bundle descriptor's container is among the targets,
   * a Resources descriptor's key is the one released.
   */
  lemma UnloadCoversResolved(config: Config, tables: Tables, name: string, mode: AccessMode)
    ensures var info := GetAssetInfo(config, tables, name, mode);
      && (IsLegal(info) && info.assetType == AssetBundle ==>
            info.assetBundlePath.value in UnloadTargets(config, tables, name))
      && (info.assetType == Resource ==> UnloadKey(tables, name) == Some(info.assetPath.value[0]))
  {
    var info := GetAssetInfo(config, tables, name, mode);
    if IsLegal(info) && info.assetType == AssetBundle {
      var m := EffectiveMode(config, mode);
      var paths := UnloadTargets(config, tables, name);
      if !HasFlag(m, ModeResource) && (HasFlag(m, ModeAssetBundle) || HasFlag(m, ModeUnknown)) {
        assert info == FromAssetBundle(config, tables, name, false);
        assert info.assetBundlePath.value == paths[0];
      } else {
        assert info == FromAssetBundle(config, tables, name, true);
        assert info.assetBundlePath.value == paths[1];
      }
    }
  }
}
