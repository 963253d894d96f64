/** The plugin registry: the loaded modules, their metadata records and the
    memo table of `getAllInfo`, with the operations the host calls. In the
    original these are module-level variables filled when the file is first
    imported; here discovery is the registry's constructor. */
module Plugins {
  import opened PluginData
  import opened Discovery
  import opened CapabilityIndex
  import SchemeRegistrar
  import Activator
  import WebAPIExport
  import ManifestLookup

  /** The list the memo table holds for `key` once `getAllInfo(key)` has run:
      the stored list, or the aggregation of the modules. */
  function Stored(caches: map<string, seq<Item>>, modules: seq<PluginModule>, key: string): seq<Item>
  {
    if key in caches then caches[key] else Collect(modules, key).items
  }

  /** The modules once `getAllInfo(key)` has run: unchanged for a stored key,
      otherwise with the back-filled descriptors written in. */
  function Rewritten(caches: map<string, seq<Item>>, modules: seq<PluginModule>, key: string): seq<PluginModule>
  {
    if key in caches then modules else Collect(modules, key).modules
  }

  class Registry {
    /** The loaded plugin modules, in discovery order (`protocolModules`). */
    var modules: seq<PluginModule>
    /** The metadata record per plugin directory name (`protocolPackageJsons`). */
    var packageJsons: map<string, Metadata>
    /** The memo table of `getAllInfo`, one list per requested key (`caches`). */
    var caches: map<string, seq<Item>>

    /** Discovery: keep the `beaker-plugin-*` entries of the listing, load
        each, skip the ones that fail, record metadata for the others. */
    constructor Discover(listing: Option<seq<string>>, load: string -> Option<PluginModule>,
                         readPackage: string -> Option<PackageJson>)
      ensures modules == Loaded(PluginNames(Entries(listing)), load)
      ensures packageJsons.Keys == set n | n in PluginNames(Entries(listing)) && load(n).Some?
      ensures forall n :: n in packageJsons ==> packageJsons[n] == LoadPackageJson(n, readPackage)
      ensures caches == map[]
    {
      var names := PluginNames(Entries(listing));
      var mods, metas := LoadPlugins(names, load, readPackage);
      modules := mods;
      packageJsons := metas;
      caches := map[];
    }

    /** `getAllInfo(key)`: the stored list when the key was requested before;
        otherwise the aggregation over the modules, stored in the memo table
        even when a back-fill TypeError cut it short (the original installs
        the entry before aggregating and grows it module by module). */
    method GetAllInfo(key: string) returns (r: Result<seq<Item>, TypeError>)
      modifies this`modules, this`caches
      ensures key in old(caches) ==>
        r == Ok(old(caches)[key]) && caches == old(caches) && modules == old(modules)
      ensures key !in old(caches) ==>
        var g := Collect(old(modules), key);
        && modules == g.modules
        && caches == old(caches)[key := g.items]
        && r == (if g.failed.Some? then Err(g.failed.value) else Ok(g.items))
      ensures key in caches && (r.Ok? ==> r.value == caches[key])
      ensures key != WebAPIsKey ==> r.Ok? && modules == old(modules)
    {
      if key in caches {
        return Ok(caches[key]);
      }
      var items, updated, failed := Aggregate(modules, key);
      if key != WebAPIsKey {
        CollectPlainKey(modules, key);
      }
      caches := caches[key := items];
      modules := updated;
      return if failed.Some? then Err(failed.value) else Ok(items);
    }

    /** `registerStandardSchemes`: one call of the host's scheme registration,
        with the schemes of the aggregated protocols that are standard URLs. */
    method RegisterStandardSchemes(host: Host)
      modifies this`modules, this`caches, host
      ensures ProtocolsKey in caches && modules == old(modules)
      ensures caches == old(caches)[ProtocolsKey := Stored(old(caches), old(modules), ProtocolsKey)]
      ensures host.calls == old(host.calls) +
        [HostCall.RegisterStandardSchemes(SchemeRegistrar.StandardSchemes(caches[ProtocolsKey]))]
    {
      var protos := GetAllInfo(ProtocolsKey);
      host.calls := host.calls + [HostCall.RegisterStandardSchemes(SchemeRegistrar.StandardSchemes(protos.value))];
    }

    /** `setupProtocolHandlers`: the aggregated protocols' `register`
        routines, one after another, until the first one fails. */
    method SetupProtocolHandlers(host: Host, succeeds: (nat, Protocol) -> bool) returns (a: Activator.Activation)
      modifies this`modules, this`caches, host
      ensures ProtocolsKey in caches && modules == old(modules)
      ensures caches == old(caches)[ProtocolsKey := Stored(old(caches), old(modules), ProtocolsKey)]
      ensures host.calls == old(host.calls) + Activator.Activate(caches[ProtocolsKey], succeeds, 0).0
      ensures a == Activator.Activate(caches[ProtocolsKey], succeeds, 0).1
    {
      var protos := GetAllInfo(ProtocolsKey);
      a := Activator.RunChain(protos.value, succeeds, host);
    }

    /** `setupWebAPIs`: four exports per aggregated web API; the back-fill's
        TypeError propagates before any export. */
    method SetupWebAPIs(host: Host) returns (failure: Option<TypeError>)
      modifies this`modules, this`caches, host
      ensures WebAPIsKey in caches
      ensures caches == old(caches)[WebAPIsKey := Stored(old(caches), old(modules), WebAPIsKey)]
      ensures modules == Rewritten(old(caches), old(modules), WebAPIsKey)
      ensures failure.Some? <==> WebAPIsKey !in old(caches) && Collect(old(modules), WebAPIsKey).failed.Some?
      ensures failure.None? ==> host.calls == old(host.calls) + WebAPIExport.AllExports(caches[WebAPIsKey])
      ensures failure.Some? ==> host.calls == old(host.calls)
    {
      var apis := GetAllInfo(WebAPIsKey);
      if apis.Err? {
        return Some(apis.error);
      }
      WebAPIExport.ExportAll(apis.value, host);
      return None;
    }

    /** `getWebAPIManifests(scheme)`: the merged manifests of the web APIs
        belonging to the first protocol with the colon-stripped scheme; the
        web APIs are aggregated only when such a protocol exists. */
    method GetWebAPIManifests(scheme: string) returns (r: Result<map<string, map<string, FnId>>, TypeError>)
      modifies this`modules, this`caches
      ensures ProtocolsKey in caches && caches[ProtocolsKey] == Stored(old(caches), old(modules), ProtocolsKey)
      ensures ManifestLookup.FirstWithScheme(caches[ProtocolsKey], ManifestLookup.StripColons(scheme)).None? ==>
        r == Ok(map[]) && modules == old(modules) && caches == old(caches)[ProtocolsKey := caches[ProtocolsKey]]
      ensures ManifestLookup.FirstWithScheme(caches[ProtocolsKey], ManifestLookup.StripColons(scheme)).Some? ==>
        && caches == old(caches)[ProtocolsKey := caches[ProtocolsKey]][WebAPIsKey := Stored(old(caches), old(modules), WebAPIsKey)]
        && modules == Rewritten(old(caches), old(modules), WebAPIsKey)
      ensures r.Ok? ==> r.value == ManifestLookup.ManifestsFor(
        caches[ProtocolsKey], if WebAPIsKey in caches then caches[WebAPIsKey] else [], scheme)
      ensures r.Err? <==>
        && ManifestLookup.FirstWithScheme(caches[ProtocolsKey], ManifestLookup.StripColons(scheme)).Some?
        && WebAPIsKey !in old(caches) && Collect(old(modules), WebAPIsKey).failed.Some?
    {
      var s := ManifestLookup.StripColons(scheme);
      var protosResult := GetAllInfo(ProtocolsKey);
      var protos := protosResult.value;
      var found := ManifestLookup.FirstWithScheme(protos, s);
      if found.None? {
        return Ok(map[]);
      }
      var apis := GetAllInfo(WebAPIsKey);
      if apis.Err? {
        return Err(apis.error);
      }
      var manifests := ManifestLookup.MergeManifests(apis.value, protos[found.value], s);
      return Ok(manifests);
    }
  }
}
