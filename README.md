# Plugin capability aggregator — a Dafny model

This project models the plugin aggregator of the browser's background process
(`app/background-process/plugins.js`). The aggregator finds the installed
`beaker-plugin-*` modules and records a metadata record for each one. It
merges what the modules export under a key (`protocols`, `webAPIs`) into one
memoized list per key. For web APIs that name no scheme, it fills the scheme
in from the owning plugin's protocols. It then replays the merged lists to
the host:

- standard-URL schemes go to the host in one registration call;
- protocol handlers are registered one at a time, and the first failure stops the chain;
- each web API's manifest is split into four calling-convention buckets and exported on four channels;
- the lookup returns the manifests of the web APIs that belong to a URL scheme.

Files, one module each (except `consumers.dfy`, which holds four small ones):

- `plugin_data.dfy` (`PluginData`): the data. A duck-typed export value becomes
  the variant `Item` (`Proto`, `Api`, or a non-object `Scalar`). What a module
  holds under a key is `Export` (`Falsy`, `One`, `Many`). The host is a class
  `Host` that records every call made into it.
- `discovery.dfy` (`Discovery`): the name filter, the package.json fallback and the loading loop.
- `capability_index.dfy` (`CapabilityIndex`): the aggregation behind
  `getAllInfo`. It covers scalar wrapping, the web-API back-fill with its
  TypeError, the write of back-filled descriptors into their module, and the
  lemmas relating the aggregation to plain concatenation.
- `consumers.dfy`: `SchemeRegistrar`, `Activator` (the sequential register chain),
  `WebAPIExport` (partition and exports) and `ManifestLookup`.
- `plugins.dfy` (`Plugins.Registry`): the state that the source keeps in module
  variables (`protocolModules`, `protocolPackageJsons`, `caches`), the
  constructor that runs discovery, and the exported operations.
- `scenarios.dfy`: small concrete runs.

The register routines, the RPC export primitive and Electron's scheme
registration are calls into a `Host` log. Whether a `register` call succeeds
is a parameter `succeeds(step, descriptor)`. The directory listing and the two
`require`s are a listing (`None` when it cannot be read) and two loader
functions (`None` when loading throws).

Behaviour of the code a reader may not expect:

- The buckets keep each manifest key's full prefixed name (`_with_cb_foo`, not `foo`).
- The lookup takes the *first* protocol with the scheme.
- A web API without a scheme whose module's `protocols` is not an array raises
  a TypeError. The list built so far then stays in the memo table, so every
  later `getAllInfo('webAPIs')` returns that truncated list.
- After the back-fill a descriptor's `scheme` can still be undefined. This
  happens when the single protocol entry is not a descriptor.
  `FilledAreAttributed` proves that every back-filled web API has `scheme` or
  `schemes` only when every `protocols` entry is a descriptor.

## Model

| member | source | states |
|---|---|---|
| Discovery.PluginNames | app/background-process/plugins.js:17-20 | a name is kept exactly when it is an entry starting with `beaker-plugin-`; never more names than entries |
| Discovery.PluginNamesAppend | app/background-process/plugins.js:17-20 | the filter keeps listing order: the names of a concatenation are those of each part, in turn |
| Discovery.LoadPackageJson | app/background-process/plugins.js:173-189 | status is always `installed`; an unreadable package.json gives `{name: dir, status}`, otherwise the five extracted attributes |
| Discovery.LoadedMembers | app/background-process/plugins.js:22-36 | a module is in the loaded list exactly when some entry loads to it |
| Discovery.LoadedFront | app/background-process/plugins.js:25-36 | a failing entry skips only itself: the rest are still loaded, in order |
| Discovery.LoadPlugins | app/background-process/plugins.js:22-36 | the loop pushes exactly the loaded modules in order and records metadata for exactly the names that loaded |
| Plugins.Registry.Discover | app/background-process/plugins.js:17-36 | the registry starts with the filtered, loaded modules, their metadata and an empty memo table |
| CapabilityIndex.Schemes | app/background-process/plugins.js:71 | the back-filled `schemes` is every protocol entry's scheme, in order |
| CapabilityIndex.FillAll | app/background-process/plugins.js:62-75 | the map succeeds exactly when every descriptor's back-fill does, and then each result is that descriptor's back-fill |
| CapabilityIndex.BackFillCases | app/background-process/plugins.js:61-75 | a descriptor with a scheme is unchanged; without one it gets `scheme` from a one-element `protocols` array, `schemes` from any other array (nothing else changes), or a TypeError when `protocols` is not an array |
| CapabilityIndex.FillAllFails | app/background-process/plugins.js:63-71 | a module's back-fill fails exactly when its `protocols` is not an array and one of its web APIs lacks a scheme |
| CapabilityIndex.FilledAreAttributed | app/background-process/plugins.js:61-75 | with a `protocols` array of descriptors, every back-filled web API has `scheme` or `schemes` |
| CapabilityIndex.Collect | app/background-process/plugins.js:52-80 | the aggregation over the modules in order: its list, the modules after the back-fill (one per module), and the TypeError if one was raised |
| CapabilityIndex.CollectFailsHere | app/background-process/plugins.js:52-80 | a module that fails after a prefix that did not ends the aggregation with the list built so far, leaving it and later modules unchanged |
| CapabilityIndex.Aggregate | app/background-process/plugins.js:52-81 | the forEach's loop computes the aggregation: the list, the modules with back-filled descriptors written in, and the TypeError if any |
| CapabilityIndex.CollectAllOk | app/background-process/plugins.js:52-81 | with no failing module, the aggregation is the concatenation of the module contributions in module order |
| CapabilityIndex.CollectPlainKey | app/background-process/plugins.js:52-60 | for a key other than `webAPIs`, no error, modules untouched, and the list is each module's values (scalar wrapped, falsy skipped) concatenated in module order |
| CapabilityIndex.CollectStaysFailed | app/background-process/plugins.js:52-80 | after a TypeError no later module is read, changed or added |
| CapabilityIndex.CollectFailsAtFirst | app/background-process/plugins.js:52-81 | the aggregation fails at the first failing module, keeping the list of the modules before it |
| Plugins.Registry.GetAllInfo | app/background-process/plugins.js:43-82 | a key seen before returns its stored list and changes nothing; otherwise the aggregation is stored (also when empty or cut short by a TypeError) and returned |
| SchemeRegistrar.StandardSchemes | app/background-process/plugins.js:90 | a scheme is listed exactly when some protocol descriptor with `isStandardURL` has it |
| SchemeRegistrar.StandardSchemesAppend | app/background-process/plugins.js:90 | the filter keeps aggregation order: it distributes over concatenation |
| Plugins.Registry.RegisterStandardSchemes | app/background-process/plugins.js:86-94 | the memo table gets the stored or freshly aggregated protocol list (other keys and the modules untouched), and exactly one host call carries that list's standard schemes |
| Activator.Activate | app/background-process/plugins.js:98-106 | the chain from a step: its `register` calls and outcome; never more calls than steps left, and a rejection names a step of the chain |
| Activator.ActivateSpec | app/background-process/plugins.js:97-107 | completes only when every step succeeds; rejected at the first failing step; calls `register` in list order, one per step up to the failure, none after it |
| Activator.RunChain | app/background-process/plugins.js:98-106 | the sequential loop logs exactly the chain's calls and returns its outcome |
| Plugins.Registry.SetupProtocolHandlers | app/background-process/plugins.js:97-107 | the memo table gets the stored or freshly aggregated protocol list, and the host log and outcome are those of the chain over exactly that list |
| WebAPIExport.PrefixesExclusive | app/background-process/plugins.js:124-138 | no key carries two of the three prefixes |
| WebAPIExport.Classify | app/background-process/plugins.js:124-138 | a key is in the callback, async-callback or static class exactly when it carries that prefix; otherwise it is plain |
| WebAPIExport.BucketsPartition | app/background-process/plugins.js:122-139 | every manifest key is in exactly the bucket of its prefix class, under its full name with its value; the four buckets together are the manifest |
| WebAPIExport.Partition | app/background-process/plugins.js:117-139 | the for…in loop yields four pairwise disjoint buckets whose union is the manifest, each the entries of one prefix class |
| WebAPIExport.AllExports | app/background-process/plugins.js:140-143 | four exports per web API |
| WebAPIExport.AllExportsAt | app/background-process/plugins.js:111-144 | each API's four exports (plain name, then the callback, async-callback and static prefixes) follow list order, even for empty buckets |
| WebAPIExport.ExportAll | app/background-process/plugins.js:111-144 | the forEach logs exactly those exports |
| Plugins.Registry.SetupWebAPIs | app/background-process/plugins.js:110-145 | the memo table gets the stored or freshly aggregated web-API list and the modules their back-fill; the exports of exactly that list, or none when a fresh aggregation raises |
| ManifestLookup.StripColons | app/background-process/plugins.js:151 | no colon remains; a colon-free scheme is unchanged |
| ManifestLookup.StripColonsDeletes | app/background-process/plugins.js:151 | colons are deleted, not replaced: every other character is kept as often as it occurs, and the length drops by the number of colons |
| ManifestLookup.StripColonsAppend | app/background-process/plugins.js:151 | stripping distributes over concatenation |
| ManifestLookup.FirstWithScheme | app/background-process/plugins.js:154 | the first index whose scheme matches, or none when no entry matches |
| ManifestLookup.Merged | app/background-process/plugins.js:160-166 | the map the forEach fills; every name in it is the name of a matching web API |
| ManifestLookup.LastNamed | app/background-process/plugins.js:160-166 | the last matching API of a given name, or none when no matching API has it |
| ManifestLookup.MergedEntry | app/background-process/plugins.js:160-166 | a name is in the result exactly when a matching API has it, with the manifest of the last such API |
| ManifestLookup.MergeManifests | app/background-process/plugins.js:159-166 | the forEach computes that merged map |
| ManifestLookup.ManifestsFor | app/background-process/plugins.js:148-168 | the lookup's result; every name in it is that of a web API serving the colon-stripped scheme |
| ManifestLookup.ColonInsensitive | app/background-process/plugins.js:151 | `s + ":"`, `s` and `s` with its colons stripped give the same lookup |
| ManifestLookup.UnknownSchemeIsEmpty | app/background-process/plugins.js:154-157 | no protocol with the scheme gives an empty map |
| ManifestLookup.KnownSchemeManifests | app/background-process/plugins.js:153-166 | otherwise the result is the merge for the first protocol with that scheme |
| Plugins.Registry.GetWebAPIManifests | app/background-process/plugins.js:148-168 | the protocol list is the stored or aggregated one; without a matching protocol the result is empty and web APIs are not aggregated; with one, the web-API list and modules are as after `getAllInfo('webAPIs')`, the result is the lookup over both lists, and it is an error exactly when that fresh aggregation raises |
| Scenarios.StandardSchemesExample | app/background-process/plugins.js:90 | of `x` (standard) and `y` (not), only `x` is registered |
| Scenarios.ClassifyExample | app/background-process/plugins.js:124-138 | the prefixes are tested in order; `qux` matches none and is plain |
| Scenarios.ClassificationExample | app/background-process/plugins.js:122-139 | the four example keys land in their four buckets under their full names |
| Scenarios.ActivationExample | app/background-process/plugins.js:97-107 | with B failing among A, B, C: A then B are called, C is not, rejected at B |
| Scenarios.FailedLoadIsolated | app/background-process/plugins.js:25-36 | one failing load among three leaves the other two loaded and aggregated |
| Scenarios.MemoizedTwice | app/background-process/plugins.js:44-47 | a second request returns the stored list |

## Left out

- I/O: the directory listing, `require` of modules and package.json files, Electron's
  `protocol.registerStandardSchemes`, `rpc.exportAPI` and `sendToShellWindow` are parameters
  or entries in the `Host` call log. Logging and the unused stream import are left out.
- Promises: the `reduce`/`then` chain is a sequential loop whose per-step outcome is a parameter.
  Timing, and what a rejected promise does to the host, are not modelled.
- Discovery runs when the source file is imported. Here it is the registry's constructor.
- The memo table is a plain JavaScript object. Inherited keys such as `toString` would
  read as already cached; the model's table holds only requested keys.
- Plugins.Registry.GetAllInfo: the source installs `caches[key] = []` and grows it per module.
  The model stores the list once, when the aggregation ends or fails. Nothing can observe
  the difference, because the code runs on one thread.
- CapabilityIndex.Aggregate: the back-fill writes into shared descriptor objects. The model
  writes the back-filled value into the owning module's export. The same object exported
  by two modules (aliasing) is not modelled.
- `null` or `undefined` elements inside export arrays are not modelled; reading a field
  of those throws in the source. A protocol descriptor with an empty scheme inside a
  `webAPIs` list is not back-filled.
- WebAPIExport.ExportAll: a value in the `webAPIs` list that is not a web-API descriptor
  is skipped. The source would export its (empty) buckets under an undefined name.
- ManifestLookup.MergeManifests: a protocol descriptor inside the `webAPIs` list is never
  merged. The source would write its undefined manifest under the key `undefined`
  when its scheme and flag match.
- `isInternal` is a boolean or missing. JavaScript's loose `==` between other kinds of
  values is not modelled.
- The enumeration order of `for…in` is not modelled. It does not affect the buckets.
