/** Plugin discovery: keep the directory entries named `beaker-plugin-*`,
    load each as a module, skip the ones that fail to load, and record one
    metadata record per loaded plugin.

    The directory listing, `require` of a module and `require` of its
    package.json are I/O; they enter as a listing (None when the directory
    cannot be read) and two loader functions (None when loading throws). */
module Discovery {
  import opened PluginData

  const PluginPrefix := "beaker-plugin-"
  const Installed := "installed"

  datatype PackageJson = PackageJson(
    name: Option<string>,
    author: Option<string>,
    description: Option<string>,
    homepage: Option<string>,
    version: Option<string>)

  datatype Metadata = Metadata(
    name: Option<string>,
    author: Option<string>,
    description: Option<string>,
    homepage: Option<string>,
    version: Option<string>,
    status: string)

  /** The directory entries: an unreadable directory gives none. */
  function Entries(listing: Option<seq<string>>): seq<string>
  {
    match listing
    case None => []
    case Some(names) => names
  }

  /** The entries whose name starts with `beaker-plugin-`, in listing order. */
  function PluginNames(entries: seq<string>): (r: seq<string>)
    ensures forall n :: n in r <==> n in entries && StartsWith(n, PluginPrefix)
    ensures |r| <= |entries|
  {
    if entries == [] then []
    else
      var rest := PluginNames(entries[1..]);
      assert forall n :: n in entries <==> n == entries[0] || n in entries[1..];
      if StartsWith(entries[0], PluginPrefix) then [entries[0]] + rest else rest
  }

  /** The filter keeps listing order: the plugin names of a concatenation are
      those of the first part followed by those of the second. */
  lemma {:induction false} PluginNamesAppend(a: seq<string>, b: seq<string>)
    ensures PluginNames(a + b) == PluginNames(a) + PluginNames(b)
  {
    if a != [] {
      PluginNamesAppend(a[1..], b);
      assert (a + b)[1..] == a[1..] + b;
      assert (a + b)[0] == a[0];
      var head := if StartsWith(a[0], PluginPrefix) then [a[0]] else [];
      assert PluginNames(a + b) == head + PluginNames(a[1..] + b);
      assert PluginNames(a) == head + PluginNames(a[1..]);
    } else {
      assert a + b == b;
    }
  }

  /** The metadata record of a plugin whose package.json was read. */
  function ExtractPackageJsonAttrs(p: PackageJson): Metadata
  {
    Metadata(p.name, p.author, p.description, p.homepage, p.version, Installed)
  }

  /** The metadata of plugin directory `dir`: the extracted attributes, or
      `{name: dir, status: 'installed'}` when its package.json cannot be read. */
  function LoadPackageJson(dir: string, readPackage: string -> Option<PackageJson>): (m: Metadata)
    ensures m.status == Installed
    ensures readPackage(dir).None? ==> m == Metadata(Some(dir), None, None, None, None, Installed)
    ensures readPackage(dir).Some? ==>
      var p := readPackage(dir).value;
      m.name == p.name && m.author == p.author && m.description == p.description
      && m.homepage == p.homepage && m.version == p.version
  {
    match readPackage(dir)
    case None => Metadata(Some(dir), None, None, None, None, Installed)
    case Some(p) => ExtractPackageJsonAttrs(p)
  }

  /** The modules that loaded, in entry order. */
  function Loaded(names: seq<string>, load: string -> Option<PluginModule>): seq<PluginModule>
  {
    if names == [] then []
    else
      var prefix := Loaded(names[..|names| - 1], load);
      match load(names[|names| - 1])
      case None => prefix
      case Some(m) => prefix + [m]
  }

  /** A module is in the loaded list exactly when some entry loads to it. */
  lemma {:induction false} LoadedMembers(names: seq<string>, load: string -> Option<PluginModule>, m: PluginModule)
    ensures m in Loaded(names, load) <==> exists i :: 0 <= i < |names| && load(names[i]) == Some(m)
  {
    if names != [] {
      var init := names[..|names| - 1];
      LoadedMembers(init, load, m);
      assert forall i :: 0 <= i < |init| ==> init[i] == names[i];
    }
  }

  /** A failing entry skips only itself: the entries after it are still
      processed, and the list is the first entry's module (if any) followed
      by what the rest loads. */
  lemma {:induction false} LoadedFront(names: seq<string>, load: string -> Option<PluginModule>)
    requires names != []
    ensures Loaded(names, load) ==
      (match load(names[0]) case None => [] case Some(m) => [m]) + Loaded(names[1..], load)
  {
    if |names| == 1 {
      assert names[..0] == [];
      assert names[1..] == [];
    } else {
      var init := names[..|names| - 1];
      LoadedFront(init, load);
      assert init[1..] == names[1..][..|names[1..]| - 1];
      assert init[0] == names[0];
    }
  }

  /** The `forEach` over the plugin names: push every module that loads and
      record its metadata; a name that fails to load gets no record. */
  method LoadPlugins(names: seq<string>, load: string -> Option<PluginModule>,
                     readPackage: string -> Option<PackageJson>)
    returns (modules: seq<PluginModule>, packageJsons: map<string, Metadata>)
    ensures modules == Loaded(names, load)
    ensures packageJsons.Keys == set n | n in names && load(n).Some?
    ensures forall n :: n in packageJsons ==> packageJsons[n] == LoadPackageJson(n, readPackage)
  {
    modules, packageJsons := [], map[];
    var i := 0;
    while i < |names|
      invariant 0 <= i <= |names|
      invariant modules == Loaded(names[..i], load)
      invariant packageJsons.Keys == set n | n in names[..i] && load(n).Some?
      invariant forall n :: n in packageJsons ==> packageJsons[n] == LoadPackageJson(n, readPackage)
    {
      var name := names[i];
      assert names[..i + 1][..i] == names[..i];
      assert forall n :: n in names[..i + 1] <==> n in names[..i] || n == name;
      match load(name) {
        case None =>
        case Some(m) =>
          modules := modules + [m];
          packageJsons := packageJsons[name := LoadPackageJson(name, readPackage)];
      }
      i := i + 1;
    }
    assert names[..i] == names;
  }
}
