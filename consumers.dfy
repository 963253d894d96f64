/** The standard-scheme filter of `registerStandardSchemes`: the schemes of
    the aggregated protocols that ask for standard-URL parsing. */
module SchemeRegistrar {
  import opened PluginData

  /** `protos.filter(d => d.isStandardURL).map(d => d.scheme)`; only a
      protocol descriptor carries an `isStandardURL` flag. */
  function StandardSchemes(protos: seq<Item>): (r: seq<string>)
    ensures |r| <= |protos|
    ensures forall s :: s in r <==>
      exists i :: 0 <= i < |protos| && protos[i].Proto? && protos[i].proto.isStandardURL
                  && protos[i].proto.scheme == s
  {
    if protos == [] then []
    else
      var rest := StandardSchemes(protos[1..]);
      assert forall i :: 1 <= i < |protos| ==> protos[i] == protos[1..][i - 1];
      if protos[0].Proto? && protos[0].proto.isStandardURL then [protos[0].proto.scheme] + rest else rest
  }

  /** The filter keeps aggregation order: the schemes of a concatenation are
      the schemes of the first part followed by those of the second. */
  lemma {:induction false} StandardSchemesAppend(a: seq<Item>, b: seq<Item>)
    ensures StandardSchemes(a + b) == StandardSchemes(a) + StandardSchemes(b)
  {
    if a != [] {
      StandardSchemesAppend(a[1..], b);
      assert (a + b)[1..] == a[1..] + b;
      assert (a + b)[0] == a[0];
    } else {
      assert a + b == b;
    }
  }
}

/** `setupProtocolHandlers`: each aggregated protocol's `register` runs after
    the previous one has completed, and the first failure ends the chain.
    The promise chain becomes an ordered sequence of steps whose outcome is
    given by `succeeds` (step index, descriptor); calling `register` on a
    value that is not a protocol descriptor is a TypeError, so that step
    fails without any call. */
module Activator {
  import opened PluginData

  datatype Activation = Completed | Rejected(step: nat)

  /** Step i runs `register` and it completes. */
  predicate StepSucceeds(protos: seq<Item>, succeeds: (nat, Protocol) -> bool, i: nat)
    requires i < |protos|
  {
    protos[i].Proto? && succeeds(i, protos[i].proto)
  }

  /** The calls made and the outcome of the chain from step i on. */
  function Activate(protos: seq<Item>, succeeds: (nat, Protocol) -> bool, i: nat): (r: (seq<HostCall>, Activation))
    requires i <= |protos|
    decreases |protos| - i
    ensures |r.0| <= |protos| - i
    ensures r.1.Rejected? ==> i <= r.1.step < |protos|
  {
    if i == |protos| then ([], Completed)
    else match protos[i]
      case Proto(p) =>
        if succeeds(i, p) then
          var rest := Activate(protos, succeeds, i + 1);
          ([RegisterHandler(p.register)] + rest.0, rest.1)
        else ([RegisterHandler(p.register)], Rejected(i))
      case _ => ([], Rejected(i))
  }

  /** The chain from step i: it completes only when every step succeeds; it
      is rejected at the first step that fails; and it calls `register` on
      the protocols in list order, one call per step up to and including the
      failing one (none for a value that is not a protocol descriptor), so no
      protocol after a failure is registered. */
  lemma {:induction false} ActivateSpec(protos: seq<Item>, succeeds: (nat, Protocol) -> bool, i: nat)
    requires i <= |protos|
    decreases |protos| - i
    ensures var r := Activate(protos, succeeds, i);
      r.1.Completed? ==> forall j :: i <= j < |protos| ==> StepSucceeds(protos, succeeds, j)
    ensures var r := Activate(protos, succeeds, i);
      r.1.Rejected? ==>
        && i <= r.1.step < |protos|
        && !StepSucceeds(protos, succeeds, r.1.step)
        && forall j :: i <= j < r.1.step ==> StepSucceeds(protos, succeeds, j)
    ensures var r := Activate(protos, succeeds, i);
      |r.0| == (if r.1.Completed? then |protos| - i
                else r.1.step - i + (if protos[r.1.step].Proto? then 1 else 0))
    ensures var r := Activate(protos, succeeds, i);
      forall j :: i <= j < i + |r.0| ==> protos[j].Proto? && r.0[j - i] == RegisterHandler(protos[j].proto.register)
  {
    if i < |protos| && StepSucceeds(protos, succeeds, i) {
      ActivateSpec(protos, succeeds, i + 1);
      var rest := Activate(protos, succeeds, i + 1);
      var calls := Activate(protos, succeeds, i).0;
      assert calls == [RegisterHandler(protos[i].proto.register)] + rest.0;
      forall j | i < j < i + |calls|
        ensures protos[j].Proto? && calls[j - i] == RegisterHandler(protos[j].proto.register)
      {
        assert calls[j - i] == rest.0[j - (i + 1)];
      }
    }
  }

  /** One more step taken: the calls from step i are step i's call followed by
      the calls from step i + 1, unless step i ended the chain. */
  lemma ActivateStep(protos: seq<Item>, succeeds: (nat, Protocol) -> bool, i: nat)
    requires i < |protos|
    ensures StepSucceeds(protos, succeeds, i) ==>
      Activate(protos, succeeds, i) ==
        ([RegisterHandler(protos[i].proto.register)] + Activate(protos, succeeds, i + 1).0,
         Activate(protos, succeeds, i + 1).1)
    ensures !StepSucceeds(protos, succeeds, i) ==>
      Activate(protos, succeeds, i) ==
        (if protos[i].Proto? then [RegisterHandler(protos[i].proto.register)] else [], Rejected(i))
  {
  }

  /** The loop of the promise chain, against a host log: it appends exactly
      the calls `Activate` describes and reports its outcome. */
  method RunChain(protos: seq<Item>, succeeds: (nat, Protocol) -> bool, host: Host) returns (a: Activation)
    modifies host
    ensures host.calls == old(host.calls) + Activate(protos, succeeds, 0).0
    ensures a == Activate(protos, succeeds, 0).1
  {
    var i := 0;
    while i < |protos|
      invariant 0 <= i <= |protos|
      invariant host.calls + Activate(protos, succeeds, i).0 == old(host.calls) + Activate(protos, succeeds, 0).0
      invariant Activate(protos, succeeds, i).1 == Activate(protos, succeeds, 0).1
    {
      ActivateStep(protos, succeeds, i);
      match protos[i] {
        case Proto(p) =>
          host.calls := host.calls + [RegisterHandler(p.register)];
          if !succeeds(i, p) {
            return Rejected(i);
          }
        case _ =>
          return Rejected(i);
      }
      i := i + 1;
    }
    return Completed;
  }
}

/** `setupWebAPIs`: each web API's manifest split into four calling-convention
    buckets by key prefix, then four exports per API. */
module WebAPIExport {
  import opened PluginData

  const WithCallbackPrefix := "_with_cb_"
  const WithAsyncCallbackPrefix := "_with_async_cb_"
  const ExportAsStaticObjPrefix := "_export_as_static_obj_"

  datatype Convention = Plain | WithCallback | WithAsyncCallback | StaticObject

  /** No name carries two of the prefixes: they differ at a position all three have. */
  lemma PrefixesExclusive(fn: string)
    ensures !(StartsWith(fn, WithCallbackPrefix) && StartsWith(fn, WithAsyncCallbackPrefix))
    ensures !(StartsWith(fn, WithCallbackPrefix) && StartsWith(fn, ExportAsStaticObjPrefix))
    ensures !(StartsWith(fn, WithAsyncCallbackPrefix) && StartsWith(fn, ExportAsStaticObjPrefix))
  {
    if StartsWith(fn, WithCallbackPrefix) {
      assert fn[1] == fn[..|WithCallbackPrefix|][1] == 'w';
      assert fn[6] == fn[..|WithCallbackPrefix|][6] == 'c';
    }
    if StartsWith(fn, WithAsyncCallbackPrefix) {
      assert fn[1] == fn[..|WithAsyncCallbackPrefix|][1] == 'w';
      assert fn[6] == fn[..|WithAsyncCallbackPrefix|][6] == 'a';
    }
    if StartsWith(fn, ExportAsStaticObjPrefix) {
      assert fn[1] == fn[..|ExportAsStaticObjPrefix|][1] == 'e';
    }
  }

  /** The prefixes are tested in this order; anything else is plain. Since no
      name carries two prefixes, a name's convention is exactly the one
      whose prefix it carries. */
  function Classify(fn: string): (r: Convention)
    ensures r == WithCallback <==> StartsWith(fn, WithCallbackPrefix)
    ensures r == WithAsyncCallback <==> StartsWith(fn, WithAsyncCallbackPrefix)
    ensures r == StaticObject <==> StartsWith(fn, ExportAsStaticObjPrefix)
  {
    PrefixesExclusive(fn);
    if StartsWith(fn, WithCallbackPrefix) then WithCallback
    else if StartsWith(fn, WithAsyncCallbackPrefix) then WithAsyncCallback
    else if StartsWith(fn, ExportAsStaticObjPrefix) then StaticObject
    else Plain
  }

  /** The manifest entries of one convention, under their full (prefixed) names. */
  function Bucket(manifest: map<string, FnId>, c: Convention): map<string, FnId>
  {
    map fn | fn in manifest && Classify(fn) == c :: manifest[fn]
  }

  /** The buckets partition the manifest: every entry is in exactly the
      bucket of its convention, with its value and its full name, and the
      four together are the whole manifest. */
  lemma BucketsPartition(manifest: map<string, FnId>)
    ensures forall fn, c :: fn in Bucket(manifest, c) <==> fn in manifest && Classify(fn) == c
    ensures forall fn, c :: fn in Bucket(manifest, c) ==> Bucket(manifest, c)[fn] == manifest[fn]
    ensures Bucket(manifest, Plain) + Bucket(manifest, WithCallback)
          + Bucket(manifest, WithAsyncCallback) + Bucket(manifest, StaticObject) == manifest
  {
    var u := Bucket(manifest, Plain) + Bucket(manifest, WithCallback)
           + Bucket(manifest, WithAsyncCallback) + Bucket(manifest, StaticObject);
    assert u.Keys == manifest.Keys by {
      forall fn | fn in manifest ensures fn in u {
        assert fn in Bucket(manifest, Classify(fn));
      }
    }
  }

  /** The entries of one convention among the keys already visited. */
  function VisitedBucket(manifest: map<string, FnId>, visited: set<string>, c: Convention): map<string, FnId>
  {
    map fn | fn in manifest && fn in visited && Classify(fn) == c :: manifest[fn]
  }

  /** Visiting one more key adds it to the bucket of its convention only. */
  lemma VisitOne(manifest: map<string, FnId>, visited: set<string>, fn: string, c: Convention)
    requires fn in manifest
    ensures VisitedBucket(manifest, visited + {fn}, c) ==
      if Classify(fn) == c then VisitedBucket(manifest, visited, c)[fn := manifest[fn]]
      else VisitedBucket(manifest, visited, c)
  {
  }

  /** The `for...in` loop over the manifest's keys, filling the four buckets. */
  method Partition(manifest: map<string, FnId>)
    returns (plain: map<string, FnId>, withCallbacks: map<string, FnId>,
             withAsyncCallbacks: map<string, FnId>, statics: map<string, FnId>)
    ensures plain.Keys !! withCallbacks.Keys && plain.Keys !! withAsyncCallbacks.Keys
    ensures plain.Keys !! statics.Keys && withCallbacks.Keys !! withAsyncCallbacks.Keys
    ensures withCallbacks.Keys !! statics.Keys && withAsyncCallbacks.Keys !! statics.Keys
    ensures plain + withCallbacks + withAsyncCallbacks + statics == manifest
    ensures plain == Bucket(manifest, Plain) && withCallbacks == Bucket(manifest, WithCallback)
    ensures withAsyncCallbacks == Bucket(manifest, WithAsyncCallback) && statics == Bucket(manifest, StaticObject)
  {
    plain, withCallbacks, withAsyncCallbacks, statics := map[], map[], map[], map[];
    var visited: set<string> := {};
    while visited != manifest.Keys
      invariant visited <= manifest.Keys
      invariant plain == VisitedBucket(manifest, visited, Plain)
      invariant withCallbacks == VisitedBucket(manifest, visited, WithCallback)
      invariant withAsyncCallbacks == VisitedBucket(manifest, visited, WithAsyncCallback)
      invariant statics == VisitedBucket(manifest, visited, StaticObject)
      decreases manifest.Keys - visited
    {
      var fn :| fn in manifest && fn !in visited;
      VisitOne(manifest, visited, fn, Plain);
      VisitOne(manifest, visited, fn, WithCallback);
      VisitOne(manifest, visited, fn, WithAsyncCallback);
      VisitOne(manifest, visited, fn, StaticObject);
      if StartsWith(fn, WithCallbackPrefix) {
        withCallbacks := withCallbacks[fn := manifest[fn]];
      } else if StartsWith(fn, WithAsyncCallbackPrefix) {
        withAsyncCallbacks := withAsyncCallbacks[fn := manifest[fn]];
      } else if StartsWith(fn, ExportAsStaticObjPrefix) {
        statics := statics[fn := manifest[fn]];
      } else {
        plain := plain[fn := manifest[fn]];
      }
      visited := visited + {fn};
    }
    forall c ensures VisitedBucket(manifest, visited, c) == Bucket(manifest, c) {
      BucketOfAll(manifest, visited, c);
    }
    BucketsPartition(manifest);
  }

  lemma BucketOfAll(manifest: map<string, FnId>, visited: set<string>, c: Convention)
    requires visited == manifest.Keys
    ensures VisitedBucket(manifest, visited, c) == Bucket(manifest, c)
  {
  }

  /** The four exports of one API: the plain bucket under its name, each
      other bucket under its prefix followed by the name, all with the API's
      method metadata; every channel is exported, even for an empty bucket. */
  function ExportsOf(a: WebAPI): seq<HostCall>
  {
    [ ExportAPI(a.name, Bucket(a.manifest, Plain), a.methods),
      ExportAPI(WithCallbackPrefix + a.name, Bucket(a.manifest, WithCallback), a.methods),
      ExportAPI(WithAsyncCallbackPrefix + a.name, Bucket(a.manifest, WithAsyncCallback), a.methods),
      ExportAPI(ExportAsStaticObjPrefix + a.name, Bucket(a.manifest, StaticObject), a.methods) ]
  }

  /** The number of web-API descriptors in a list. */
  function ApiCount(xs: seq<Item>): nat
  {
    if xs == [] then 0 else ApiCount(xs[..|xs| - 1]) + (if xs[|xs| - 1].Api? then 1 else 0)
  }

  /** The exports of every web API of the list, in list order. */
  function AllExports(xs: seq<Item>): (r: seq<HostCall>)
    ensures |r| == 4 * ApiCount(xs)
  {
    if xs == [] then []
    else AllExports(xs[..|xs| - 1]) + (if xs[|xs| - 1].Api? then ExportsOf(xs[|xs| - 1].api) else [])
  }

  /** The API at position i has its four exports at positions 4 * (number of
      APIs before it) onward: the exports follow list order, four per API. */
  lemma {:induction false} AllExportsAt(xs: seq<Item>, i: nat)
    requires i < |xs| && xs[i].Api?
    ensures 4 * ApiCount(xs[..i]) + 4 <= |AllExports(xs)|
    ensures AllExports(xs)[4 * ApiCount(xs[..i]) .. 4 * ApiCount(xs[..i]) + 4] == ExportsOf(xs[i].api)
  {
    var init := xs[..|xs| - 1];
    if i == |xs| - 1 {
      assert xs[..i] == init;
    } else {
      assert init[..i] == xs[..i];
      AllExportsAt(init, i);
      ApiCountPrefix(init, i + 1);
      assert init[..i + 1][..i] == xs[..i];
      assert init[..i + 1][i] == xs[i];
    }
  }

  lemma {:induction false} ApiCountPrefix(xs: seq<Item>, k: nat)
    requires k <= |xs|
    ensures ApiCount(xs[..k]) <= ApiCount(xs)
    decreases |xs| - k
  {
    if k < |xs| {
      ApiCountPrefix(xs[..|xs| - 1], k);
      assert xs[..|xs| - 1][..k] == xs[..k];
    } else {
      assert xs[..k] == xs;
    }
  }

  /** The `forEach` over the aggregated web APIs, against a host log. */
  method ExportAll(apis: seq<Item>, host: Host)
    modifies host
    ensures host.calls == old(host.calls) + AllExports(apis)
  {
    var i := 0;
    while i < |apis|
      invariant 0 <= i <= |apis|
      invariant host.calls == old(host.calls) + AllExports(apis[..i])
    {
      assert apis[..i + 1][..i] == apis[..i];
      match apis[i] {
        case Api(a) =>
          var plain, withCallbacks, withAsyncCallbacks, statics := Partition(a.manifest);
          host.calls := host.calls + [ExportAPI(a.name, plain, a.methods)];
          host.calls := host.calls + [ExportAPI(WithCallbackPrefix + a.name, withCallbacks, a.methods)];
          host.calls := host.calls + [ExportAPI(WithAsyncCallbackPrefix + a.name, withAsyncCallbacks, a.methods)];
          host.calls := host.calls + [ExportAPI(ExportAsStaticObjPrefix + a.name, statics, a.methods)];
        case _ =>
      }
      i := i + 1;
    }
    assert apis[..i] == apis;
  }
}

/** `getWebAPIManifests(scheme)`: the manifests of the web APIs that belong
    to the first protocol with the given scheme. */
module ManifestLookup {
  import opened PluginData

  /** `scheme.replace(/:/g, '')`. */
  function StripColons(s: string): (r: string)
    ensures ':' !in r
    ensures ':' !in s ==> r == s
    ensures |r| <= |s|
  {
    if s == [] then []
    else (if s[0] == ':' then [] else [s[0]]) + StripColons(s[1..])
  }

  /** Colons are deleted, not replaced: every other character is kept as
      often as it occurs, and the result is shorter by the number of colons. */
  lemma {:induction false} StripColonsDeletes(s: string)
    ensures multiset(StripColons(s)) == multiset(s)[':' := 0]
    ensures |StripColons(s)| == |s| - multiset(s)[':']
  {
    if s != [] {
      StripColonsDeletes(s[1..]);
      assert s == [s[0]] + s[1..];
    }
  }

  /** Stripping distributes over concatenation. */
  lemma {:induction false} StripColonsAppend(a: string, b: string)
    ensures StripColons(a + b) == StripColons(a) + StripColons(b)
  {
    if a != [] {
      StripColonsAppend(a[1..], b);
      assert (a + b)[1..] == a[1..] + b;
      assert (a + b)[0] == a[0];
    } else {
      assert a + b == b;
    }
  }

  /** The index of the first item whose scheme is `s` (`find`). */
  function FirstWithScheme(protos: seq<Item>, s: string): (r: Option<nat>)
    ensures r.None? <==> forall i :: 0 <= i < |protos| ==> SchemeOf(protos[i]) != Some(s)
    ensures r.Some? ==> r.value < |protos| && SchemeOf(protos[r.value]) == Some(s)
    ensures r.Some? ==> forall j :: 0 <= j < r.value ==> SchemeOf(protos[j]) != Some(s)
  {
    if protos == [] then None
    else if SchemeOf(protos[0]) == Some(s) then Some(0)
    else
      assert forall i :: 1 <= i < |protos| ==> protos[i] == protos[1..][i - 1];
      match FirstWithScheme(protos[1..], s)
      case None => None
      case Some(k) => Some(k + 1)
  }

  /** The API serves scheme s: its `scheme` is s or its `schemes` holds s. */
  predicate Serves(a: WebAPI, s: string)
  {
    a.scheme == Some(s) || (a.schemes.Some? && Some(s) in a.schemes.value)
  }

  /** An API belongs to the protocol: the same `isInternal` (a missing flag
      equals only a missing flag), and it serves s. */
  predicate Matches(x: Item, proto: Item, s: string)
  {
    x.Api? && x.api.isInternal == IsInternalOf(proto) && Serves(x.api, s)
  }

  /** `manifests[api.name] = api.manifest` for every matching API, in order. */
  function Merged(apis: seq<Item>, proto: Item, s: string): (r: map<string, map<string, FnId>>)
    ensures forall n :: n in r ==> exists j :: 0 <= j < |apis| && Matches(apis[j], proto, s) && apis[j].api.name == n
  {
    if apis == [] then map[]
    else
      var last := apis[|apis| - 1];
      var prev := Merged(apis[..|apis| - 1], proto, s);
      if Matches(last, proto, s) then prev[last.api.name := last.api.manifest] else prev
  }

  /** The index of the last API matching the protocol under name n, if any. */
  function LastNamed(apis: seq<Item>, proto: Item, s: string, n: string): (r: Option<nat>)
    ensures r.Some? ==> r.value < |apis| && Matches(apis[r.value], proto, s) && apis[r.value].api.name == n
    ensures r.Some? ==> forall j :: r.value < j < |apis| && Matches(apis[j], proto, s) ==> apis[j].api.name != n
    ensures r.None? ==> forall j :: 0 <= j < |apis| && Matches(apis[j], proto, s) ==> apis[j].api.name != n
  {
    if apis == [] then None
    else
      var k := |apis| - 1;
      if Matches(apis[k], proto, s) && apis[k].api.name == n then Some(k)
      else
        var init := apis[..k];
        assert forall j :: 0 <= j < k ==> init[j] == apis[j];
        LastNamed(init, proto, s, n)
  }

  /** The merged map holds name n exactly when some matching API has that
      name, and then it holds the manifest of the last such API: a later API
      of the same name overwrites an earlier one. */
  lemma {:induction false} MergedEntry(apis: seq<Item>, proto: Item, s: string, n: string)
    ensures n in Merged(apis, proto, s) <==> LastNamed(apis, proto, s, n).Some?
    ensures n in Merged(apis, proto, s) ==>
      Merged(apis, proto, s)[n] == apis[LastNamed(apis, proto, s, n).value].api.manifest
  {
    if apis != [] {
      var init := apis[..|apis| - 1];
      MergedEntry(init, proto, s, n);
    }
  }

  /** The result of the lookup over the aggregated protocols and web APIs. */
  function ManifestsFor(protos: seq<Item>, apis: seq<Item>, scheme: string): (r: map<string, map<string, FnId>>)
    ensures forall n :: n in r ==>
      exists j :: 0 <= j < |apis| && apis[j].Api? && apis[j].api.name == n && Serves(apis[j].api, StripColons(scheme))
  {
    var s := StripColons(scheme);
    match FirstWithScheme(protos, s)
    case None => map[]
    case Some(i) => Merged(apis, protos[i], s)
  }

  /** Colons do not matter: `"foo:"` and `"foo"` (and `":f:o:o"`) look up the same. */
  lemma ColonInsensitive(protos: seq<Item>, apis: seq<Item>, scheme: string)
    ensures ManifestsFor(protos, apis, scheme + ":") == ManifestsFor(protos, apis, scheme)
    ensures ManifestsFor(protos, apis, StripColons(scheme)) == ManifestsFor(protos, apis, scheme)
  {
    StripColonsAppend(scheme, ":");
    assert StripColons(":") == [];
    assert StripColons(scheme) + [] == StripColons(scheme);
  }

  /** No protocol with the scheme: the result is empty. */
  lemma UnknownSchemeIsEmpty(protos: seq<Item>, apis: seq<Item>, scheme: string)
    requires forall i :: 0 <= i < |protos| ==> SchemeOf(protos[i]) != Some(StripColons(scheme))
    ensures ManifestsFor(protos, apis, scheme) == map[]
  {
  }

  /** With a protocol for the scheme, the result's names are exactly those of
      the APIs that match the first such protocol, each with the manifest of
      the last matching API of that name. */
  lemma KnownSchemeManifests(protos: seq<Item>, apis: seq<Item>, scheme: string, k: nat)
    requires k < |protos| && SchemeOf(protos[k]) == Some(StripColons(scheme))
    requires forall j :: 0 <= j < k ==> SchemeOf(protos[j]) != Some(StripColons(scheme))
    ensures ManifestsFor(protos, apis, scheme) == Merged(apis, protos[k], StripColons(scheme))
  {
  }

  /** The `forEach` that fills `manifests`. */
  method MergeManifests(apis: seq<Item>, proto: Item, s: string) returns (manifests: map<string, map<string, FnId>>)
    ensures manifests == Merged(apis, proto, s)
  {
    manifests := map[];
    var i := 0;
    while i < |apis|
      invariant 0 <= i <= |apis|
      invariant manifests == Merged(apis[..i], proto, s)
    {
      assert apis[..i + 1][..i] == apis[..i];
      var api := apis[i];
      if api.Api? && api.api.isInternal == IsInternalOf(proto)
         && (api.api.scheme == Some(s) || (api.api.schemes.Some? && Some(s) in api.api.schemes.value)) {
        manifests := manifests[api.api.name := api.api.manifest];
      }
      i := i + 1;
    }
    assert apis[..i] == apis;
  }
}
