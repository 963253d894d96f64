/** Concrete runs of the model on small plugin sets. */
module Scenarios {
  import opened PluginData
  import opened Discovery
  import opened CapabilityIndex
  import SchemeRegistrar
  import Activator
  import WebAPIExport
  import ManifestLookup
  import Plugins

  /** Only the standard-URL protocol's scheme is registered. */
  lemma StandardSchemesExample()
    ensures SchemeRegistrar.StandardSchemes([
      Proto(Protocol("x", true, None, 0)),
      Proto(Protocol("y", false, None, 1))]) == ["x"]
  {
  }

  /** The example keys' prefix classes. */
  lemma ClassifyExample()
    ensures WebAPIExport.Classify("_with_cb_foo") == WebAPIExport.WithCallback
    ensures WebAPIExport.Classify("_with_async_cb_bar") == WebAPIExport.WithAsyncCallback
    ensures WebAPIExport.Classify("_export_as_static_obj_baz") == WebAPIExport.StaticObject
    ensures WebAPIExport.Classify("qux") == WebAPIExport.Plain
  {
    assert "_with_async_cb_bar"[..9][6] != WebAPIExport.WithCallbackPrefix[6];
    assert "_export_as_static_obj_baz"[..9][1] != WebAPIExport.WithCallbackPrefix[1];
    assert "_export_as_static_obj_baz"[..15][1] != WebAPIExport.WithAsyncCallbackPrefix[1];
  }

  /** The buckets keep the full prefixed names of the manifest entries. */
  lemma ClassificationExample(manifest: map<string, FnId>)
    requires manifest == map["_with_cb_foo" := 1, "_with_async_cb_bar" := 2,
                             "_export_as_static_obj_baz" := 3, "qux" := 4]
    ensures WebAPIExport.Bucket(manifest, WebAPIExport.WithCallback) == map["_with_cb_foo" := 1]
    ensures WebAPIExport.Bucket(manifest, WebAPIExport.WithAsyncCallback) == map["_with_async_cb_bar" := 2]
    ensures WebAPIExport.Bucket(manifest, WebAPIExport.StaticObject) == map["_export_as_static_obj_baz" := 3]
    ensures WebAPIExport.Bucket(manifest, WebAPIExport.Plain) == map["qux" := 4]
  {
    ClassifyExample();
    assert manifest.Keys == {"_with_cb_foo", "_with_async_cb_bar", "_export_as_static_obj_baz", "qux"};
    assert WebAPIExport.Bucket(manifest, WebAPIExport.WithCallback).Keys == {"_with_cb_foo"};
    assert WebAPIExport.Bucket(manifest, WebAPIExport.WithAsyncCallback).Keys == {"_with_async_cb_bar"};
    assert WebAPIExport.Bucket(manifest, WebAPIExport.StaticObject).Keys == {"_export_as_static_obj_baz"};
    assert WebAPIExport.Bucket(manifest, WebAPIExport.Plain).Keys == {"qux"};
  }

  /** Protocols A, B, C where B's register fails: A and B are called, in that
      order, C never is, and the chain is rejected at B. */
  lemma ActivationExample(succeeds: (nat, Protocol) -> bool)
    requires succeeds(0, Protocol("a", false, None, 10))
    requires !succeeds(1, Protocol("b", false, None, 11))
    ensures Activator.Activate([Proto(Protocol("a", false, None, 10)), Proto(Protocol("b", false, None, 11)),
                                Proto(Protocol("c", false, None, 12))], succeeds, 0)
            == ([RegisterHandler(10), RegisterHandler(11)], Activator.Rejected(1))
  {
    var protos := [Proto(Protocol("a", false, None, 10)), Proto(Protocol("b", false, None, 11)),
                   Proto(Protocol("c", false, None, 12))];
    Activator.ActivateStep(protos, succeeds, 1);
    assert Activator.Activate(protos, succeeds, 1) == ([RegisterHandler(11)], Activator.Rejected(1));
    Activator.ActivateStep(protos, succeeds, 0);
    assert Activator.StepSucceeds(protos, succeeds, 0);
    assert [RegisterHandler(10)] + [RegisterHandler(11)] == [RegisterHandler(10), RegisterHandler(11)];
  }

  /** One of three plugins fails to load: the other two are loaded, in order,
      and their protocols are aggregated. */
  lemma FailedLoadIsolated(load: string -> Option<PluginModule>, m1: PluginModule, m3: PluginModule, p1: Protocol, p3: Protocol)
    requires load("one") == Some(m1) && load("two") == None && load("three") == Some(m3)
    requires m1 == PluginModule(map[ProtocolsKey := One(Proto(p1))])
    requires m3 == PluginModule(map[ProtocolsKey := Many([Proto(p3)])])
    ensures Loaded(["one", "two", "three"], load) == [m1, m3]
    ensures Collect([m1, m3], ProtocolsKey).items == [Proto(p1), Proto(p3)]
  {
    var names := ["one", "two", "three"];
    LoadedFront(names, load);
    LoadedFront(names[1..], load);
    LoadedFront(names[2..], load);
    assert names[1..][1..] == names[2..] && names[2..][1..] == [];
    CollectPlainKey([m1, m3], ProtocolsKey);
    assert [m1, m3][1..] == [m3] && [m3][1..] == [];
    assert ExportOf(m1, ProtocolsKey) == One(Proto(p1)) && ExportOf(m3, ProtocolsKey) == Many([Proto(p3)]);
    assert ConcatValues([m3], ProtocolsKey) == [Proto(p3)];
  }

  /** Two requests for the same key return the same list, whatever the first
      request stored. */
  method MemoizedTwice(registry: Plugins.Registry, key: string)
    returns (first: Result<seq<Item>, TypeError>, second: Result<seq<Item>, TypeError>)
    modifies registry`modules, registry`caches
    ensures key in registry.caches && second == Ok(registry.caches[key])
    ensures first.Ok? ==> first == second
  {
    first := registry.GetAllInfo(key);
    second := registry.GetAllInfo(key);
  }
}
