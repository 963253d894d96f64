/** The aggregation behind `getAllInfo(key)`: every loaded module's value for
    `key`, wrapped into a list when it is a single value, concatenated in
    module order; for `webAPIs`, descriptors without a scheme are back-filled
    from the owning module's `protocols`.

    The back-fill writes into the descriptor objects, which the module itself
    holds; the aggregation therefore also returns the modules as they are
    afterwards. It raises a TypeError when a descriptor needs a back-fill
    and its module's `protocols` is not an array; the modules after the
    failing one are then not visited. */
module CapabilityIndex {
  import opened PluginData

  /** The values a module contributes for `key` before any back-fill:
      none for a falsy value, a single value wrapped as a one-element list. */
  function Values(e: Export): seq<Item>
  {
    match e
    case Falsy => []
    case One(x) => [x]
    case Many(xs) => xs
  }

  /** `!val.scheme`: the scheme is missing or the empty string. */
  predicate NeedsScheme(a: WebAPI)
  {
    a.scheme.None? || a.scheme.value == ""
  }

  /** The schemes of a protocol list, in order (`protocols.map(p => p.scheme)`). */
  function Schemes(ps: seq<Item>): (r: seq<Option<string>>)
    ensures |r| == |ps| && forall i :: 0 <= i < |ps| ==> r[i] == SchemeOf(ps[i])
  {
    seq(|ps|, i requires 0 <= i < |ps| => SchemeOf(ps[i]))
  }

  /** The back-fill of one `webAPIs` value, given its module's `protocols`. */
  function FillItem(x: Item, protocols: Export): Result<Item, TypeError>
  {
    match x
    case Api(a) =>
      if !NeedsScheme(a) then Ok(x)
      else if protocols.Many? && |protocols.items| == 1 then
        Ok(Api(a.(scheme := SchemeOf(protocols.items[0]))))
      else if protocols.Many? then
        Ok(Api(a.(schemes := Some(Schemes(protocols.items)))))
      else
        Err(ProtocolsNotAnArray)
    case _ => Ok(x)
  }

  /** `values.map(...)` with the back-fill: the first TypeError aborts. */
  function FillAll(xs: seq<Item>, protocols: Export): (r: Result<seq<Item>, TypeError>)
    ensures r.Ok? <==> forall i :: 0 <= i < |xs| ==> FillItem(xs[i], protocols).Ok?
    ensures r.Ok? ==> |r.value| == |xs|
    ensures r.Ok? ==> forall i :: 0 <= i < |xs| ==> r.value[i] == FillItem(xs[i], protocols).value
  {
    if xs == [] then Ok([])
    else match FillItem(xs[0], protocols)
      case Err(e) => Err(e)
      case Ok(y) =>
        match FillAll(xs[1..], protocols)
        case Err(e) =>
          assert forall i :: 1 <= i < |xs| ==> xs[i] == xs[1..][i - 1];
          Err(e)
        case Ok(ys) =>
          assert forall i :: 1 <= i < |xs| ==> xs[i] == xs[1..][i - 1];
          Ok([y] + ys)
  }

  /** The export after its values were replaced by their back-filled objects. */
  function Rewrap(e: Export, filled: seq<Item>): Export
    requires |filled| == |Values(e)|
  {
    match e
    case Falsy => Falsy
    case One(_) => One(filled[0])
    case Many(_) => Many(filled)
  }

  /** What one module adds to the list for `key`, and the module afterwards. */
  function Contribution(m: PluginModule, key: string): Result<(seq<Item>, PluginModule), TypeError>
  {
    var e := ExportOf(m, key);
    if e.Falsy? then Ok(([], m))
    else if key != WebAPIsKey then Ok((Values(e), m))
    else match FillAll(Values(e), ExportOf(m, ProtocolsKey))
      case Err(err) => Err(err)
      case Ok(filled) => Ok((filled, m.(exports := m.exports[key := Rewrap(e, filled)])))
  }

  /** The outcome of aggregating over some modules: the list built so far,
      the modules as they are afterwards, and the error that stopped it. */
  datatype Aggregation = Aggregation(items: seq<Item>, modules: seq<PluginModule>, failed: Option<TypeError>)

  /** The aggregation over `mods` in order, as the `forEach` runs it. */
  function Collect(mods: seq<PluginModule>, key: string): (g: Aggregation)
    ensures |g.modules| == |mods|
  {
    if mods == [] then Aggregation([], [], None)
    else
      var g0 := Collect(mods[..|mods| - 1], key);
      var last := mods[|mods| - 1];
      if g0.failed.Some? then g0.(modules := g0.modules + [last])
      else match Contribution(last, key)
        case Err(e) => Aggregation(g0.items, g0.modules + [last], Some(e))
        case Ok((vs, m')) => Aggregation(g0.items + vs, g0.modules + [m'], None)
  }

  /** One more module visited after a prefix that did not fail. */
  lemma CollectNext(mods: seq<PluginModule>, key: string, i: nat)
    requires i < |mods| && Collect(mods[..i], key).failed.None?
    ensures var g := Collect(mods[..i], key);
      Collect(mods[..i + 1], key) == match Contribution(mods[i], key)
        case Err(e) => Aggregation(g.items, g.modules + [mods[i]], Some(e))
        case Ok((vs, m')) => Aggregation(g.items + vs, g.modules + [m'], None)
  {
    assert mods[..i + 1][..i] == mods[..i];
  }

  /** A module whose contribution fails after a prefix that did not: the
      aggregation ends there, keeping that module and the later ones as they were. */
  lemma CollectFailsHere(mods: seq<PluginModule>, key: string, i: nat, items: seq<Item>, prefix: seq<PluginModule>)
    requires i < |mods| && Collect(mods[..i], key) == Aggregation(items, prefix, None)
    requires Contribution(mods[i], key).Err?
    ensures Collect(mods, key) == Aggregation(items, prefix + mods[i..], Some(Contribution(mods[i], key).error))
  {
    var err := Contribution(mods[i], key).error;
    CollectNext(mods, key, i);
    var g := Collect(mods[..i + 1], key);
    assert g == Aggregation(items, prefix + [mods[i]], Some(err));
    CollectStaysFailed(mods, key, i + 1);
    assert Collect(mods, key) == Aggregation(items, (prefix + [mods[i]]) + mods[i + 1..], Some(err));
    assert mods[i..] == [mods[i]] + mods[i + 1..];
    assert (prefix + [mods[i]]) + mods[i + 1..] == prefix + mods[i..];
  }

  /** The `forEach` over the modules: grow the list by each module's values,
      writing the back-filled descriptors into their module, and stop at the
      first TypeError with the list built so far. */
  method Aggregate(mods: seq<PluginModule>, key: string)
    returns (items: seq<Item>, updated: seq<PluginModule>, failed: Option<TypeError>)
    ensures Collect(mods, key) == Aggregation(items, updated, failed)
  {
    items, updated, failed := [], mods, None;
    var i := 0;
    while i < |mods|
      invariant 0 <= i <= |mods| == |updated|
      invariant Collect(mods[..i], key) == Aggregation(items, updated[..i], None)
      invariant updated[i..] == mods[i..]
    {
      var m := updated[i];
      CollectNext(mods, key, i);
      var e := ExportOf(m, key);
      if !e.Falsy? {
        var values := Values(e);
        if key == WebAPIsKey {
          match FillAll(values, ExportOf(m, ProtocolsKey)) {
            case Err(err) =>
              CollectFailsHere(mods, key, i, items, updated[..i]);
              assert updated == updated[..i] + mods[i..];
              return items, updated, Some(err);
            case Ok(filled) =>
              values := filled;
              updated := updated[i := m.(exports := m.exports[key := Rewrap(e, filled)])];
          }
        }
        items := items + values;
      }
      assert updated[..i + 1] == updated[..i] + [updated[i]] && updated[i + 1..] == mods[i + 1..];
      i := i + 1;
    }
    assert mods[..i] == mods && updated[..i] == updated;
  }

  // ---------------------------------------------------------------------------
  // Reference definition: the plain concatenation of every module's values.

  /** Every module's contribution, first module first. */
  function ConcatContributions(mods: seq<PluginModule>, key: string): seq<Item>
    requires forall i :: 0 <= i < |mods| ==> Contribution(mods[i], key).Ok?
  {
    if mods == [] then [] else Contribution(mods[0], key).value.0 + ConcatContributions(mods[1..], key)
  }

  /** Every module's modules-after, first module first. */
  function ModulesAfter(mods: seq<PluginModule>, key: string): seq<PluginModule>
    requires forall i :: 0 <= i < |mods| ==> Contribution(mods[i], key).Ok?
  {
    if mods == [] then [] else [Contribution(mods[0], key).value.1] + ModulesAfter(mods[1..], key)
  }

  lemma {:induction false} ConcatContributionsSnoc(mods: seq<PluginModule>, key: string)
    requires mods != []
    requires forall i :: 0 <= i < |mods| ==> Contribution(mods[i], key).Ok?
    ensures ConcatContributions(mods, key) ==
      ConcatContributions(mods[..|mods| - 1], key) + Contribution(mods[|mods| - 1], key).value.0
    ensures ModulesAfter(mods, key) ==
      ModulesAfter(mods[..|mods| - 1], key) + [Contribution(mods[|mods| - 1], key).value.1]
  {
    if |mods| > 1 {
      var tail := mods[1..];
      ConcatContributionsSnoc(tail, key);
      assert tail[..|tail| - 1] == mods[..|mods| - 1][1..];
      assert mods[..|mods| - 1][0] == mods[0];
    } else {
      assert mods[1..] == [] && mods[..0] == [];
    }
  }

  /** When every module contributes without error, the aggregation is the
      concatenation of the contributions in module order and no error is raised. */
  lemma {:induction false} CollectAllOk(mods: seq<PluginModule>, key: string)
    requires forall i :: 0 <= i < |mods| ==> Contribution(mods[i], key).Ok?
    ensures Collect(mods, key) == Aggregation(ConcatContributions(mods, key), ModulesAfter(mods, key), None)
  {
    if mods != [] {
      CollectAllOk(mods[..|mods| - 1], key);
      ConcatContributionsSnoc(mods, key);
    }
  }

  /** For any key other than `webAPIs` the aggregation never fails, leaves the
      modules as they were, and is the concatenation of each module's values
      in module order (a single value wrapped, a falsy one contributing nothing). */
  lemma {:induction false} CollectPlainKey(mods: seq<PluginModule>, key: string)
    requires key != WebAPIsKey
    ensures Collect(mods, key).failed == None
    ensures Collect(mods, key).modules == mods
    ensures Collect(mods, key).items == ConcatValues(mods, key)
  {
    if mods != [] {
      var init := mods[..|mods| - 1];
      CollectPlainKey(init, key);
      ConcatValuesSnoc(mods, key);
      assert mods == init + [mods[|mods| - 1]];
    }
  }

  /** The concatenation of every module's values for `key`, in module order. */
  function ConcatValues(mods: seq<PluginModule>, key: string): seq<Item>
  {
    if mods == [] then [] else Values(ExportOf(mods[0], key)) + ConcatValues(mods[1..], key)
  }

  lemma {:induction false} ConcatValuesSnoc(mods: seq<PluginModule>, key: string)
    requires mods != []
    ensures ConcatValues(mods, key) ==
      ConcatValues(mods[..|mods| - 1], key) + Values(ExportOf(mods[|mods| - 1], key))
  {
    if |mods| > 1 {
      var tail := mods[1..];
      ConcatValuesSnoc(tail, key);
      assert tail[..|tail| - 1] == mods[..|mods| - 1][1..];
      assert mods[..|mods| - 1][0] == mods[0];
    } else {
      assert mods[1..] == [] && mods[..0] == [];
    }
  }

  // ---------------------------------------------------------------------------
  // The web-API back-fill.

  /** The back-fill of one descriptor: one with a scheme is left alone; one
      without gets `scheme` from a one-element `protocols` array, `schemes`
      (every protocol's scheme, in order) from any other array, and raises a
      TypeError when `protocols` is not an array. Nothing else changes. */
  lemma BackFillCases(a: WebAPI, protocols: Export)
    ensures !NeedsScheme(a) ==> FillItem(Api(a), protocols) == Ok(Api(a))
    ensures NeedsScheme(a) && protocols.Many? && |protocols.items| == 1 ==>
      FillItem(Api(a), protocols) == Ok(Api(a.(scheme := SchemeOf(protocols.items[0]))))
    ensures NeedsScheme(a) && protocols.Many? && |protocols.items| != 1 ==>
      FillItem(Api(a), protocols).Ok? &&
      var b := FillItem(Api(a), protocols).value.api;
      b.schemes == Some(Schemes(protocols.items)) && b.scheme == a.scheme &&
      b.name == a.name && b.manifest == a.manifest && b.methods == a.methods &&
      b.isInternal == a.isInternal
    ensures NeedsScheme(a) && !protocols.Many? ==> FillItem(Api(a), protocols) == Err(ProtocolsNotAnArray)
  {
  }

  /** A module's web APIs fail to back-fill exactly when its `protocols` is
      not an array and one of them lacks a scheme. */
  lemma FillAllFails(xs: seq<Item>, protocols: Export)
    ensures FillAll(xs, protocols).Err? <==>
      !protocols.Many? && exists i :: 0 <= i < |xs| && xs[i].Api? && NeedsScheme(xs[i].api)
  {
    if FillAll(xs, protocols).Err? {
      var i :| 0 <= i < |xs| && FillItem(xs[i], protocols).Err?;
      assert xs[i].Api? && NeedsScheme(xs[i].api);
    }
  }

  /** When a module's `protocols` is an array of protocol descriptors, every
      web API it contributes ends up attributed: with a `scheme` or `schemes`. */
  lemma FilledAreAttributed(xs: seq<Item>, ps: seq<Item>)
    requires forall j :: 0 <= j < |ps| ==> ps[j].Proto?
    ensures FillAll(xs, Many(ps)).Ok?
    ensures forall i :: 0 <= i < |xs| && xs[i].Api? ==>
      var y := FillAll(xs, Many(ps)).value[i];
      y.Api? && (y.api.scheme.Some? || y.api.schemes.Some?)
  {
  }

  // ---------------------------------------------------------------------------
  // Failure: the aggregation stops at the first module whose back-fill fails.

  /** Once the aggregation over a prefix has failed, the remaining modules are
      neither read nor changed and nothing more is added. */
  lemma {:induction false} CollectStaysFailed(mods: seq<PluginModule>, key: string, k: nat)
    requires k <= |mods|
    requires Collect(mods[..k], key).failed.Some?
    ensures Collect(mods, key) == Collect(mods[..k], key).(modules := Collect(mods[..k], key).modules + mods[k..])
    decreases |mods| - k
  {
    if k == |mods| {
      assert mods[..k] == mods && mods[k..] == [];
    } else {
      var init := mods[..|mods| - 1];
      assert init[..k] == mods[..k];
      CollectStaysFailed(init, key, k);
      assert init[k..] + [mods[|mods| - 1]] == mods[k..];
    }
  }

  /** The aggregation fails exactly when some module's contribution does; it
      then fails at the first such module k, keeps the list built from the
      modules before k, and leaves module k and the later ones unchanged. */
  lemma {:induction false} CollectFailsAtFirst(mods: seq<PluginModule>, key: string, k: nat)
    requires k < |mods|
    requires Contribution(mods[k], key).Err?
    requires forall i :: 0 <= i < k ==> Contribution(mods[i], key).Ok?
    ensures Collect(mods, key) == Aggregation(
      ConcatContributions(mods[..k], key),
      ModulesAfter(mods[..k], key) + mods[k..],
      Some(Contribution(mods[k], key).error))
  {
    var pre := mods[..k];
    assert forall i :: 0 <= i < k ==> Contribution(pre[i], key).Ok? by {
      assert forall i :: 0 <= i < k ==> pre[i] == mods[i];
    }
    CollectAllOk(pre, key);
    CollectFailsHere(mods, key, k, ConcatContributions(pre, key), ModulesAfter(pre, key));
  }
}
