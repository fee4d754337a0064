/**
 * Grouping of the permitted models by provider (components/model-selector.tsx,
 * the `reduce` into `modelsByProvider`). The JavaScript object it builds is
 * modelled as an association list of groups in insertion order. That is how
 * `Object.entries` lists keys that are not integer-like and not inherited from
 * `Object.prototype`; the provider tags `"x"` and `"openai"` are such keys.
 */
module ProviderGrouping {
  import opened Models

  /** One entry of the object: a provider key and the array pushed under it. */
  datatype Group = Group(provider: string, models: seq<ChatModel>)

  /** Position of the first model of `provider` in `models`, or |models| if there is none. */
  function FirstIndex(models: seq<ChatModel>, provider: string): (k: nat)
    ensures k <= |models|
    ensures k < |models| ==> models[k].provider == provider
    ensures forall j :: 0 <= j < k ==> models[j].provider != provider
  {
    if |models| == 0 then 0
    else if models[0].provider == provider then 0
    else 1 + FirstIndex(models[1..], provider)
  }

  /** The models of `provider`, in input order. */
  function ModelsOf(models: seq<ChatModel>, provider: string): (r: seq<ChatModel>)
    ensures forall m :: m in r ==> m in models && m.provider == provider
  {
    if |models| == 0 then []
    else
      var last := models[|models| - 1];
      ModelsOf(models[..|models| - 1], provider) + (if last.provider == provider then [last] else [])
  }

  /**
   * Position of the group keyed by `provider`, or |groups| when the key is missing.
   * The same search as FirstIndex, but over the object's keys rather than the
   * input models; the two are kept apart because GroupedBy relates one to the other.
   */
  function GroupIndex(groups: seq<Group>, provider: string): (i: nat)
    ensures i <= |groups|
    ensures i < |groups| ==> groups[i].provider == provider
    ensures forall j :: 0 <= j < i ==> groups[j].provider != provider
  {
    if |groups| == 0 then 0
    else if groups[0].provider == provider then 0
    else 1 + GroupIndex(groups[1..], provider)
  }

  /**
   * One step of the reduce: open an empty array under the model's provider when
   * the key is missing, then push the model onto it.
   */
  function AddToGroup(groups: seq<Group>, model: ChatModel): seq<Group>
  {
    var i := GroupIndex(groups, model.provider);
    if i == |groups| then groups + [Group(model.provider, [model])]
    else groups[i := groups[i].(models := groups[i].models + [model])]
  }

  /** The whole reduce, a left fold of AddToGroup from the empty object. */
  function GroupByProvider(models: seq<ChatModel>): seq<Group>
  {
    if |models| == 0 then []
    else AddToGroup(GroupByProvider(models[..|models| - 1]), models[|models| - 1])
  }

  /** The models of all groups, concatenated in group order (what the dropdown lists). */
  function Flatten(groups: seq<Group>): seq<ChatModel>
  {
    if |groups| == 0 then [] else groups[0].models + Flatten(groups[1..])
  }

  /** The reduce over a list with one more model is one more step. */
  lemma {:induction false} GroupByProviderSnoc(models: seq<ChatModel>, x: ChatModel)
    ensures GroupByProvider(models + [x]) == AddToGroup(GroupByProvider(models), x)
  {
    assert (models + [x])[..|models|] == models;
  }

  /** Keys appear in the order their provider first occurs in `models` (so they are distinct). */
  ghost predicate KeysInFirstSeenOrder(models: seq<ChatModel>, groups: seq<Group>)
  {
    forall i, j :: 0 <= i < j < |groups| ==>
      FirstIndex(models, groups[i].provider) < FirstIndex(models, groups[j].provider)
  }

  /** Every key is the provider of some model. */
  ghost predicate KeysOccur(models: seq<ChatModel>, groups: seq<Group>)
  {
    forall i :: 0 <= i < |groups| ==> FirstIndex(models, groups[i].provider) < |models|
  }

  /** Every model's provider is a key. */
  ghost predicate ProvidersCovered(models: seq<ChatModel>, groups: seq<Group>)
  {
    forall k :: 0 <= k < |models| ==> GroupIndex(groups, models[k].provider) < |groups|
  }

  /** Each group holds exactly its provider's models, in input order. */
  ghost predicate GroupsHoldTheirModels(models: seq<ChatModel>, groups: seq<Group>)
  {
    forall i :: 0 <= i < |groups| ==> groups[i].models == ModelsOf(models, groups[i].provider)
  }

  /** `groups` is the grouping of `models` by provider, in first-seen provider order. */
  ghost predicate GroupedBy(models: seq<ChatModel>, groups: seq<Group>)
  {
    && KeysInFirstSeenOrder(models, groups)
    && KeysOccur(models, groups)
    && ProvidersCovered(models, groups)
    && GroupsHoldTheirModels(models, groups)
  }

  /** Appending a model leaves the first index of an earlier provider alone. */
  lemma {:induction false} FirstIndexExtend(prefix: seq<ChatModel>, x: ChatModel, provider: string)
    ensures FirstIndex(prefix, provider) < |prefix| ==>
      FirstIndex(prefix + [x], provider) == FirstIndex(prefix, provider)
    ensures FirstIndex(prefix, provider) == |prefix| && x.provider == provider ==>
      FirstIndex(prefix + [x], provider) == |prefix|
  {
    var a := FirstIndex(prefix, provider);
    if a < |prefix| {
      assert (prefix + [x])[a] == prefix[a];
    } else {
      assert (prefix + [x])[a] == x;
    }
  }

  /** Appending a model adds it to its own provider's models and to no other. */
  lemma {:induction false} ModelsOfExtend(prefix: seq<ChatModel>, x: ChatModel, provider: string)
    ensures ModelsOf(prefix + [x], provider) ==
      ModelsOf(prefix, provider) + (if x.provider == provider then [x] else [])
  {
    assert (prefix + [x])[..|prefix|] == prefix;
  }

  /** A provider that does not occur has no models. */
  lemma {:induction false} ModelsOfAbsent(models: seq<ChatModel>, provider: string)
    requires FirstIndex(models, provider) == |models|
    ensures ModelsOf(models, provider) == []
    decreases |models|
  {
    if |models| > 0 {
      var prefix := models[..|models| - 1];
      assert FirstIndex(prefix, provider) == |prefix|;
      ModelsOfAbsent(prefix, provider);
    }
  }

  /** GroupIndex only looks at the keys. */
  lemma {:induction false} GroupIndexSameKeys(a: seq<Group>, b: seq<Group>, provider: string)
    requires |a| == |b|
    requires forall j :: 0 <= j < |a| ==> a[j].provider == b[j].provider
    ensures GroupIndex(a, provider) == GroupIndex(b, provider)
  {
  }

  /** Appending a group does not move the keys before it. */
  lemma {:induction false} GroupIndexAppend(groups: seq<Group>, g: Group, provider: string)
    ensures GroupIndex(groups, provider) < |groups| ==>
      GroupIndex(groups + [g], provider) == GroupIndex(groups, provider)
    ensures GroupIndex(groups, provider) == |groups| && g.provider == provider ==>
      GroupIndex(groups + [g], provider) == |groups|
  {
    var x := GroupIndex(groups, provider);
    if x < |groups| {
      assert (groups + [g])[x] == groups[x];
    } else {
      assert (groups + [g])[x] == g;
    }
  }

  /** Pushing a model of a provider the groups lack opens a new last group. */
  lemma {:induction false} AddNewGroupPreservesGrouping(prefix: seq<ChatModel>, x: ChatModel, g: seq<Group>)
    requires GroupedBy(prefix, g)
    requires GroupIndex(g, x.provider) == |g|
    ensures GroupedBy(prefix + [x], AddToGroup(g, x))
  {
    var models := prefix + [x];
    var p := x.provider;
    var ng := Group(p, [x]);
    var r := AddToGroup(g, x);
    assert r == g + [ng];
    assert FirstIndex(prefix, p) == |prefix|;
    FirstIndexExtend(prefix, x, p);
    forall j | 0 <= j < |g|
      ensures FirstIndex(models, g[j].provider) == FirstIndex(prefix, g[j].provider) < |prefix|
    {
      FirstIndexExtend(prefix, x, g[j].provider);
    }
    NewGroupKeys(prefix, x, g);
    NewGroupModels(prefix, x, g);
    NewGroupCovers(prefix, x, g);
  }

  lemma {:induction false} NewGroupKeys(prefix: seq<ChatModel>, x: ChatModel, g: seq<Group>)
    requires KeysInFirstSeenOrder(prefix, g) && KeysOccur(prefix, g)
    requires FirstIndex(prefix, x.provider) == |prefix|
    requires forall j :: 0 <= j < |g| ==>
      FirstIndex(prefix + [x], g[j].provider) == FirstIndex(prefix, g[j].provider)
    ensures KeysInFirstSeenOrder(prefix + [x], g + [Group(x.provider, [x])])
    ensures KeysOccur(prefix + [x], g + [Group(x.provider, [x])])
  {
    FirstIndexExtend(prefix, x, x.provider);
  }

  lemma {:induction false} NewGroupModels(prefix: seq<ChatModel>, x: ChatModel, g: seq<Group>)
    requires GroupsHoldTheirModels(prefix, g)
    requires FirstIndex(prefix, x.provider) == |prefix|
    requires forall j :: 0 <= j < |g| ==> g[j].provider != x.provider
    ensures GroupsHoldTheirModels(prefix + [x], g + [Group(x.provider, [x])])
  {
    var r := g + [Group(x.provider, [x])];
    ModelsOfAbsent(prefix, x.provider);
    ModelsOfExtend(prefix, x, x.provider);
    forall j | 0 <= j < |r|
      ensures r[j].models == ModelsOf(prefix + [x], r[j].provider)
    {
      ModelsOfExtend(prefix, x, r[j].provider);
    }
  }

  lemma {:induction false} NewGroupCovers(prefix: seq<ChatModel>, x: ChatModel, g: seq<Group>)
    requires ProvidersCovered(prefix, g)
    requires GroupIndex(g, x.provider) == |g|
    ensures ProvidersCovered(prefix + [x], g + [Group(x.provider, [x])])
  {
    var models := prefix + [x];
    forall k | 0 <= k < |models|
      ensures GroupIndex(g + [Group(x.provider, [x])], models[k].provider) < |g| + 1
    {
      GroupIndexAppend(g, Group(x.provider, [x]), models[k].provider);
      if k < |prefix| {
        assert models[k] == prefix[k];
      }
    }
  }

  /** Pushing a model of a provider the groups have extends that provider's group. */
  lemma {:induction false} AddToExistingGroupPreservesGrouping(prefix: seq<ChatModel>, x: ChatModel, g: seq<Group>)
    requires GroupedBy(prefix, g)
    requires GroupIndex(g, x.provider) < |g|
    ensures GroupedBy(prefix + [x], AddToGroup(g, x))
  {
    var models := prefix + [x];
    var p := x.provider;
    var i := GroupIndex(g, p);
    var r := AddToGroup(g, x);
    assert r == g[i := g[i].(models := g[i].models + [x])];
    forall j | 0 <= j < |g|
      ensures FirstIndex(models, g[j].provider) == FirstIndex(prefix, g[j].provider)
    {
      FirstIndexExtend(prefix, x, g[j].provider);
    }
    ExistingGroupKeys(prefix, x, g, r);
    ExistingGroupModels(prefix, x, g, i);
    ExistingGroupCovers(prefix, x, g, r);
  }

  lemma {:induction false} ExistingGroupCovers(prefix: seq<ChatModel>, x: ChatModel, g: seq<Group>, r: seq<Group>)
    requires ProvidersCovered(prefix, g)
    requires GroupIndex(g, x.provider) < |g|
    requires |r| == |g| && forall j :: 0 <= j < |g| ==> r[j].provider == g[j].provider
    ensures ProvidersCovered(prefix + [x], r)
  {
    var models := prefix + [x];
    forall k | 0 <= k < |models|
      ensures GroupIndex(r, models[k].provider) < |r|
    {
      GroupIndexSameKeys(r, g, models[k].provider);
      if k < |prefix| {
        assert models[k] == prefix[k];
      }
    }
  }

  lemma {:induction false} ExistingGroupKeys(prefix: seq<ChatModel>, x: ChatModel, g: seq<Group>, r: seq<Group>)
    requires KeysInFirstSeenOrder(prefix, g) && KeysOccur(prefix, g)
    requires |r| == |g| && forall j :: 0 <= j < |g| ==> r[j].provider == g[j].provider
    requires forall j :: 0 <= j < |g| ==>
      FirstIndex(prefix + [x], g[j].provider) == FirstIndex(prefix, g[j].provider)
    ensures KeysInFirstSeenOrder(prefix + [x], r)
    ensures KeysOccur(prefix + [x], r)
  {
  }

  lemma {:induction false} ExistingGroupModels(prefix: seq<ChatModel>, x: ChatModel, g: seq<Group>, i: nat)
    requires GroupsHoldTheirModels(prefix, g) && KeysInFirstSeenOrder(prefix, g)
    requires i < |g| && g[i].provider == x.provider
    ensures GroupsHoldTheirModels(prefix + [x], g[i := g[i].(models := g[i].models + [x])])
  {
    var r := g[i := g[i].(models := g[i].models + [x])];
    forall j | 0 <= j < |r|
      ensures r[j].models == ModelsOf(prefix + [x], r[j].provider)
    {
      ModelsOfExtend(prefix, x, r[j].provider);
      if j != i {
        assert g[j].provider != x.provider by {
          if i < j {
            assert FirstIndex(prefix, g[i].provider) < FirstIndex(prefix, g[j].provider);
          } else {
            assert FirstIndex(prefix, g[j].provider) < FirstIndex(prefix, g[i].provider);
          }
        }
      }
    }
  }

  /** The reduce groups its input by provider, in first-seen provider order. */
  lemma {:induction false} GroupByProviderGroups(models: seq<ChatModel>)
    ensures GroupedBy(models, GroupByProvider(models))
    decreases |models|
  {
    if |models| > 0 {
      var prefix := models[..|models| - 1];
      var x := models[|models| - 1];
      var g := GroupByProvider(prefix);
      assert models == prefix + [x];
      GroupByProviderGroups(prefix);
      if GroupIndex(g, x.provider) == |g| {
        AddNewGroupPreservesGrouping(prefix, x, g);
      } else {
        AddToExistingGroupPreservesGrouping(prefix, x, g);
      }
    }
  }

  /** A model of `provider` is among that provider's models. */
  lemma {:induction false} ModelsOfContains(models: seq<ChatModel>, provider: string, k: nat)
    requires k < |models| && models[k].provider == provider
    ensures models[k] in ModelsOf(models, provider)
    decreases |models|
  {
    var prefix := models[..|models| - 1];
    if k < |prefix| {
      ModelsOfContains(prefix, provider, k);
      assert prefix[k] == models[k];
    }
  }

  /**
   * The groups partition the input: no group is empty, keys are distinct, a
   * group holds only input models of its key, and each input model sits in the
   * group of its own provider and in no other.
   */
  lemma {:induction false} GroupsPartitionModels(models: seq<ChatModel>)
    ensures var groups := GroupByProvider(models);
      forall i :: 0 <= i < |groups| ==> |groups[i].models| > 0
    ensures var groups := GroupByProvider(models);
      forall i, j :: 0 <= i < j < |groups| ==> groups[i].provider != groups[j].provider
    ensures var groups := GroupByProvider(models);
      forall i, m :: 0 <= i < |groups| && m in groups[i].models ==> m in models && m.provider == groups[i].provider
    ensures var groups := GroupByProvider(models);
      forall k, i :: 0 <= k < |models| && 0 <= i < |groups| ==>
        (models[k] in groups[i].models <==> groups[i].provider == models[k].provider)
    ensures var groups := GroupByProvider(models);
      forall k :: 0 <= k < |models| ==> GroupIndex(groups, models[k].provider) < |groups|
  {
    var groups := GroupByProvider(models);
    GroupByProviderGroups(models);
    forall i | 0 <= i < |groups|
      ensures |groups[i].models| > 0
    {
      ModelsOfContains(models, groups[i].provider, FirstIndex(models, groups[i].provider));
    }
    forall k, i | 0 <= k < |models| && 0 <= i < |groups| && groups[i].provider == models[k].provider
      ensures models[k] in groups[i].models
    {
      ModelsOfContains(models, groups[i].provider, k);
    }
  }

  lemma {:induction false} FlattenAppend(groups: seq<Group>, g: Group)
    ensures Flatten(groups + [g]) == Flatten(groups) + g.models
    decreases |groups|
  {
    if |groups| > 0 {
      assert (groups + [g])[1..] == groups[1..] + [g];
      FlattenAppend(groups[1..], g);
    }
  }

  lemma {:induction false} FlattenExtendGroup(groups: seq<Group>, i: nat, extra: seq<ChatModel>)
    requires i < |groups|
    ensures multiset(Flatten(groups[i := groups[i].(models := groups[i].models + extra)])) ==
      multiset(Flatten(groups)) + multiset(extra)
    decreases |groups|
  {
    var updated := groups[i := groups[i].(models := groups[i].models + extra)];
    if i > 0 {
      assert updated[1..] == groups[1..][i - 1 := groups[i].(models := groups[i].models + extra)];
      FlattenExtendGroup(groups[1..], i - 1, extra);
    } else {
      assert updated[1..] == groups[1..];
    }
  }

  /** Listing the groups one after the other shows every input model exactly as often as the input does. */
  lemma {:induction false} GroupingIsPermutation(models: seq<ChatModel>)
    ensures multiset(Flatten(GroupByProvider(models))) == multiset(models)
    decreases |models|
  {
    if |models| > 0 {
      var prefix := models[..|models| - 1];
      var x := models[|models| - 1];
      var g := GroupByProvider(prefix);
      assert models == prefix + [x];
      GroupingIsPermutation(prefix);
      var i := GroupIndex(g, x.provider);
      if i == |g| {
        FlattenAppend(g, Group(x.provider, [x]));
      } else {
        FlattenExtendGroup(g, i, [x]);
      }
    }
  }

  lemma {:induction false} ContiguousPrefix(models: seq<ChatModel>)
    requires |models| > 0 && ProviderContiguous(models)
    ensures ProviderContiguous(models[..|models| - 1])
  {
    var prefix := models[..|models| - 1];
    forall i, j | 0 <= i < j < |prefix| && prefix[i].provider == prefix[j].provider
      ensures prefix[j - 1].provider == prefix[j].provider
    {
      assert models[i] == prefix[i] && models[j] == prefix[j] && models[j - 1] == prefix[j - 1];
    }
  }

  /** Pushing onto the last group extends the flattened listing by that one model. */
  lemma {:induction false} PushOntoLastGroup(g: seq<Group>, x: ChatModel)
    requires |g| > 0
    requires GroupIndex(g, x.provider) == |g| - 1
    ensures Flatten(AddToGroup(g, x)) == Flatten(g) + [x]
    ensures AddToGroup(g, x)[|g| - 1].provider == x.provider
  {
    var last := |g| - 1;
    var updated := g[last].(models := g[last].models + [x]);
    assert AddToGroup(g, x) == g[..last] + [updated];
    assert g == g[..last] + [g[last]];
    FlattenAppend(g[..last], updated);
    FlattenAppend(g[..last], g[last]);
  }

  /**
   * When each provider's models stand side by side, listing the groups in order
   * gives back the input exactly, and the last group is that of the last model.
   */
  lemma {:induction false} ContiguousGroupingRoundTrip(models: seq<ChatModel>)
    requires ProviderContiguous(models)
    ensures Flatten(GroupByProvider(models)) == models
    ensures |models| > 0 ==>
      && |GroupByProvider(models)| > 0
      && GroupByProvider(models)[|GroupByProvider(models)| - 1].provider == models[|models| - 1].provider
    decreases |models|
  {
    if |models| > 0 {
      var prefix := models[..|models| - 1];
      var x := models[|models| - 1];
      var g := GroupByProvider(prefix);
      assert models == prefix + [x];
      ContiguousPrefix(models);
      ContiguousGroupingRoundTrip(prefix);
      var i := GroupIndex(g, x.provider);
      if i == |g| {
        FlattenAppend(g, Group(x.provider, [x]));
      } else {
        // x's provider occurs in the prefix, so by contiguity it is the provider of the prefix's last model
        GroupByProviderGroups(prefix);
        var k := FirstIndex(prefix, x.provider);
        assert models[k] == prefix[k];
        assert prefix[|prefix| - 1].provider == x.provider;
        var last := |g| - 1;
        assert i == last;
        PushOntoLastGroup(g, x);
      }
    }
  }
}
