/**
 * The pure logic of the model picker (components/model-selector.tsx): the
 * entitlement filter over the catalog, the lookup of the selected model, the
 * capability badges, the provider icon and label, the short name shown on narrow
 * screens, and the state change when the user picks a model.
 */
module ModelSelector {
  import opened Wrappers
  import opened Models
  import opened UserEntitlements
  import opened ProviderGrouping

  /** `sub` can be obtained from `s` by dropping elements, keeping the rest in order. */
  ghost predicate IsSubsequence(sub: seq<ChatModel>, s: seq<ChatModel>)
    decreases |s|
  {
    if |sub| == 0 then true
    else if |s| == 0 then false
    else (sub[0] == s[0] && IsSubsequence(sub[1..], s[1..])) || IsSubsequence(sub, s[1..])
  }

  /**
   * `models.filter(m => ids.includes(m.id))`: the models whose id is listed, in
   * the order of `models` (not of `ids`).
   */
  function FilterByIds(models: seq<ChatModel>, ids: seq<string>): (r: seq<ChatModel>)
    ensures |r| <= |models|
    ensures forall k :: 0 <= k < |r| ==> r[k].id in ids
  {
    if |models| == 0 then []
    else if models[0].id in ids then [models[0]] + FilterByIds(models[1..], ids)
    else FilterByIds(models[1..], ids)
  }

  /** A model is in the filtered list exactly when it is in the input and its id is listed. */
  lemma {:induction false} FilterByIdsMembers(models: seq<ChatModel>, ids: seq<string>)
    ensures forall m :: m in FilterByIds(models, ids) <==> m in models && m.id in ids
    decreases |models|
  {
    if |models| > 0 {
      FilterByIdsMembers(models[1..], ids);
      assert models == [models[0]] + models[1..];
    }
  }

  /** The filter keeps the listed models in their original order. */
  lemma {:induction false} FilterByIdsIsSubsequence(models: seq<ChatModel>, ids: seq<string>)
    ensures IsSubsequence(FilterByIds(models, ids), models)
    decreases |models|
  {
    if |models| > 0 {
      var rest := FilterByIds(models[1..], ids);
      FilterByIdsIsSubsequence(models[1..], ids);
      if models[0].id in ids {
        assert ([models[0]] + rest)[1..] == rest;
      }
    }
  }

  /**
   * The filter keeps each listed model as often as it occurs and drops every
   * other; with the subsequence property this pins the result down.
   */
  lemma {:induction false} FilterByIdsCounts(models: seq<ChatModel>, ids: seq<string>)
    ensures forall m ::
      multiset(FilterByIds(models, ids))[m] == if m.id in ids then multiset(models)[m] else 0
    decreases |models|
  {
    if |models| > 0 {
      FilterByIdsCounts(models[1..], ids);
      assert models == [models[0]] + models[1..];
    }
  }

  /** One step of the filter: a listed head is kept. */
  lemma {:induction false} FilterByIdsKeep(m: ChatModel, rest: seq<ChatModel>, ids: seq<string>)
    requires m.id in ids
    ensures FilterByIds([m] + rest, ids) == [m] + FilterByIds(rest, ids)
  {
    assert ([m] + rest)[0] == m && ([m] + rest)[1..] == rest;
  }

  /** One step of the filter: an unlisted head is dropped. */
  lemma {:induction false} FilterByIdsSkip(m: ChatModel, rest: seq<ChatModel>, ids: seq<string>)
    requires m.id !in ids
    ensures FilterByIds([m] + rest, ids) == FilterByIds(rest, ids)
  {
    assert ([m] + rest)[0] == m && ([m] + rest)[1..] == rest;
  }

  /** When every model is listed, the filter returns its input. */
  lemma {:induction false} FilterByIdsKeepsAllListed(models: seq<ChatModel>, ids: seq<string>)
    requires forall k :: 0 <= k < |models| ==> models[k].id in ids
    ensures FilterByIds(models, ids) == models
    decreases |models|
  {
    if |models| > 0 {
      FilterByIdsKeepsAllListed(models[1..], ids);
      assert [models[0]] + models[1..] == models;
    }
  }

  /** The catalog entries the user type may pick, in catalog order. */
  function AvailableChatModels(userType: UserType): (r: seq<ChatModel>)
    ensures |r| <= |ChatModels|
  {
    FilterByIds(ChatModels, EntitlementsByUserType(userType).availableChatModelIds)
  }

  /** The permitted models grouped by provider, in the order the dropdown renders them. */
  function ModelsByProvider(userType: UserType): seq<Group>
  {
    GroupByProvider(AvailableChatModels(userType))
  }

  /** Filtering an already filtered list with the same ids changes nothing. */
  lemma {:induction false} FilterByIdsIdempotent(models: seq<ChatModel>, ids: seq<string>)
    ensures FilterByIds(FilterByIds(models, ids), ids) == FilterByIds(models, ids)
    decreases |models|
  {
    if |models| > 0 {
      var rest := FilterByIds(models[1..], ids);
      FilterByIdsIdempotent(models[1..], ids);
      if models[0].id in ids {
        assert ([models[0]] + rest)[1..] == rest;
      }
    }
  }

  /** Permitting more ids can only add models: the smaller result is a subsequence of the larger. */
  lemma {:induction false} FilterByWiderIds(models: seq<ChatModel>, fewer: seq<string>, more: seq<string>)
    requires forall id :: id in fewer ==> id in more
    ensures IsSubsequence(FilterByIds(models, fewer), FilterByIds(models, more))
    decreases |models|
  {
    if |models| > 0 {
      var a := FilterByIds(models[1..], fewer);
      var b := FilterByIds(models[1..], more);
      FilterByWiderIds(models[1..], fewer, more);
      if models[0].id in fewer {
        assert ([models[0]] + a)[1..] == a;
        assert ([models[0]] + b)[1..] == b;
      } else if models[0].id in more {
        assert ([models[0]] + b)[1..] == b;
      }
    }
  }

  /** In a list with distinct ids, the head's id occurs nowhere in the tail. */
  lemma {:induction false} HeadIdNotInTail(models: seq<ChatModel>, m: ChatModel)
    requires UniqueIds(models) && |models| > 0
    requires m in models[1..]
    ensures m.id != models[0].id
  {
    var k :| 0 <= k < |models[1..]| && models[1..][k] == m;
    assert models[k + 1] == m;
  }

  /** Two members of a list with distinct ids that share an id are the same model. */
  lemma {:induction false} SameIdSameModel(models: seq<ChatModel>, a: ChatModel, b: ChatModel)
    requires UniqueIds(models) && a in models && b in models
    requires a.id == b.id
    ensures a == b
  {
    var i :| 0 <= i < |models| && models[i] == a;
    var j :| 0 <= j < |models| && models[j] == b;
    assert i == j;
  }

  /** Putting a model with a fresh id in front of a list with distinct ids keeps them distinct. */
  lemma {:induction false} ConsKeepsUniqueIds(m: ChatModel, rest: seq<ChatModel>)
    requires UniqueIds(rest)
    requires forall x :: x in rest ==> x.id != m.id
    ensures UniqueIds([m] + rest)
  {
    var r := [m] + rest;
    forall i, j | 0 <= i < j < |r|
      ensures r[i].id != r[j].id
    {
      assert r[j] == rest[j - 1];
      if i > 0 {
        assert r[i] == rest[i - 1];
      }
    }
  }

  /** Filtering a list with distinct ids yields a list with distinct ids. */
  lemma {:induction false} FilterKeepsUniqueIds(models: seq<ChatModel>, ids: seq<string>)
    requires UniqueIds(models)
    ensures UniqueIds(FilterByIds(models, ids))
    decreases |models|
  {
    if |models| > 0 {
      var tail := models[1..];
      var rest := FilterByIds(tail, ids);
      assert UniqueIds(tail);
      FilterKeepsUniqueIds(tail, ids);
      FilterByIdsMembers(tail, ids);
      if models[0].id in ids {
        forall x | x in rest
          ensures x.id != models[0].id
        {
          HeadIdNotInTail(models, x);
        }
        ConsKeepsUniqueIds(models[0], rest);
      }
    }
  }

  /** `models.find(m => m.id === id)`: the first model with that id, or none. */
  function FindById(models: seq<ChatModel>, id: string): (r: Option<ChatModel>)
    ensures r.None? <==> forall m :: m in models ==> m.id != id
    ensures r.Some? ==> r.value.id == id
    ensures r.Some? ==> exists k :: 0 <= k < |models| && models[k] == r.value &&
                                   forall j :: 0 <= j < k ==> models[j].id != id
  {
    if |models| == 0 then None
    else if models[0].id == id then Some(models[0])
    else FindById(models[1..], id)
  }

  /** The model the picker shows as selected for an optimistic id. */
  function SelectedChatModel(userType: UserType, optimisticModelId: string): (r: Option<ChatModel>)
    ensures r.Some? ==> r.value.id == optimisticModelId
  {
    FindById(AvailableChatModels(userType), optimisticModelId)
  }

  /** In a list with distinct ids, looking up a member's id finds that member. */
  lemma {:induction false} FindByIdFindsMember(models: seq<ChatModel>, m: ChatModel)
    requires UniqueIds(models)
    requires m in models
    ensures FindById(models, m.id) == Some(m)
  {
    var r := FindById(models, m.id);
    var k :| 0 <= k < |models| && models[k] == r.value && forall j :: 0 <= j < k ==> models[j].id != m.id;
    var i :| 0 <= i < |models| && models[i] == m;
  }

  /**
   * An id is found among the filtered models exactly when it is permitted and
   * some model of the unfiltered list carries it.
   */
  lemma {:induction false} FindAfterFilter(models: seq<ChatModel>, ids: seq<string>, id: string)
    ensures FindById(FilterByIds(models, ids), id).Some? <==>
      id in ids && exists k :: 0 <= k < |models| && models[k].id == id
  {
    var filtered := FilterByIds(models, ids);
    FilterByIdsMembers(models, ids);
    if k :| 0 <= k < |models| && models[k].id == id && id in ids {
      assert models[k] in filtered;
    }
  }

  /** The selection is defined exactly for permitted catalog ids. */
  lemma {:induction false} SelectionDefinedIffPermitted(userType: UserType, optimisticModelId: string)
    ensures SelectedChatModel(userType, optimisticModelId).Some? <==>
      optimisticModelId in EntitlementsByUserType(userType).availableChatModelIds && IsCatalogId(optimisticModelId)
  {
    FindAfterFilter(ChatModels, EntitlementsByUserType(userType).availableChatModelIds, optimisticModelId);
  }

  const VisionBadge: string := "Vision"
  const ReasoningBadge: string := "Reasoning"

  /** The badges shown next to a model's name. */
  function CapabilityBadges(model: ChatModel): (badges: seq<string>)
    ensures VisionBadge in badges <==> model.capabilities.vision
    ensures ReasoningBadge in badges <==> model.capabilities.reasoning
    ensures forall b :: b in badges ==> b == VisionBadge || b == ReasoningBadge
    ensures |badges| <= 2
    ensures forall i, j :: 0 <= i < j < |badges| ==> badges[i] != badges[j]
    ensures forall i, j ::
      0 <= i < |badges| && 0 <= j < |badges| && badges[i] == ReasoningBadge && badges[j] == VisionBadge ==> j < i
  {
    var withVision := if model.capabilities.vision then [VisionBadge] else [];
    if model.capabilities.reasoning then withVision + [ReasoningBadge] else withVision
  }

  /** Two models get the same badges exactly when their vision and reasoning flags agree. */
  lemma {:induction false} BadgesDetermineFlags(a: ChatModel, b: ChatModel)
    ensures CapabilityBadges(a) == CapabilityBadges(b) <==>
      a.capabilities.vision == b.capabilities.vision && a.capabilities.reasoning == b.capabilities.reasoning
  {
  }

  /** An `<Image>` of a provider logo, by its source path and alt text. */
  datatype Icon = Icon(src: string, alt: string)

  const XaiIcon := Icon("/providers/logos/xai.svg", "xAI")
  const OpenAiIcon := Icon("/providers/logos/openai.svg", "OpenAI")

  /** The switch in `getProviderIcon`: xAI for "x", OpenAI for "openai" and for anything else. */
  function ProviderIcon(provider: string): (icon: Icon)
    ensures icon == XaiIcon <==> provider == XProvider
    ensures icon == XaiIcon || icon == OpenAiIcon
  {
    if provider == XProvider then XaiIcon
    else if provider == OpenAiProvider then OpenAiIcon
    else OpenAiIcon
  }

  /** The provider name in a group heading. */
  function ProviderLabel(provider: string): (vendor: string)
    ensures vendor == "xAI" <==> provider == XProvider
    ensures vendor == "xAI" || vendor == "OpenAI"
  {
    if provider == XProvider then "xAI" else "OpenAI"
  }

  /** The full heading of a provider's group. */
  function GroupHeading(provider: string): (heading: string)
    ensures heading == "xAI Models" <==> provider == XProvider
    ensures heading == "xAI Models" || heading == "OpenAI Models"
  {
    ProviderLabel(provider) + " Models"
  }

  /** The icon on the trigger button: that of the selected model's provider, "" when none is selected. */
  function TriggerIcon(selected: Option<ChatModel>): (icon: Icon)
    ensures icon == XaiIcon || icon == OpenAiIcon
    ensures icon == XaiIcon <==> selected.Some? && selected.value.provider == XProvider
    ensures selected.Some? ==> icon == ProviderIcon(selected.value.provider)
    ensures selected.None? ==> icon == OpenAiIcon
  {
    ProviderIcon(if selected.Some? && selected.value.provider != "" then selected.value.provider else "")
  }

  /** The logo and the heading name always denote the same vendor. */
  lemma {:induction false} IconAgreesWithLabel(provider: string)
    ensures ProviderIcon(provider).alt == ProviderLabel(provider)
  {
  }

  /** `s.split(' ')[0]`: everything before the first space, or all of `s` if it has none. */
  function FirstWord(s: string): (w: string)
    ensures w <= s
    ensures ' ' !in w
    ensures |w| < |s| ==> s[|w|] == ' '
  {
    if |s| == 0 || s[0] == ' ' then "" else [s[0]] + FirstWord(s[1..])
  }

  /** The first word is the whole string exactly when the string has no space. */
  lemma {:induction false} FirstWordWholeIffNoSpace(s: string)
    ensures FirstWord(s) == s <==> ' ' !in s
  {
  }

  /**
   * The first word is determined by the position of the first space: any `n` with no
   * space before it and a space (or the end) at it gives `s[..n]`.
   */
  lemma {:induction false} FirstWordEndsAtFirstSpace(s: string, n: nat)
    requires n <= |s|
    requires forall k :: 0 <= k < n ==> s[k] != ' '
    requires n < |s| ==> s[n] == ' '
    ensures FirstWord(s) == s[..n]
  {
  }

  /** The name on the trigger button on narrow screens; absent when nothing is selected. */
  function ShortName(selected: Option<ChatModel>): (r: Option<string>)
    ensures r.Some? <==> selected.Some?
    ensures r.Some? ==> r.value <= selected.value.name && ' ' !in r.value
    ensures r.Some? && |r.value| < |selected.value.name| ==> selected.value.name[|r.value|] == ' '
    ensures r.Some? ==> r.value == FirstWord(selected.value.name)
  {
    match selected
    case None => None
    case Some(model) => Some(FirstWord(model.name))
  }

  /** The effects the item handler issues, in issue order. */
  datatype Effect = SaveChatModelAsCookie(modelId: string) | NotifyModelChange(modelId: string)

  /** The picker's state that the item handler changes, with the effects issued so far. */
  datatype PickerState = PickerState(open: bool, optimisticModelId: string, effects: seq<Effect>)

  /**
   * The handler of a picked item: close the dropdown, set the optimistic id,
   * then save the cookie and, when the caller passed `onModelChange`, notify it.
   */
  function OnSelect(state: PickerState, id: string, hasOnModelChange: bool): (next: PickerState)
    ensures !next.open
    ensures next.optimisticModelId == id
    ensures |state.effects| < |next.effects| && next.effects[..|state.effects|] == state.effects
    ensures next.effects[|state.effects|] == SaveChatModelAsCookie(id)
    ensures forall k :: |state.effects| <= k < |next.effects| ==> next.effects[k].modelId == id
    ensures NotifyModelChange(id) in next.effects[|state.effects|..] <==> hasOnModelChange
    ensures |next.effects| == |state.effects| + if hasOnModelChange then 2 else 1
  {
    var issued :=
      if hasOnModelChange then [SaveChatModelAsCookie(id), NotifyModelChange(id)]
      else [SaveChatModelAsCookie(id)];
    assert (state.effects + issued)[|state.effects|..] == issued;
    PickerState(false, id, state.effects + issued)
  }

  /** An item is marked active when its id is the optimistic id. */
  predicate IsActive(state: PickerState, id: string)
  {
    id == state.optimisticModelId
  }

  /** The dropdown lists exactly the permitted models, and their ids are distinct. */
  lemma {:induction false} ListedItemsArePermitted(userType: UserType)
    ensures forall m :: m in Flatten(ModelsByProvider(userType)) <==> m in AvailableChatModels(userType)
    ensures UniqueIds(AvailableChatModels(userType))
  {
    var available := AvailableChatModels(userType);
    GroupingIsPermutation(available);
    assert forall m :: m in Flatten(ModelsByProvider(userType)) <==> m in multiset(available);
    CatalogIdsUnique();
    FilterKeepsUniqueIds(ChatModels, EntitlementsByUserType(userType).availableChatModelIds);
  }

  /**
   * Over any list with distinct ids: after picking one of its models, looking up
   * the optimistic id finds that model, and among any items drawn from the list
   * it is the only one marked active.
   */
  lemma {:induction false} PickMarksOnlyThatModel(
    models: seq<ChatModel>, items: seq<ChatModel>, state: PickerState, model: ChatModel, hasOnModelChange: bool)
    requires UniqueIds(models)
    requires model in models
    requires forall m :: m in items ==> m in models
    ensures var next := OnSelect(state, model.id, hasOnModelChange);
      FindById(models, next.optimisticModelId) == Some(model)
    ensures var next := OnSelect(state, model.id, hasOnModelChange);
      forall k :: 0 <= k < |items| ==> (IsActive(next, items[k].id) <==> items[k] == model)
  {
    FindByIdFindsMember(models, model);
    forall k | 0 <= k < |items| && items[k].id == model.id
      ensures items[k] == model
    {
      SameIdSameModel(models, items[k], model);
    }
  }

  /**
   * Picking a listed model makes it the selected model and marks it, and no
   * other listed item, as active.
   */
  lemma {:induction false} PickSelectsExactlyThatModel(
    userType: UserType, state: PickerState, model: ChatModel, hasOnModelChange: bool)
    requires model in Flatten(ModelsByProvider(userType))
    ensures var next := OnSelect(state, model.id, hasOnModelChange);
      SelectedChatModel(userType, next.optimisticModelId) == Some(model)
    ensures var next := OnSelect(state, model.id, hasOnModelChange);
      var items := Flatten(ModelsByProvider(userType));
      forall k :: 0 <= k < |items| ==> (IsActive(next, items[k].id) <==> items[k] == model)
  {
    ListedItemsArePermitted(userType);
    PickMarksOnlyThatModel(AvailableChatModels(userType), Flatten(ModelsByProvider(userType)),
      state, model, hasOnModelChange);
  }

  /**
   * A second pick before the first settles wins on the optimistic id, while
   * both cookie writes stay issued, in pick order.
   */
  lemma {:induction false} LaterPickWins(state: PickerState, first: string, second: string, hasOnModelChange: bool)
    ensures var next := OnSelect(OnSelect(state, first, hasOnModelChange), second, hasOnModelChange);
      && next.optimisticModelId == second
      && exists i, j :: |state.effects| <= i < j < |next.effects| &&
           next.effects[i] == SaveChatModelAsCookie(first) && next.effects[j] == SaveChatModelAsCookie(second)
  {
    var mid := OnSelect(state, first, hasOnModelChange);
    var next := OnSelect(mid, second, hasOnModelChange);
    assert next.effects[|state.effects|] == SaveChatModelAsCookie(first);
    assert next.effects[|mid.effects|] == SaveChatModelAsCookie(second);
  }
}
