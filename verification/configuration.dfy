/**
 * Concrete facts about the picker over the shipped catalog and entitlement
 * table: what each user type sees, how the dropdown groups it, and what each
 * user type may select.
 */
module Configuration {
  import opened Wrappers
  import opened Models
  import opened UserEntitlements
  import opened ProviderGrouping
  import opened ModelSelector

  /**
   * Filtering eight models of which the first, third, seventh and eighth are listed.
   * This and GroupTwoAndTwo only evaluate the constant tables cheaply, one step at a time.
   */
  lemma {:induction false} FilterEight(
    m0: ChatModel, m1: ChatModel, m2: ChatModel, m3: ChatModel,
    m4: ChatModel, m5: ChatModel, m6: ChatModel, m7: ChatModel, ids: seq<string>)
    requires m0.id in ids && m1.id !in ids && m2.id in ids && m3.id !in ids
    requires m4.id !in ids && m5.id !in ids && m6.id in ids && m7.id in ids
    ensures FilterByIds([m0, m1, m2, m3, m4, m5, m6, m7], ids) == [m0, m2, m6, m7]
  {
    FilterByIdsKeep(m7, [], ids);
    FilterByIdsKeep(m6, [m7], ids);
    FilterByIdsSkip(m5, [m6, m7], ids);
    FilterByIdsSkip(m4, [m5, m6, m7], ids);
    FilterByIdsSkip(m3, [m4, m5, m6, m7], ids);
    FilterByIdsKeep(m2, [m3, m4, m5, m6, m7], ids);
    FilterByIdsSkip(m1, [m2, m3, m4, m5, m6, m7], ids);
    FilterByIdsKeep(m0, [m1, m2, m3, m4, m5, m6, m7], ids);
    assert [m0] + [m1, m2, m3, m4, m5, m6, m7] == [m0, m1, m2, m3, m4, m5, m6, m7];
  }

  /** A guest sees four models: two from xAI, then two from OpenAI, in catalog order. */
  lemma GuestAvailableModels()
    ensures AvailableChatModels(Guest) == [GrokVision, GrokStandard, Gpt4oMini, Gpt35Turbo]
  {
    FilterEight(GrokVision, GrokReasoning, GrokStandard, Gpt4Turbo, Gpt4Vision, Gpt4o, Gpt4oMini, Gpt35Turbo,
      GuestEntitlements.availableChatModelIds);
  }

  /** A regular user sees the whole catalog. */
  lemma RegularAvailableModels()
    ensures AvailableChatModels(Regular) == ChatModels
  {
    GuestWithinRegular();
    FilterByIdsKeepsAllListed(ChatModels, RegularEntitlements.availableChatModelIds);
  }

  /** Grouping two models of one provider followed by two of another. */
  lemma {:induction false} GroupTwoAndTwo(a: ChatModel, b: ChatModel, c: ChatModel, d: ChatModel)
    requires a.provider == b.provider && c.provider == d.provider && a.provider != c.provider
    ensures GroupByProvider([a, b, c, d]) == [Group(a.provider, [a, b]), Group(c.provider, [c, d])]
  {
    assert GroupByProvider([a]) == [Group(a.provider, [a])] by {
      GroupByProviderSnoc([], a);
    }
    var g1 := [Group(a.provider, [a])];
    assert GroupIndex(g1, b.provider) == 0;
    GroupByProviderSnoc([a], b);
    assert [a] + [b] == [a, b];
    var g2 := [Group(a.provider, [a, b])];
    assert GroupByProvider([a, b]) == g2;
    assert GroupIndex(g2, c.provider) == 1;
    GroupByProviderSnoc([a, b], c);
    assert [a, b] + [c] == [a, b, c];
    var g3 := [Group(a.provider, [a, b]), Group(c.provider, [c])];
    assert GroupByProvider([a, b, c]) == g3;
    assert GroupIndex(g3, d.provider) == 1;
    GroupByProviderSnoc([a, b, c], d);
    assert [a, b, c] + [d] == [a, b, c, d];
    assert [c] + [d] == [c, d];
    assert AddToGroup(g3, d) == [Group(a.provider, [a, b]), Group(c.provider, [c, d])];
  }

  /** The guest's dropdown: an xAI group, then an OpenAI group. */
  lemma GuestModelsByProvider()
    ensures ModelsByProvider(Guest) ==
      [Group(XProvider, [GrokVision, GrokStandard]), Group(OpenAiProvider, [Gpt4oMini, Gpt35Turbo])]
  {
    GuestAvailableModels();
    GroupTwoAndTwo(GrokVision, GrokStandard, Gpt4oMini, Gpt35Turbo);
  }

  /** The regular user's dropdown lists the catalog exactly, in catalog order. */
  lemma RegularDropdownListsCatalog()
    ensures Flatten(ModelsByProvider(Regular)) == ChatModels
  {
    RegularAvailableModels();
    CatalogProviderContiguous();
    ContiguousGroupingRoundTrip(ChatModels);
  }

  /** gpt-4o is selectable by a regular user but not by a guest. */
  lemma Gpt4oSelection()
    ensures SelectedChatModel(Guest, "gpt-4o") == None
    ensures SelectedChatModel(Regular, "gpt-4o") == Some(Gpt4o)
  {
    SelectionDefinedIffPermitted(Guest, "gpt-4o");
    RegularAvailableModels();
    CatalogIdsUnique();
    assert ChatModels[5] == Gpt4o;
    FindByIdFindsMember(ChatModels, Gpt4o);
  }

  /** Every user type can select the default model, and it resolves to Grok Vision. */
  lemma DefaultModelSelected(userType: UserType)
    ensures SelectedChatModel(userType, DefaultChatModel) == Some(GrokVision)
  {
    var ids := EntitlementsByUserType(userType).availableChatModelIds;
    ListedItemsArePermitted(userType);
    DefaultModelPermitted(userType);
    FilterByIdsMembers(ChatModels, ids);
    assert ChatModels[0] == GrokVision;
    FindByIdFindsMember(AvailableChatModels(userType), GrokVision);
  }

  /** A guest's models are a subsequence of a regular user's. */
  lemma GuestModelsWithinRegular()
    ensures IsSubsequence(AvailableChatModels(Guest), AvailableChatModels(Regular))
  {
    GuestWithinRegular();
    FilterByWiderIds(ChatModels, GuestEntitlements.availableChatModelIds,
      RegularEntitlements.availableChatModelIds);
  }

  /** The badges the catalog entries get. */
  lemma CatalogBadges()
    ensures CapabilityBadges(GrokVision) == [VisionBadge, ReasoningBadge]
    ensures CapabilityBadges(Gpt4o) == [VisionBadge, ReasoningBadge]
    ensures CapabilityBadges(GrokReasoning) == [ReasoningBadge]
    ensures CapabilityBadges(GrokStandard) == []
    ensures CapabilityBadges(Gpt35Turbo) == []
  {
  }

  /** The short names on narrow screens. */
  lemma CatalogShortNames()
    ensures ShortName(Some(GrokVision)) == Some("Grok")
    ensures ShortName(Some(Gpt4o)) == Some("GPT-4o")
    ensures ShortName(None) == None
  {
    assert GrokVision.name == "Grok Vision" && Gpt4o.name == "GPT-4o";
    FirstWordEndsAtFirstSpace("Grok Vision", 4);
    assert "Grok Vision"[..4] == "Grok";
    FirstWordEndsAtFirstSpace("GPT-4o", 6);
    assert "GPT-4o"[..6] == "GPT-4o";
  }
}
