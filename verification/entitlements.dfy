/**
 * Per-user-type entitlements: a daily message quota and the model ids the user
 * may pick (lib/ai/entitlements.ts).
 */
module UserEntitlements {
  import opened Models

  /** The user classifications the table is keyed by. */
  datatype UserType = Guest | Regular

  /** The quota is informational: nothing in this core enforces it. */
  datatype Entitlements = Entitlements(maxMessagesPerDay: int, availableChatModelIds: seq<string>)

  const GuestEntitlements := Entitlements(
    20,
    ["grok-vision", "grok-standard", "gpt-4o-mini", "gpt-3.5-turbo"])

  const RegularEntitlements := Entitlements(
    100,
    ["grok-vision", "grok-reasoning", "grok-standard",
     "gpt-4-turbo", "gpt-4-vision", "gpt-4o", "gpt-4o-mini", "gpt-3.5-turbo"])

  /** The table lookup; total, since every user type has a record. */
  function EntitlementsByUserType(userType: UserType): (e: Entitlements)
    ensures e.maxMessagesPerDay > 0
    ensures |e.availableChatModelIds| > 0
  {
    match userType
    case Guest => GuestEntitlements
    case Regular => RegularEntitlements
  }

  /**
   * No id is listed twice. Models.UniqueIds says the same of the catalog's
   * records; this one is over the bare id lists of the table.
   */
  predicate DistinctIds(ids: seq<string>)
  {
    forall i, j :: 0 <= i < j < |ids| ==> ids[i] != ids[j]
  }

  /** Every listed id names a catalog entry. */
  lemma EntitlementsReferenceCatalog(userType: UserType)
    ensures forall id :: id in EntitlementsByUserType(userType).availableChatModelIds ==> IsCatalogId(id)
  {
    assert ChatModels[0].id == "grok-vision";
    assert ChatModels[1].id == "grok-reasoning";
    assert ChatModels[2].id == "grok-standard";
    assert ChatModels[3].id == "gpt-4-turbo";
    assert ChatModels[4].id == "gpt-4-vision";
    assert ChatModels[5].id == "gpt-4o";
    assert ChatModels[6].id == "gpt-4o-mini";
    assert ChatModels[7].id == "gpt-3.5-turbo";
  }

  lemma EntitlementIdsDistinct(userType: UserType)
    ensures DistinctIds(EntitlementsByUserType(userType).availableChatModelIds)
  {
  }

  /** A guest may use nothing a regular user may not; a regular user may use the whole catalog. */
  lemma GuestWithinRegular()
    ensures forall id :: id in EntitlementsByUserType(Guest).availableChatModelIds ==>
      id in EntitlementsByUserType(Regular).availableChatModelIds
    ensures forall k :: 0 <= k < |ChatModels| ==>
      ChatModels[k].id in EntitlementsByUserType(Regular).availableChatModelIds
  {
  }

  lemma Quotas()
    ensures forall u :: EntitlementsByUserType(u).maxMessagesPerDay >= 0
    ensures EntitlementsByUserType(Guest).maxMessagesPerDay == 20
    ensures EntitlementsByUserType(Regular).maxMessagesPerDay == 100
    ensures EntitlementsByUserType(Guest).maxMessagesPerDay < EntitlementsByUserType(Regular).maxMessagesPerDay
  {
  }

  lemma DefaultModelPermitted(userType: UserType)
    ensures DefaultChatModel in EntitlementsByUserType(userType).availableChatModelIds
  {
  }
}
