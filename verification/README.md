# Model picker catalog, in Dafny

This project models the core of a chat application's model picker. The core has three parts:

- the **catalog** of chat models: an ordered constant list of `ChatModel` records (id, display name, description, provider tag, vision/reasoning flags, context window) and the default model id;
- the **entitlement table**: for each user type (`guest`, `regular`), a daily message quota and the list of model ids that user type may pick;
- the **resolver logic** inside the picker component. It filters the catalog to the permitted ids, finds the selected model by id, groups the permitted models by provider, projects capability flags to badges, maps a provider tag to a logo and a heading, shortens the selected model's name, and updates the optimistic selection when the user picks an item.

Everything here is a pure function over sequences and datatypes. Files:

| file | module | models |
|---|---|---|
| `wrappers.dfy` | `Wrappers` | `Option`, for JavaScript's `undefined` result of `find` |
| `models.dfy` | `Models` | `lib/ai/models.ts` |
| `entitlements.dfy` | `UserEntitlements` | `lib/ai/entitlements.ts` |
| `provider_grouping.dfy` | `ProviderGrouping` | the `reduce` that builds `modelsByProvider` |
| `model_selector.dfy` | `ModelSelector` | the rest of the component's logic |
| `configuration.dfy` | `Configuration` | concrete facts about the shipped tables |

Modelling choices:

- The provider tag is a `string`, not the union `'x' | 'openai'` of lib/ai/models.ts:7. `getProviderIcon` switches on any string, including `''` when nothing is selected, so the icon functions are total over strings. That the catalog only uses `"x"` and `"openai"` is a lemma (`CatalogEntriesWellFormed`). The grouping lemmas hold for every string key, but the JavaScript object agrees with them only for the keys the union type admits (see "## Left out").
- The object built by the `reduce` becomes an insertion-ordered list of `Group(provider, models)`. Its keys (`"x"`, `"openai"`) are not integer-like, so `Object.entries` returns them in insertion order. The `reduce` is a left fold, `GroupByProvider(xs + [x]) == AddToGroup(GroupByProvider(xs), x)`.
- The first-seen order of groups is stated against an independent definition. `FirstIndex` gives the position of a provider's first model and `ModelsOf` gives the in-order sublist of a provider's models. `GroupedBy` says that keys are sorted by `FirstIndex`, that keys and input providers are the same set, and that every group equals `ModelsOf` for its key.
- `entitlementsByUserType[userType]` is total over `UserType = Guest | Regular`: the table is a `Record<UserType, …>` with an entry for every user type, so an unknown user type has no error path.
- The handler for a picked item is a pure transition over `PickerState(open, optimisticModelId, effects)`. The cookie write and the `onModelChange` callback are recorded in order in an effect log. `hasOnModelChange` says whether the optional callback was passed.
- The filter's contract is split in two. `FilterByIds` itself says only that the result is no longer than its input and that every id in it is listed. The lemmas `FilterByIdsMembers`, `FilterByIdsIsSubsequence` and `FilterByIdsCounts` give the rest. Together, the subsequence property and the per-model counts determine the result.

## Model

| member | source | states |
|---|---|---|
| `Models.CatalogIdsUnique` | lib/ai/models.ts:15-106 | the eight catalog ids are pairwise distinct |
| `Models.CatalogEntriesWellFormed` | lib/ai/models.ts:15-106 | the catalog has eight entries, every context window is positive, and every provider tag is `"x"` or `"openai"` |
| `Models.DefaultModelInCatalog` | lib/ai/models.ts:1 | the default id `grok-vision` is the id of a catalog entry, the first one |
| `Models.CatalogProviderContiguous` | lib/ai/models.ts:16-105 | each provider's entries stand side by side, and every xAI entry comes before every OpenAI entry |
| `Models.CatalogCapabilities` | lib/ai/models.ts:22-104 | the vision and reasoning flags of the entries are as declared, e.g. grok-vision and gpt-4o have both, grok-standard and gpt-3.5-turbo have neither |
| `UserEntitlements.EntitlementsReferenceCatalog` | lib/ai/entitlements.ts:13-38 | every id in every entitlement list names a catalog entry, so there are no dangling references |
| `UserEntitlements.EntitlementIdsDistinct` | lib/ai/entitlements.ts:15-37 | no entitlement list repeats an id |
| `UserEntitlements.GuestWithinRegular` | lib/ai/entitlements.ts:15-37 | every guest id is a regular id, and the regular list covers every catalog id |
| `UserEntitlements.Quotas` | lib/ai/entitlements.ts:14-27 | quotas are non-negative, guest has 20, regular has 100, and 20 < 100 |
| `UserEntitlements.DefaultModelPermitted` | lib/ai/entitlements.ts:16-29 | the default model id is permitted for every user type |
| `ModelSelector.FilterByIds` | components/model-selector.tsx:40-42 | the filtered list is never longer than its input, and every id in it is a permitted id |
| `ModelSelector.FilterByIdsMembers` | components/model-selector.tsx:40-42 | a model is in the filtered list iff it is in the input and its id is permitted |
| `ModelSelector.FilterByIdsIsSubsequence` | components/model-selector.tsx:40-42 | the filtered list is a subsequence of the input, so it follows catalog order and not entitlement order |
| `ModelSelector.FilterByIdsCounts` | components/model-selector.tsx:40-42 | each permitted model occurs as often as in the input, and every other model occurs zero times |
| `ModelSelector.FilterByIdsIdempotent` | components/model-selector.tsx:40-42 | filtering an already filtered list with the same ids returns it unchanged |
| `ModelSelector.FilterByIdsKeep` | components/model-selector.tsx:40-42 | a head whose id is listed is kept in front of the filtered rest |
| `ModelSelector.FilterByIdsSkip` | components/model-selector.tsx:40-42 | a head whose id is not listed is dropped |
| `ModelSelector.FilterByIdsKeepsAllListed` | components/model-selector.tsx:40-42 | when every input id is permitted, the filter returns its input |
| `ModelSelector.FilterByWiderIds` | components/model-selector.tsx:40-42 | with a larger id list, the old result is a subsequence of the new one |
| `ModelSelector.FilterKeepsUniqueIds` | components/model-selector.tsx:40-42 | filtering a list with distinct ids gives a list with distinct ids |
| `ModelSelector.FindById` | components/model-selector.tsx:44-50 | the result is absent iff no model has the id; otherwise it has the id and is the first model that does |
| `ModelSelector.FindByIdFindsMember` | components/model-selector.tsx:44-50 | in a list with distinct ids, looking up a member's id returns that member |
| `ModelSelector.FindAfterFilter` | components/model-selector.tsx:40-50 | looking up an id in the filtered list succeeds iff the id is permitted and some input model has it |
| `ModelSelector.SelectionDefinedIffPermitted` | components/model-selector.tsx:37-50 | a user type has a selected model iff the optimistic id is in its entitlement list and is a catalog id |
| `ModelSelector.CapabilityBadges` | components/model-selector.tsx:65-70 | "Vision" appears iff the model has vision and "Reasoning" iff it has reasoning; there are no other labels, at most two, no duplicates, and Vision comes before Reasoning |
| `ModelSelector.BadgesDetermineFlags` | components/model-selector.tsx:65-70 | two models get the same badges iff their vision and reasoning flags agree |
| `ModelSelector.ProviderIcon` | components/model-selector.tsx:72-81 | the mapping is total: the xAI logo iff the tag is `"x"`, otherwise the OpenAI logo (for `"openai"`, `""` and any other tag) |
| `ModelSelector.ProviderLabel` | components/model-selector.tsx:116 | the heading name is `xAI` iff the provider is `"x"`, otherwise `OpenAI` |
| `ModelSelector.GroupHeading` | components/model-selector.tsx:116 | the group heading is "xAI Models" iff the provider is `"x"`, otherwise "OpenAI Models" |
| `ModelSelector.IconAgreesWithLabel` | components/model-selector.tsx:72-81 | for every tag, the logo's alt text and the heading name are the same vendor |
| `ModelSelector.TriggerIcon` | components/model-selector.tsx:98 | the trigger shows one of the two logos: the selected model's provider logo when a model is selected, so the xAI logo iff its provider is `"x"` and the OpenAI logo otherwise; with no selection it shows the OpenAI logo |
| `ModelSelector.FirstWord` | components/model-selector.tsx:104 | the result is a prefix of the name with no space in it, and it stops exactly at the first space or at the end of the name |
| `ModelSelector.FirstWordEndsAtFirstSpace` | components/model-selector.tsx:104 | when no space comes before position n and a space or the end is at n, the short name is exactly the first n characters |
| `ModelSelector.FirstWordWholeIffNoSpace` | components/model-selector.tsx:104 | the short name is the whole name iff the name has no space |
| `ModelSelector.ShortName` | components/model-selector.tsx:104 | a short name exists iff a model is selected, and it is that model's first word: a space-free prefix of the name that ends at the first space or at the end of the name |
| `ModelSelector.OnSelect` | components/model-selector.tsx:127-135 | picking id T closes the dropdown and sets the optimistic id to T; it keeps the earlier effects, then issues a cookie save of T, and a change notification of T exactly when the callback was passed |
| `ModelSelector.ListedItemsArePermitted` | components/model-selector.tsx:110-119 | the dropdown lists exactly the permitted models, and their ids are distinct |
| `ModelSelector.PickMarksOnlyThatModel` | components/model-selector.tsx:127-136 | in a list with distinct ids, after picking a member, lookup finds it and it is the only item marked active |
| `ModelSelector.PickSelectsExactlyThatModel` | components/model-selector.tsx:127-136 | after picking a listed model, it becomes the selected model and exactly its item is marked active |
| `ModelSelector.LaterPickWins` | components/model-selector.tsx:130-134 | after two quick picks, the second id wins as the optimistic id, and both cookie writes stay issued, in pick order |
| `UserEntitlements.EntitlementsByUserType` | components/model-selector.tsx:37-38 | the lookup is total over the two user types and every entry has a positive quota and a non-empty id list; the table's contents are stated by `Quotas`, `GuestWithinRegular` and `EntitlementsReferenceCatalog` |
| `ModelSelector.AvailableChatModels` | components/model-selector.tsx:37-42 | at most as many models as the catalog holds; `FilterByIdsMembers`, `FilterByIdsIsSubsequence` and `FilterByIdsCounts` characterise it fully |
| `ModelSelector.SelectedChatModel` | components/model-selector.tsx:44-50 | a selected model always has the optimistic id; `SelectionDefinedIffPermitted` says when one exists |
| `ModelSelector.ModelsByProvider` | components/model-selector.tsx:53-63 | no contract of its own; `ListedItemsArePermitted` and `PickSelectsExactlyThatModel` state what it lists, and `ProviderGrouping.GroupByProviderGroups` how it is grouped |
| `ModelSelector.IsActive` | components/model-selector.tsx:136 | no contract of its own; `PickSelectsExactlyThatModel` states that after a pick exactly the picked item is active |
| `ProviderGrouping.AddToGroup` | components/model-selector.tsx:55-58 | no contract of its own; `AddNewGroupPreservesGrouping` and `AddToExistingGroupPreservesGrouping` state that it keeps the grouping invariant |
| `ProviderGrouping.GroupByProvider` | components/model-selector.tsx:54-60 | no contract of its own; `GroupByProviderSnoc` states it is a left fold of `AddToGroup`, and `GroupByProviderGroups` characterises the result fully |
| `ProviderGrouping.Flatten` | components/model-selector.tsx:110-119 | no contract of its own; `GroupingIsPermutation` and `ContiguousGroupingRoundTrip` state what the rendered list holds |
| `ProviderGrouping.GroupIndex` | components/model-selector.tsx:55-58 | the object-key lookup returns the position of the group keyed by the provider, the first such position, or the length when the key is missing |
| `ProviderGrouping.GroupByProviderSnoc` | components/model-selector.tsx:54-60 | grouping a list with one more model is one more reduce step |
| `ProviderGrouping.AddNewGroupPreservesGrouping` | components/model-selector.tsx:55-58 | a step that opens a new key keeps the grouping invariant |
| `ProviderGrouping.AddToExistingGroupPreservesGrouping` | components/model-selector.tsx:58 | a step that pushes onto an existing key keeps the grouping invariant |
| `ProviderGrouping.GroupByProviderGroups` | components/model-selector.tsx:53-63 | groups come in first-occurrence order of their provider; every key is an input provider and every input provider is a key; each group is that provider's models in input order |
| `ProviderGrouping.GroupsPartitionModels` | components/model-selector.tsx:54-60 | no group is empty, keys are distinct, a group holds only input models of its provider, and each input model is in its own provider's group and in no other |
| `ProviderGrouping.GroupingIsPermutation` | components/model-selector.tsx:110-119 | listing the groups one after another shows every input model exactly as often as the input does |
| `ProviderGrouping.ContiguousGroupingRoundTrip` | components/model-selector.tsx:53-63 | when each provider's models stand together, concatenating the groups in order gives back the input exactly |
| `Configuration.GuestAvailableModels` | components/model-selector.tsx:37-42 | a guest sees grok-vision, grok-standard, gpt-4o-mini and gpt-3.5-turbo, in that order |
| `Configuration.RegularAvailableModels` | components/model-selector.tsx:37-42 | a regular user sees the whole catalog |
| `Configuration.GuestModelsByProvider` | components/model-selector.tsx:53-63 | the guest's dropdown is x with grok-vision and grok-standard, then openai with gpt-4o-mini and gpt-3.5-turbo |
| `Configuration.RegularDropdownListsCatalog` | components/model-selector.tsx:110-119 | the regular user's dropdown lists the catalog exactly, in catalog order |
| `Configuration.Gpt4oSelection` | components/model-selector.tsx:44-50 | with gpt-4o as optimistic id, a guest has no selection and a regular user gets GPT-4o |
| `Configuration.DefaultModelSelected` | components/model-selector.tsx:44-50 | for every user type, the default id selects Grok Vision |
| `Configuration.GuestModelsWithinRegular` | components/model-selector.tsx:40-42 | a guest's models are a subsequence of a regular user's |
| `Configuration.CatalogBadges` | components/model-selector.tsx:65-70 | the badges of some catalog entries, e.g. grok-vision gets Vision and Reasoning, grok-standard gets none |
| `Configuration.CatalogShortNames` | components/model-selector.tsx:104 | on narrow screens Grok Vision is shown as "Grok" and GPT-4o as "GPT-4o", and nothing is shown without a selection |

## Left out

- Rendering and React hooks (`useState`, `useOptimistic`, `useMemo`, `startTransition`, the dropdown components, `Image`, the icons). These are framework glue; only the pure helpers and a one-step selection transition are modelled. The revert of an optimistic value when its transition ends is framework behaviour and is not modelled.
- `saveChatModelAsCookie` and `onModelChange`. The first is a server action in a file that is not part of this model; both are effects. They appear only as entries of the effect log in `OnSelect`, and their success or failure is not modelled.
- `lib/ai/providers.ts`. It is a thin wiring of model ids to third-party SDK constructors and test fixtures, with no logic.
- `contextWindow.toLocaleString()` at components/model-selector.tsx:163. Its output depends on the host locale.
- Enforcement of `maxMessagesPerDay`. Nothing in the component or the two tables enforces it, so the quota is data only.
- The `UserType` definition, which lives in a module that is not part of this model. It is modelled as the two-valued datatype `UserType`.
- The full-name display `selectedChatModel?.name` at components/model-selector.tsx:101. It is a plain field read.
- `FilterByIds`: its own contract states only the length bound and that kept ids are permitted. The full characterisation is in the lemmas `FilterByIdsMembers`, `FilterByIdsIsSubsequence` and `FilterByIdsCounts`, which keeps concrete evaluation over the constant catalog cheap.
- `ProviderGrouping.GroupByProviderGroups`: the grouping model matches the JavaScript `reduce` only for provider keys that are neither integer-like (`Object.entries` lists those first, in ascending numeric order) nor names of `Object.prototype` properties such as `constructor` or `__proto__` (there the presence test sees an inherited value and `.push` throws). The `'x' | 'openai'` type of the provider field guarantees neither kind occurs.
- `ProviderIcon`: the `<Image>` element's `width`/`height` of 20 are not modelled; an icon is its source path and alt text.
