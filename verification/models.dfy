/**
 * The chat-model catalog: the record type of one model, the ordered constant
 * catalog and the default model id (lib/ai/models.ts).
 */
module Models {

  /** Capability flags of a model; `contextWindow` is its budget in tokens. */
  datatype Capabilities = Capabilities(vision: bool, reasoning: bool, contextWindow: int)

  /**
   * One catalog entry. The provider tag, typed `'x' | 'openai'` in the source, is
   * kept as a string: the icon switch has a default branch and is total over
   * strings. As an object key it behaves as modelled only for keys that are not
   * integer-like and not `Object.prototype` property names, which the two
   * admitted tags are not.
   */
  datatype ChatModel = ChatModel(
    id: string,
    name: string,
    description: string,
    provider: string,
    capabilities: Capabilities)

  const XProvider: string := "x"
  const OpenAiProvider: string := "openai"

  /** The id a fresh session starts with. */
  const DefaultChatModel: string := "grok-vision"

  const GrokVision := ChatModel(
    "grok-vision", "Grok Vision",
    "Latest Grok model with vision capabilities for image analysis and general chat",
    XProvider, Capabilities(true, true, 128000))

  const GrokReasoning := ChatModel(
    "grok-reasoning", "Grok Reasoning",
    "Advanced reasoning model with step-by-step thinking capabilities",
    XProvider, Capabilities(false, true, 128000))

  const GrokStandard := ChatModel(
    "grok-standard", "Grok Standard",
    "Fast and efficient Grok model for general conversations",
    XProvider, Capabilities(false, false, 32000))

  const Gpt4Turbo := ChatModel(
    "gpt-4-turbo", "GPT-4 Turbo",
    "OpenAI's most capable model with enhanced performance and speed",
    OpenAiProvider, Capabilities(false, true, 128000))

  const Gpt4Vision := ChatModel(
    "gpt-4-vision", "GPT-4 Vision",
    "GPT-4 with vision capabilities for image analysis and understanding",
    OpenAiProvider, Capabilities(true, true, 128000))

  const Gpt4o := ChatModel(
    "gpt-4o", "GPT-4o",
    "Optimized GPT-4 model with faster response times",
    OpenAiProvider, Capabilities(true, true, 128000))

  const Gpt4oMini := ChatModel(
    "gpt-4o-mini", "GPT-4o Mini",
    "Compact version of GPT-4o, faster and more cost-effective",
    OpenAiProvider, Capabilities(false, true, 128000))

  const Gpt35Turbo := ChatModel(
    "gpt-3.5-turbo", "GPT-3.5 Turbo",
    "Fast and efficient model for general conversations",
    OpenAiProvider, Capabilities(false, false, 16000))

  /** The catalog, in declaration order: the three xAI models, then the five OpenAI ones. */
  const ChatModels: seq<ChatModel> :=
    [GrokVision, GrokReasoning, GrokStandard,
     Gpt4Turbo, Gpt4Vision, Gpt4o, Gpt4oMini, Gpt35Turbo]

  /** No two entries of `models` share an id. */
  predicate UniqueIds(models: seq<ChatModel>)
  {
    forall i, j :: 0 <= i < j < |models| ==> models[i].id != models[j].id
  }

  /** `id` names some entry of the catalog. */
  ghost predicate IsCatalogId(id: string)
  {
    exists k :: 0 <= k < |ChatModels| && ChatModels[k].id == id
  }

  /**
   * Every provider that occurs again later occurs in the position just before:
   * all entries of one provider stand side by side.
   */
  predicate ProviderContiguous(models: seq<ChatModel>)
  {
    forall i, j :: 0 <= i < j < |models| && models[i].provider == models[j].provider ==>
      models[j - 1].provider == models[j].provider
  }

  lemma CatalogIdsUnique()
    ensures UniqueIds(ChatModels)
  {
  }

  lemma CatalogEntriesWellFormed()
    ensures |ChatModels| == 8
    ensures forall k :: 0 <= k < |ChatModels| ==> ChatModels[k].capabilities.contextWindow > 0
    ensures forall k :: 0 <= k < |ChatModels| ==>
      ChatModels[k].provider == XProvider || ChatModels[k].provider == OpenAiProvider
  {
  }

  lemma DefaultModelInCatalog()
    ensures IsCatalogId(DefaultChatModel)
    ensures ChatModels[0] == GrokVision && GrokVision.id == DefaultChatModel
  {
    assert ChatModels[0].id == DefaultChatModel;
  }

  /** All xAI entries come before all OpenAI entries. */
  lemma CatalogProviderContiguous()
    ensures ProviderContiguous(ChatModels)
    ensures forall i, j ::
      && 0 <= i < |ChatModels| && 0 <= j < |ChatModels|
      && ChatModels[i].provider == XProvider && ChatModels[j].provider == OpenAiProvider
      ==> i < j
  {
  }

  lemma CatalogCapabilities()
    ensures GrokVision.capabilities.vision && GrokVision.capabilities.reasoning
    ensures Gpt4o.capabilities.vision && Gpt4o.capabilities.reasoning
    ensures Gpt4Vision.capabilities.vision && Gpt4Vision.capabilities.reasoning
    ensures !GrokReasoning.capabilities.vision && GrokReasoning.capabilities.reasoning
    ensures !Gpt4Turbo.capabilities.vision && Gpt4Turbo.capabilities.reasoning
    ensures !Gpt4oMini.capabilities.vision && Gpt4oMini.capabilities.reasoning
    ensures !GrokStandard.capabilities.vision && !GrokStandard.capabilities.reasoning
    ensures !Gpt35Turbo.capabilities.vision && !Gpt35Turbo.capabilities.reasoning
  {
  }
}
