/** The combined provider (lib/ai/providers/index.ts): resolves a model id
    to a provider adapter and model id for text and for image generation,
    and swaps in fixed stubs in the test environment. The provider config is
    the snapshot the module takes when it loads, passed here as a parameter. */
module ModelRouter {
  import opened Common
  import opened ProviderConfig
  import Models

  /** Stands for the SDK handle `<provider>Provider.languageModel(id)` or
      `.imageModel(id)`: which adapter is asked for which id. */
  datatype Route = Route(provider: Provider, id: string)

  /** The four stub models the test provider serves. */
  datatype Stub = ChatStub | ReasoningStub | TitleStub | ArtifactStub

  /** What a lookup on the exported provider yields: a routed model, a test
      stub, or the SDK's "no such model" error of a `customProvider`. */
  datatype Handle = Model(route: Route) | TestStub(stub: Stub) | NoSuchModel(id: string)

  /** The namespace prefix `<provider>-` of the provider's model ids. */
  function Prefix(p: Provider): string
  {
    Name(p) + "-"
  }

  /** An id carries at most one provider prefix: the four names start with
      four different letters. */
  lemma PrefixesExclusive(id: string, p: Provider, q: Provider)
    requires StartsWith(id, Prefix(p)) && StartsWith(id, Prefix(q))
    ensures p == q
  {
    assert Prefix(p)[0] == id[0] == Prefix(q)[0];
  }

  /** The model ids each provider adapter registers for text generation. */
  function RegisteredLanguageIds(p: Provider): seq<string>
  {
    match p
    case XAI => ["xai-grok-2", "xai-grok-3-mini"]
    case OpenAI => ["openai-gpt-4o", "openai-gpt-4o-mini", "openai-gpt-3.5-turbo"]
    case Anthropic => ["anthropic-claude-3-opus", "anthropic-claude-3-sonnet", "anthropic-claude-3-haiku"]
    case Google => ["google-gemini-1.5-pro", "google-gemini-1.5-flash"]
  }

  /** The model ids each provider adapter registers for image generation;
      Google's vision model is commented out of its adapter. */
  function RegisteredImageIds(p: Provider): seq<string>
  {
    match p
    case XAI => ["xai-image"]
    case OpenAI => ["openai-dall-e-3"]
    case Anthropic => []
    case Google => []
  }

  // ---------------------------------------------------------------- text

  /** Legacy logical ids are rewritten before anything else is looked at. */
  function RemapLegacyId(modelId: string): string
  {
    if modelId == "chat-model" then "xai-grok-2"
    else if modelId == "chat-model-reasoning" then "xai-grok-3-mini"
    else if modelId == "title-model" || modelId == "artifact-model" then "xai-grok-2"
    else modelId
  }

  /** Each provider's hard-coded text model for the fallback path. */
  function TextDefault(p: Provider): string
  {
    match p
    case XAI => "xai-grok-2"
    case OpenAI => "openai-gpt-3.5-turbo"
    case Anthropic => "anthropic-claude-3-haiku"
    case Google => "google-gemini-1.5-flash"
  }

  /** "Find first available provider", then the unconditional xAI fallback. */
  function TextFallback(c: Config): Route
  {
    if c.xai then Route(XAI, "xai-grok-2")
    else if c.openai then Route(OpenAI, "openai-gpt-3.5-turbo")
    else if c.anthropic then Route(Anthropic, "anthropic-claude-3-haiku")
    else if c.google then Route(Google, "google-gemini-1.5-flash")
    else Route(XAI, "xai-grok-2")
  }

  /** `aiProvider.languageModel(modelId)` outside the test environment. It
      never fails; the id is checked only for its prefix, not against the
      catalog. */
  function LanguageModel(c: Config, modelId: string): (r: Route)
    ensures AnyEnabled(c) ==> Enabled(c, r.provider)
    ensures r.id == RemapLegacyId(modelId) || r.id == TextDefault(r.provider)
  {
    var id := RemapLegacyId(modelId);
    if StartsWith(id, "xai-") && c.xai then Route(XAI, id)
    else if StartsWith(id, "openai-") && c.openai then Route(OpenAI, id)
    else if StartsWith(id, "anthropic-") && c.anthropic then Route(Anthropic, id)
    else if StartsWith(id, "google-") && c.google then Route(Google, id)
    else TextFallback(c)
  }

  /** An id in the namespace of an enabled provider goes to that provider,
      unchanged. */
  lemma LanguageModelDispatch(c: Config, modelId: string, p: Provider)
    requires Enabled(c, p) && StartsWith(RemapLegacyId(modelId), Prefix(p))
    ensures LanguageModel(c, modelId) == Route(p, RemapLegacyId(modelId))
  {
    var id := RemapLegacyId(modelId);
    if StartsWith(id, "xai-") { PrefixesExclusive(id, p, XAI); }
    if StartsWith(id, "openai-") { PrefixesExclusive(id, p, OpenAI); }
    if StartsWith(id, "anthropic-") { PrefixesExclusive(id, p, Anthropic); }
    if StartsWith(id, "google-") { PrefixesExclusive(id, p, Google); }
  }

  /** Any other id (unknown prefix, or a disabled provider's) takes the
      fallback route. */
  lemma LanguageModelFallback(c: Config, modelId: string)
    requires forall p :: !(Enabled(c, p) && StartsWith(RemapLegacyId(modelId), Prefix(p)))
    ensures LanguageModel(c, modelId) == TextFallback(c)
  {
    assert Prefix(XAI) == "xai-" && Prefix(OpenAI) == "openai-";
    assert Prefix(Anthropic) == "anthropic-" && Prefix(Google) == "google-";
  }

  /** The fallback route is the default model of the first provider in the
      list `getAvailableProviders` builds, or xAI's when the list is empty. */
  lemma TextFallbackIsFirstAvailable(c: Config)
    ensures var ps := AvailableProviders(c);
      TextFallback(c) == if ps == [] then Route(XAI, TextDefault(XAI)) else Route(ps[0], TextDefault(ps[0]))
  {
    AvailableProvidersUnfold(c);
  }

  /** The legacy aliases resolve exactly as their targets do, whatever the
      config. */
  lemma LegacyAliasesResolveAsTargets(c: Config)
    ensures LanguageModel(c, "chat-model") == LanguageModel(c, "xai-grok-2")
    ensures LanguageModel(c, "chat-model-reasoning") == LanguageModel(c, "xai-grok-3-mini")
    ensures LanguageModel(c, "title-model") == LanguageModel(c, "xai-grok-2")
    ensures LanguageModel(c, "artifact-model") == LanguageModel(c, "xai-grok-2")
  {
  }

  /** With xAI enabled the aliases reach the documented xAI models. */
  lemma LegacyAliasesWithXai(c: Config)
    requires c.xai
    ensures LanguageModel(c, "chat-model") == Route(XAI, "xai-grok-2")
    ensures LanguageModel(c, "chat-model-reasoning") == Route(XAI, "xai-grok-3-mini")
    ensures LanguageModel(c, "title-model") == Route(XAI, "xai-grok-2")
    ensures LanguageModel(c, "artifact-model") == Route(XAI, "xai-grok-2")
  {
    LanguageModelDispatch(c, "chat-model", XAI);
    LanguageModelDispatch(c, "chat-model-reasoning", XAI);
    LanguageModelDispatch(c, "title-model", XAI);
    LanguageModelDispatch(c, "artifact-model", XAI);
  }

  /** Every fallback text model is a catalog model of its own provider and is
      registered with that provider's adapter. */
  lemma TextDefaultsInCatalog(p: Provider) returns (i: nat)
    ensures i < |Models.ChatModels|
    ensures Models.ChatModels[i].id == TextDefault(p) && Models.ChatModels[i].provider == p
    ensures TextDefault(p) in RegisteredLanguageIds(p)
  {
    match p
    case XAI => i := 0;
    case OpenAI => i := 4;
    case Anthropic => i := 7;
    case Google => i := 9;
  }

  /** Every catalog id is registered with its own provider's adapter. */
  lemma RegisteredIdsAreCatalogIds(i: nat)
    requires i < |Models.ChatModels|
    ensures Models.ChatModels[i].id in RegisteredLanguageIds(Models.ChatModels[i].provider)
  {
  }

  /** Conversely, every id an adapter registers is a catalog model of that
      provider: together the adapters register exactly the catalog's ids. */
  lemma RegisteredIdsComeFromCatalog(p: Provider, j: nat) returns (i: nat)
    requires j < |RegisteredLanguageIds(p)|
    ensures i < |Models.ChatModels|
    ensures Models.ChatModels[i].id == RegisteredLanguageIds(p)[j]
    ensures Models.ChatModels[i].provider == p
  {
    match p
    case XAI => i := j;
    case OpenAI => i := 2 + j;
    case Anthropic => i := 5 + j;
    case Google => i := 8 + j;
  }

  /** A catalog model whose provider is enabled is routed to itself. */
  lemma CatalogModelsRouteToThemselves(c: Config, i: nat)
    requires i < |Models.ChatModels| && Enabled(c, Models.ChatModels[i].provider)
    ensures LanguageModel(c, Models.ChatModels[i].id)
      == Route(Models.ChatModels[i].provider, Models.ChatModels[i].id)
  {
    var m := Models.ChatModels[i];
    Models.CatalogIdsNamespaced();
    assert m in Models.ChatModels;
    assert RemapLegacyId(m.id) == m.id;
    LanguageModelDispatch(c, m.id, m.provider);
  }

  /** An id in an enabled provider's namespace that its adapter does not
      register is still routed there unchanged. */
  lemma UnregisteredIdRoutedUnchanged(c: Config)
    requires c.xai
    ensures LanguageModel(c, "xai-foo") == Route(XAI, "xai-foo")
    ensures "xai-foo" !in RegisteredLanguageIds(XAI)
  {
    LanguageModelDispatch(c, "xai-foo", XAI);
  }

  // ---------------------------------------------------------------- image

  /** The providers with an image branch, in fallback order. */
  const ImagePriorityOrder: seq<Provider> := [XAI, OpenAI, Google]

  predicate AnyImageEnabled(c: Config)
  {
    c.xai || c.openai || c.google
  }

  /** The image alias `small-model` is rewritten to `xai-image`. */
  function RemapImageAlias(modelId: string): string
  {
    if modelId == "small-model" then "xai-image" else modelId
  }

  /** Each image provider's hard-coded model for the fallback path. */
  function ImageDefault(p: Provider): string
    requires p != Anthropic
  {
    match p
    case XAI => "xai-image"
    case OpenAI => "openai-dall-e-3"
    case Google => "google-gemini-vision"
  }

  function ImageFallback(c: Config): Route
  {
    if c.xai then Route(XAI, "xai-image")
    else if c.openai then Route(OpenAI, "openai-dall-e-3")
    else if c.google then Route(Google, "google-gemini-vision")
    else Route(XAI, "xai-image")
  }

  /** `aiProvider.imageModel(modelId)` outside the test environment: the same
      scheme as the text router, without an Anthropic branch. */
  function ImageModel(c: Config, modelId: string): (r: Route)
    ensures r.provider != Anthropic
    ensures AnyImageEnabled(c) ==> Enabled(c, r.provider)
    ensures r.id == RemapImageAlias(modelId) || r.id == ImageDefault(r.provider)
  {
    var id := RemapImageAlias(modelId);
    if StartsWith(id, "xai-") && c.xai then Route(XAI, id)
    else if StartsWith(id, "openai-") && c.openai then Route(OpenAI, id)
    else if StartsWith(id, "google-") && c.google then Route(Google, id)
    else ImageFallback(c)
  }

  /** An id in the namespace of an enabled image provider goes to it,
      unchanged. */
  lemma ImageModelDispatch(c: Config, modelId: string, p: Provider)
    requires p != Anthropic && Enabled(c, p) && StartsWith(RemapImageAlias(modelId), Prefix(p))
    ensures ImageModel(c, modelId) == Route(p, RemapImageAlias(modelId))
  {
    var id := RemapImageAlias(modelId);
    if StartsWith(id, "xai-") { PrefixesExclusive(id, p, XAI); }
    if StartsWith(id, "openai-") { PrefixesExclusive(id, p, OpenAI); }
    if StartsWith(id, "google-") { PrefixesExclusive(id, p, Google); }
  }

  /** Any other id, Anthropic ids included, takes the image fallback, which
      is the first enabled image provider's default in the order xAI, OpenAI,
      Google, or `xai-image` when none is enabled. */
  lemma ImageModelFallback(c: Config, modelId: string)
    requires forall p :: p != Anthropic ==> !(Enabled(c, p) && StartsWith(RemapImageAlias(modelId), Prefix(p)))
    ensures ImageModel(c, modelId) == ImageFallback(c)
    ensures var ps := Filter(ImagePriorityOrder, p => Enabled(c, p));
      ImageFallback(c) == if ps == [] then Route(XAI, ImageDefault(XAI)) else Route(ps[0], ImageDefault(ps[0]))
  {
    assert Prefix(XAI) == "xai-" && Prefix(OpenAI) == "openai-" && Prefix(Google) == "google-";
    var keep := p => Enabled(c, p);
    assert ImagePriorityOrder[1..] == [OpenAI, Google];
    assert ImagePriorityOrder[1..][1..] == [Google];
    assert ImagePriorityOrder[1..][1..][1..] == [];
    assert Filter([Google], keep) == (if c.google then [Google] else []);
  }

  /** `small-model` resolves exactly as `xai-image` does. */
  lemma ImageAliasResolvesAsTarget(c: Config)
    ensures ImageModel(c, "small-model") == ImageModel(c, "xai-image")
  {
  }

  /** The Google image fallback names a model that the Google adapter does
      not register, whereas the other two fallbacks are registered. */
  lemma GoogleImageFallbackUnregistered(c: Config)
    requires !c.xai && !c.openai && c.google
    ensures ImageFallback(c) == Route(Google, "google-gemini-vision")
    ensures ImageFallback(c).id !in RegisteredImageIds(Google)
    ensures ImageDefault(XAI) in RegisteredImageIds(XAI)
    ensures ImageDefault(OpenAI) in RegisteredImageIds(OpenAI)
  {
  }

  // ---------------------------------------------------------------- test mode

  /** The test environment's `customProvider`: four stub language models,
      no image models; any other id is the SDK's "no such model" error. */
  function TestLanguageModel(modelId: string): (r: Handle)
    ensures !r.Model?
    ensures r.TestStub? <==>
      modelId in ["chat-model", "chat-model-reasoning", "title-model", "artifact-model"]
    ensures !r.TestStub? ==> r == NoSuchModel(modelId)
  {
    if modelId == "chat-model" then TestStub(ChatStub)
    else if modelId == "chat-model-reasoning" then TestStub(ReasoningStub)
    else if modelId == "title-model" then TestStub(TitleStub)
    else if modelId == "artifact-model" then TestStub(ArtifactStub)
    else NoSuchModel(modelId)
  }

  /** `aiProvider.languageModel`: the test provider in the test environment,
      the router otherwise. */
  function AiLanguageModel(isTestEnvironment: bool, c: Config, modelId: string): (r: Handle)
    ensures isTestEnvironment ==> r == TestLanguageModel(modelId)
    ensures !isTestEnvironment ==> r == Model(LanguageModel(c, modelId))
    ensures !isTestEnvironment && AnyEnabled(c) ==> Enabled(c, r.route.provider)
  {
    if isTestEnvironment then TestLanguageModel(modelId) else Model(LanguageModel(c, modelId))
  }

  /** `aiProvider.imageModel`: the test provider registers no image model. */
  function AiImageModel(isTestEnvironment: bool, c: Config, modelId: string): (r: Handle)
    ensures isTestEnvironment ==> r == NoSuchModel(modelId)
    ensures !isTestEnvironment ==> r == Model(ImageModel(c, modelId))
    ensures !isTestEnvironment ==> r.route.provider != Anthropic
  {
    if isTestEnvironment then NoSuchModel(modelId) else Model(ImageModel(c, modelId))
  }

  /** In the test environment the four logical roles get their stubs whatever
      the config, and nothing depends on the config. */
  lemma TestModeStubs(c1: Config, c2: Config, modelId: string)
    ensures AiLanguageModel(true, c1, modelId) == AiLanguageModel(true, c2, modelId)
    ensures AiImageModel(true, c1, modelId) == AiImageModel(true, c2, modelId)
    ensures AiLanguageModel(true, c1, "chat-model") == TestStub(ChatStub)
    ensures AiLanguageModel(true, c1, "chat-model-reasoning") == TestStub(ReasoningStub)
    ensures AiLanguageModel(true, c1, "title-model") == TestStub(TitleStub)
    ensures AiLanguageModel(true, c1, "artifact-model") == TestStub(ArtifactStub)
    ensures AiLanguageModel(true, c1, modelId).TestStub? <==>
      modelId in ["chat-model", "chat-model-reasoning", "title-model", "artifact-model"]
  {
  }

  /** Outside the test environment routing never fails. */
  lemma RoutingNeverFails(c: Config, modelId: string)
    ensures AiLanguageModel(false, c, modelId).Model?
    ensures AiImageModel(false, c, modelId).Model?
    ensures !AnyEnabled(c) ==> AiLanguageModel(false, c, modelId) == Model(Route(XAI, "xai-grok-2"))
    ensures !AnyImageEnabled(c) ==> AiImageModel(false, c, modelId) == Model(Route(XAI, "xai-image"))
  {
    if !AnyEnabled(c) {
      assert !Enabled(c, XAI) && !Enabled(c, OpenAI) && !Enabled(c, Anthropic) && !Enabled(c, Google);
    }
  }
}
