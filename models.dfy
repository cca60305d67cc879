/** The static model catalog and the client-side model list
    (lib/ai/models.ts). */
module Models {
  import opened Common
  import opened ProviderConfig

  /** `ChatModel`: one catalog entry. */
  datatype ChatModel = ChatModel(id: string, name: string, description: string, provider: Provider)

  const DEFAULT_CHAT_MODEL: string := "xai-grok-2"

  /** `chatModels`, in declaration order. */
  const ChatModels: seq<ChatModel> := [
    ChatModel("xai-grok-2", "xAI Grok-2",
      "xAI Grok-2 model for general-purpose chat", XAI),
    ChatModel("xai-grok-3-mini", "xAI Grok-3 Mini",
      "xAI Grok-3 Mini with advanced reasoning capabilities", XAI),
    ChatModel("openai-gpt-4o", "OpenAI GPT-4o",
      "OpenAI GPT-4o - most advanced OpenAI model", OpenAI),
    ChatModel("openai-gpt-4o-mini", "OpenAI GPT-4o Mini",
      "OpenAI GPT-4o Mini - faster and more efficient", OpenAI),
    ChatModel("openai-gpt-3.5-turbo", "OpenAI GPT-3.5 Turbo",
      "OpenAI GPT-3.5 Turbo - fast and cost-effective", OpenAI),
    ChatModel("anthropic-claude-3-opus", "Anthropic Claude 3 Opus",
      "Anthropic Claude 3 Opus - most capable Claude model", Anthropic),
    ChatModel("anthropic-claude-3-sonnet", "Anthropic Claude 3 Sonnet",
      "Anthropic Claude 3 Sonnet - balanced performance", Anthropic),
    ChatModel("anthropic-claude-3-haiku", "Anthropic Claude 3 Haiku",
      "Anthropic Claude 3 Haiku - fastest Claude model", Anthropic),
    ChatModel("google-gemini-1.5-pro", "Google Gemini 1.5 Pro",
      "Google Gemini 1.5 Pro - advanced capabilities", Google),
    ChatModel("google-gemini-1.5-flash", "Google Gemini 1.5 Flash",
      "Google Gemini 1.5 Flash - fast and efficient", Google)
  ]

  /** Catalog ids are pairwise distinct. */
  lemma CatalogIdsDistinct()
    ensures forall i, j :: 0 <= i < j < |ChatModels| ==> ChatModels[i].id != ChatModels[j].id
  {
    forall i, j | 0 <= i < j < |ChatModels|
      ensures ChatModels[i].id != ChatModels[j].id
    {
      // Only two ids share a length, and those two differ in their first letter.
      assert |ChatModels[i].id| != |ChatModels[j].id| || ChatModels[i].id[0] != ChatModels[j].id[0];
    }
  }

  /** Every catalog id is namespaced as `<provider>-<name>`. */
  lemma CatalogIdsNamespaced()
    ensures forall m :: m in ChatModels ==> StartsWith(m.id, Name(m.provider) + "-")
  {
    forall i | 0 <= i < |ChatModels|
      ensures StartsWith(ChatModels[i].id, Name(ChatModels[i].provider) + "-")
    {
      CatalogIdNamespaced(i);
    }
  }

  lemma CatalogIdNamespaced(i: nat)
    requires i < |ChatModels|
    ensures StartsWith(ChatModels[i].id, Name(ChatModels[i].provider) + "-")
  {
    var m := ChatModels[i];
    var n := |Name(m.provider)|;
    assert m.id[..n + 1] == Name(m.provider) + "-";
  }

  /** `models.find(model => model.id === id)`: the first model with that id. */
  function Find(models: seq<ChatModel>, id: string): (r: Option<ChatModel>)
    ensures r.Some? ==> r.value in models && r.value.id == id
    ensures r.None? <==> forall m :: m in models ==> m.id != id
    ensures r.Some? ==>
      exists i :: 0 <= i < |models| && models[i] == r.value && forall k :: 0 <= k < i ==> models[k].id != id
  {
    if models == [] then None
    else if models[0].id == id then Some(models[0])
    else
      var rest := Find(models[1..], id);
      assert rest.Some? ==>
        exists i :: 0 < i < |models| && models[i] == rest.value && forall k :: 0 <= k < i ==> models[k].id != id
      by {
        if rest.Some? {
          var j :| 0 <= j < |models[1..]| && models[1..][j] == rest.value
            && forall k :: 0 <= k < j ==> models[1..][k].id != id;
          assert models[j + 1] == rest.value;
          forall k | 0 <= k < j + 1 ensures models[k].id != id {
            if k > 0 { assert models[k] == models[1..][k - 1]; }
          }
        }
      }
      rest
  }

  /** The one-element list returned on every degraded path:
      `[chatModels.find(model => model.id === 'xai-grok-2')]`. */
  function DefaultModels(): (r: seq<ChatModel>)
    ensures |r| == 1 && r[0] in ChatModels && r[0].id == DEFAULT_CHAT_MODEL
  {
    var found := Find(ChatModels, DEFAULT_CHAT_MODEL);
    assert ChatModels[0].id == DEFAULT_CHAT_MODEL;
    [found.value]
  }

  /** The catalog entries whose provider is in the given list, in catalog
      order: `chatModels.filter(model => availableProviders.includes(model.provider))`. */
  function ModelsOf(providers: seq<Provider>): seq<ChatModel>
  {
    Filter(ChatModels, (m: ChatModel) => m.provider in providers)
  }

  /** `getAvailableModels`. `isServer` stands for `typeof window === 'undefined'`;
      `lookup` is the result of `getAvailableProviders`, `None` when that call
      throws. */
  function GetAvailableModels(isServer: bool, lookup: Option<seq<Provider>>): (r: seq<ChatModel>)
    ensures r != []
    ensures isServer || lookup.None? ==>
      |r| == 1 && r[0] in ChatModels && r[0].id == DEFAULT_CHAT_MODEL
  {
    if isServer then DefaultModels()
    else match lookup
      case None => DefaultModels()
      case Some(providers) =>
        var filtered := ModelsOf(providers);
        if |filtered| == 0 then DefaultModels() else filtered
  }

  /** Every provider has at least one model in the catalog. */
  lemma EveryProviderHasModel(p: Provider) returns (i: nat)
    ensures i < |ChatModels| && ChatModels[i].provider == p
  {
    match p
    case XAI => i := 0;
    case OpenAI => i := 2;
    case Anthropic => i := 5;
    case Google => i := 8;
  }

  /** On the client, with at least one provider available, the list holds
      exactly the catalog models of the available providers. */
  lemma ClientModelsMatchProviders(providers: seq<Provider>)
    requires providers != []
    ensures forall m :: m in GetAvailableModels(false, Some(providers)) <==>
      m in ChatModels && m.provider in providers
  {
    var i := EveryProviderHasModel(providers[0]);
    FilterCovered(ChatModels, providers, i);
  }

  /** A provider filter over a list that holds a model of one of the
      providers is non-empty and keeps exactly those providers' models. */
  lemma FilterCovered(models: seq<ChatModel>, providers: seq<Provider>, i: nat)
    requires i < |models| && models[i].provider in providers
    ensures var r := Filter(models, (m: ChatModel) => m.provider in providers);
      r != [] && forall m :: m in r <==> m in models && m.provider in providers
  {
    var keep := (m: ChatModel) => m.provider in providers;
    FilterMembers(models, keep);
    assert models[i] in Filter(models, keep);
  }

  /** With no provider available the client gets the default model alone. */
  lemma ClientNoProvidersFallback()
    ensures GetAvailableModels(false, Some([])) == DefaultModels()
  {
    var keep := (m: ChatModel) => m.provider in [];
    FilterMembers(ChatModels, keep);
  }

  /** Whatever the context and the lookup, the list keeps catalog order and
      holds no model twice. */
  lemma AvailableModelsFollowCatalog(isServer: bool, lookup: Option<seq<Provider>>)
    ensures IsSubsequence(GetAvailableModels(isServer, lookup), ChatModels)
    ensures NoDuplicates(GetAvailableModels(isServer, lookup))
  {
    var r := GetAvailableModels(isServer, lookup);
    CatalogIdsDistinct();
    if isServer || lookup.None? || ModelsOf(lookup.value) == [] {
      assert r == DefaultModels();
      assert r == [ChatModels[0]];
      assert IsSubsequence(r[1..], ChatModels[1..]);
    } else {
      var keep := (m: ChatModel) => m.provider in lookup.value;
      assert r == Filter(ChatModels, keep);
      FilterIsSubsequence(ChatModels, keep);
      FilterNoDuplicates(ChatModels, keep);
    }
  }

  /** The client list computed from a provider config: with some provider
      enabled, exactly the catalog models of enabled providers; otherwise the
      default model alone. */
  lemma ClientModelsForConfig(c: Config)
    ensures var r := GetAvailableModels(false, Some(AvailableProviders(c)));
      if AnyEnabled(c) then forall m :: m in r <==> m in ChatModels && Enabled(c, m.provider)
      else r == DefaultModels()
  {
    AvailableProvidersFacts(c);
    if AnyEnabled(c) {
      ClientModelsMatchProviders(AvailableProviders(c));
    } else {
      ClientNoProvidersFallback();
    }
  }
}
