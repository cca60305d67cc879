# Provider availability and model routing, in Dafny

This project models the provider layer of an AI chatbot web application. The
layer decides which of four model providers (xAI, OpenAI, Anthropic, Google)
are usable. It then maps a requested model id to a provider adapter and model
id, for text and for image generation. It falls back to a default when the
requested provider is not usable. Alongside it sits a small bridge: the server
publishes only whether each API key is present, and the browser mirrors that.

Modules, one per source file:

- `Common` (common.dfy): `Option` for JavaScript's `undefined`, `StartsWith`,
  and `Filter` (`Array.prototype.filter`) with its membership, order and
  uniqueness lemmas.
- `ProviderConfig` (lib/ai/providers/config.ts): the environment is a
  `map<string, string>` in which a missing key is undefined. `GetProviderConfig`
  turns the four `*_API_KEY` variables into a `Config` of four booleans, using
  JavaScript truthiness: a key counts when it is defined and not empty.
  `GetAvailableProviders` is a method that pushes the enabled providers in the
  order xAI, OpenAI, Anthropic, Google. It is proved equal to the reference
  filter `AvailableProviders`.
- `Models` (lib/ai/models.ts): the 10-entry catalog, `Find`, and
  `GetAvailableModels`. Two things the source reads from its surroundings
  become parameters. `isServer` stands for `typeof window === 'undefined'`.
  `lookup` is the provider list, or `None` when the lazy `require` and the
  call throw.
- `ModelRouter` (lib/ai/providers/index.ts): `LanguageModel` and `ImageModel`
  take the provider config as a parameter. The source reads it once, when the
  module loads. An SDK model handle is represented by `Route(provider, id)`.
  `AiLanguageModel` and `AiImageModel` add the test-environment switch. In test
  mode they return the four stub handles, or the SDK's "no such model" error
  for any other id.
- `EnvServer` (lib/env-server.ts): `process.env` is a class `ProcessEnv` whose
  `vars` map the method `SetupPublicEnv` updates in place.
- `EnvClient` (lib/env-client.ts): `window` is a class `Window` whose `env`
  field is `__ENV`. A null `Window?` stands for "no window". `InitClientEnv`
  replaces `__ENV` with a fresh four-field object.

Two behaviours of the source are reproduced rather than corrected:

- The image fallback for Google names `google-gemini-vision`. That model is
  commented out of the Google adapter (`GoogleImageFallbackUnregistered`).
- An id such as `xai-foo` is sent to xAI unchanged when xAI is enabled, even
  though the xAI adapter does not register it (`UnregisteredIdRoutedUnchanged`).

Two further facts about the code:

- `getAvailableProviders` returns an empty list when no key is set; no
  default provider is marked available there. The fallback to `xai-grok-2`
  lives in `getAvailableModels` and in the router.
- Resolving an id twice with the same config gives the same route: every
  router member is a function of the config and the id.

## Model

| member | source | states |
|---|---|---|
| `Common.Filter` | lib/ai/models.ts:93 | `filter`'s result is no longer than its input and holds only elements the predicate accepts |
| `Common.FilterMembers` | lib/ai/models.ts:93 | an element is in `filter`'s result exactly when it is in the input and the predicate accepts it |
| `Common.FilterIsSubsequence` | lib/ai/models.ts:93 | `filter` keeps the input order: its result is a subsequence of the input |
| `Common.FilterNoDuplicates` | lib/ai/models.ts:93 | filtering a list without duplicates yields a list without duplicates |
| `ProviderConfig.GetProviderConfig` | lib/ai/providers/config.ts:18-35 | provider p is enabled exactly when its `*_API_KEY` variable is defined and non-empty |
| `ProviderConfig.ConfigDependsOnlyOnKeys` | lib/ai/providers/config.ts:22-33 | two environments that agree on the truthiness of the four key variables give the same config |
| `ProviderConfig.GetAvailableProviders` | lib/ai/providers/config.ts:38-48 | the pushed list equals the priority order filtered by enablement. It holds p exactly when p's key is set. It is a subsequence of [xai, openai, anthropic, google], has no duplicates and at most 4 entries, and is empty exactly when no key is set |
| `ProviderConfig.AvailableProvidersUnfold` | lib/ai/providers/config.ts:42-45 | the reference filter equals the four conditional pushes in source order |
| `ProviderConfig.PriorityOrderComplete` | lib/ai/providers/config.ts:42-45 | the priority order names every provider exactly once |
| `ProviderConfig.AvailableProvidersFacts` | lib/ai/providers/config.ts:40-47 | for any config, the list holds exactly the enabled providers, once each, in priority order, with at most 4 entries, and is empty exactly when none is enabled |
| `ProviderConfig.AvailableProvidersFromEnv` | lib/ai/providers/config.ts:38-47 | the same facts stated in terms of the environment's key variables |
| `Models.CatalogIdsDistinct` | lib/ai/models.ts:10-78 | catalog ids are pairwise distinct |
| `Models.CatalogIdsNamespaced` | lib/ai/models.ts:10-78 | every catalog id starts with its provider's name followed by `-` |
| `Models.CatalogIdNamespaced` | lib/ai/models.ts:10-78 | the same for one catalog index |
| `Models.Find` | lib/ai/models.ts:85 | `find` returns the first member carrying the id, and returns nothing exactly when no member carries it |
| `Models.DefaultModels` | lib/ai/models.ts:1-17 | the degraded result is one catalog model whose id is `DEFAULT_CHAT_MODEL` (`xai-grok-2`) |
| `Models.GetAvailableModels` | lib/ai/models.ts:81-107 | the result is never empty. On the server, or when the provider lookup throws, it is exactly the `xai-grok-2` catalog entry |
| `Models.EveryProviderHasModel` | lib/ai/models.ts:10-78 | each provider has at least one catalog model |
| `Models.ClientModelsMatchProviders` | lib/ai/models.ts:91-101 | on the client with a non-empty provider list, a catalog model is in the result exactly when its provider is in the list |
| `Models.FilterCovered` | lib/ai/models.ts:93-96 | a provider filter over models that include one of the providers' models is non-empty and keeps exactly those providers' models |
| `Models.ClientNoProvidersFallback` | lib/ai/models.ts:96-99 | with an empty provider list the client gets the default model alone |
| `Models.AvailableModelsFollowCatalog` | lib/ai/models.ts:81-107 | on every path the result is a subsequence of the catalog and has no duplicates |
| `Models.ClientModelsForConfig` | lib/ai/models.ts:90-101 | for the provider list of a config, the client result is the catalog models of enabled providers, or the default model when none is enabled |
| `ModelRouter.PrefixesExclusive` | lib/ai/providers/index.ts:89-103 | an id starts with at most one of the four `<provider>-` prefixes, so at most one dispatch branch can apply |
| `ModelRouter.LanguageModel` | lib/ai/providers/index.ts:78-119 | the routed provider is enabled whenever some provider is. The routed id is the remapped request or that provider's default |
| `ModelRouter.LanguageModelDispatch` | lib/ai/providers/index.ts:88-103 | a remapped id starting with an enabled provider's prefix is routed to that provider with the id unchanged |
| `ModelRouter.LanguageModelFallback` | lib/ai/providers/index.ts:105-118 | an id whose prefix names no enabled provider gets the fallback route |
| `ModelRouter.TextFallbackIsFirstAvailable` | lib/ai/providers/index.ts:105-118 | the fallback is the default model of the first entry of `getAvailableProviders`' list, or (xai, `xai-grok-2`) when the list is empty |
| `ModelRouter.LegacyAliasesResolveAsTargets` | lib/ai/providers/index.ts:80-86 | `chat-model`, `chat-model-reasoning`, `title-model` and `artifact-model` route exactly as `xai-grok-2`, `xai-grok-3-mini`, `xai-grok-2` and `xai-grok-2` do, under every config |
| `ModelRouter.LegacyAliasesWithXai` | lib/ai/providers/index.ts:80-90 | with xAI enabled the four aliases reach those xAI models |
| `ModelRouter.TextDefaultsInCatalog` | lib/ai/providers/index.ts:106-114 | each provider's fallback id is a catalog model of that provider and is registered with its adapter |
| `ModelRouter.RegisteredIdsAreCatalogIds` | lib/ai/providers/index.ts:29-72 | every catalog id is registered with its own provider's adapter |
| `ModelRouter.RegisteredIdsComeFromCatalog` | lib/ai/providers/index.ts:29-72 | every id an adapter registers is a catalog model of that provider, so the adapters register exactly the catalog's ids |
| `ModelRouter.CatalogModelsRouteToThemselves` | lib/ai/providers/index.ts:88-103 | a catalog model whose provider is enabled is routed to itself |
| `ModelRouter.UnregisteredIdRoutedUnchanged` | lib/ai/providers/index.ts:89-90 | with xAI enabled, `xai-foo` goes to xAI unchanged although the adapter does not register it |
| `ModelRouter.ImageModel` | lib/ai/providers/index.ts:120-151 | an image route never selects Anthropic. Its provider is enabled whenever an image-capable provider is. Its id is the remapped request or that provider's image default |
| `ModelRouter.ImageModelDispatch` | lib/ai/providers/index.ts:126-137 | an id in an enabled image provider's namespace is routed there unchanged |
| `ModelRouter.ImageModelFallback` | lib/ai/providers/index.ts:139-150 | any other id, Anthropic's included, gets the first enabled provider's image default in the order xai, openai, google, else `xai-image` |
| `ModelRouter.ImageAliasResolvesAsTarget` | lib/ai/providers/index.ts:121-124 | `small-model` routes exactly as `xai-image` does |
| `ModelRouter.GoogleImageFallbackUnregistered` | lib/ai/providers/index.ts:140-150 | with only Google image-capable, the fallback is `google-gemini-vision`, which the Google adapter does not register; the xAI and OpenAI image defaults are registered |
| `ModelRouter.TestLanguageModel` | lib/ai/providers/index.ts:19-26 | the test provider never routes to a real adapter. Exactly the four logical ids get a stub; any other id is the "no such model" error |
| `ModelRouter.AiLanguageModel` | lib/ai/providers/index.ts:75-78 | in the test environment the result is the test provider's; otherwise it is the router's route, which names an enabled provider whenever one is enabled |
| `ModelRouter.AiImageModel` | lib/ai/providers/index.ts:75-78 | in the test environment every image id is the "no such model" error; otherwise it is the image router's route, never Anthropic |
| `ModelRouter.TestModeStubs` | lib/ai/providers/index.ts:19-26 | in test mode the result does not depend on the config. The four roles get their stubs, and only those four ids get a stub |
| `ModelRouter.RoutingNeverFails` | lib/ai/providers/index.ts:75-152 | outside test mode both lookups always yield a route. With nothing enabled they yield (xai, `xai-grok-2`) and (xai, `xai-image`) |
| `EnvServer.FlagVarsAreFresh` | lib/env-server.ts:6-9 | no presence variable is a secret variable, and the four presence variables are distinct |
| `EnvServer.PresenceFlag` | lib/env-server.ts:6-9 | a flag is `'true'` or `''`, and is non-empty exactly when the secret is set |
| `EnvServer.PublishPresence` | lib/env-server.ts:4-10 | each `NEXT_PUBLIC_HAS_<P>_API_KEY` holds its provider's flag. Every other variable, the secrets included, is unchanged |
| `EnvServer.PresenceFlagUnaffected` | lib/env-server.ts:6-9 | writing a presence variable changes no provider's flag, so the order of the four writes does not matter |
| `EnvServer.SetupPublicEnv` | lib/env-server.ts:4-10 | the method leaves `process.env` equal to the published environment of its old value |
| `EnvServer.PublishPreservesTruthiness` | lib/env-server.ts:6-9 | a published flag is truthy exactly when its secret is, and is `'true'` or `''` |
| `EnvServer.PublishKeepsConfig` | lib/env-server.ts:4-10 | publishing leaves the provider config unchanged |
| `EnvServer.PublishIdempotent` | lib/env-server.ts:6-9 | publishing twice gives the same environment as publishing once |
| `EnvClient.Mirror` | lib/env-client.ts:8-13 | all four fields are defined, `MONGODB_URI` is absent, and each field is the published flag when that is set and `''` otherwise |
| `EnvClient.InitClientEnv` | lib/env-client.ts:6-15 | with a window, `__ENV` becomes the mirror of the public flags. It may modify nothing but the window, so nothing changes without one |
| `EnvClient.MirrorOfPublished` | lib/env-client.ts:9-12 | after server publication each `__ENV` field is `'true'` or `''` and is truthy exactly when its secret is. The availability the client reads equals the server's config |
| `EnvClient.SecretNeverReachesClient` | lib/env-client.ts:9-12 | a secret other than `'true'` or `''` never appears in any `__ENV` field |

## Left out

- Logging is not modelled. This covers `console.log`, `console.warn` and `console.error`. It includes lib/ai/providers/config.ts:20, which prints the raw `OPENAI_API_KEY`.
- The provider SDKs are not modelled: `xai()`, `openai()`, `anthropic()`, `google()`, `customProvider`, `wrapLanguageModel` and the reasoning middleware. A `Route` only names the adapter and id it would ask for. The adapter's own lookup is not modelled, so an unregistered id such as `xai-foo` yields a route and not the SDK's error. The registered-id tables serve only to state the two quirks above.
- The test-mode stubs from `../models.test` are opaque `Stub` tags. The modelled behaviour of the test `customProvider` is an assumption about the SDK: any other id, and every image request, is the "no such model" error.
- Module-load timing is not modelled. The config snapshot taken at load, `typeof window`, the lazy `require` and its possible exception all become parameters (`Config`, `isServer`, `lookup`, a nullable `Window`).
- The client side reads the public flags from the same `ProcessEnv` object the server writes. Next.js inlines `NEXT_PUBLIC_*` values into the client bundle at build time, and that propagation is not modelled.
- Catalog names and descriptions are carried as data; no property is stated about them.
- The database layer, the REST clients, the authentication module and the React components are not part of this model. `model-selector.tsx` and `api-key-warning.tsx` consume this layer. `EnvClient.ClientConfig` restates only the `Boolean(window.__ENV?.<P>_API_KEY)` reads of the latter.
