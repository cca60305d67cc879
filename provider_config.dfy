/** Provider availability (lib/ai/providers/config.ts): four secret
    environment variables become four booleans, and the booleans become the
    ordered list of usable providers. */
module ProviderConfig {
  import opened Common

  /** The closed set of model providers, declared in priority order. */
  datatype Provider = XAI | OpenAI | Anthropic | Google

  /** The environment: a missing key is an undefined variable. */
  type Env = map<string, string>

  /** The provider's name as it appears in model ids and provider lists. */
  function Name(p: Provider): string
  {
    match p
    case XAI => "xai"
    case OpenAI => "openai"
    case Anthropic => "anthropic"
    case Google => "google"
  }

  /** The secret environment variable that holds the provider's API key. */
  function KeyVar(p: Provider): string
  {
    match p
    case XAI => "XAI_API_KEY"
    case OpenAI => "OPENAI_API_KEY"
    case Anthropic => "ANTHROPIC_API_KEY"
    case Google => "GOOGLE_API_KEY"
  }

  /** JavaScript's `Boolean(env[k])` on a string variable: defined and not
      the empty string. */
  predicate IsSet(env: Env, k: string)
  {
    k in env && env[k] != ""
  }

  /** `ProviderConfig`: one `enabled` flag per provider. */
  datatype Config = Config(xai: bool, openai: bool, anthropic: bool, google: bool)

  function Enabled(c: Config, p: Provider): bool
  {
    match p
    case XAI => c.xai
    case OpenAI => c.openai
    case Anthropic => c.anthropic
    case Google => c.google
  }

  predicate AnyEnabled(c: Config)
  {
    exists p :: Enabled(c, p)
  }

  /** The order in which providers are listed and tried. */
  const PriorityOrder: seq<Provider> := [XAI, OpenAI, Anthropic, Google]

  /** `getProviderConfig`: a provider is enabled exactly when its key
      variable is defined and non-empty. */
  function GetProviderConfig(env: Env): (c: Config)
    ensures forall p :: Enabled(c, p) <==> IsSet(env, KeyVar(p))
  {
    Config(
      IsSet(env, "XAI_API_KEY"),
      IsSet(env, "OPENAI_API_KEY"),
      IsSet(env, "ANTHROPIC_API_KEY"),
      IsSet(env, "GOOGLE_API_KEY"))
  }

  /** The config reads the four key variables and nothing else. */
  lemma ConfigDependsOnlyOnKeys(e1: Env, e2: Env)
    requires forall p :: IsSet(e1, KeyVar(p)) == IsSet(e2, KeyVar(p))
    ensures GetProviderConfig(e1) == GetProviderConfig(e2)
  {
    assert IsSet(e1, KeyVar(XAI)) == IsSet(e2, KeyVar(XAI));
    assert IsSet(e1, KeyVar(OpenAI)) == IsSet(e2, KeyVar(OpenAI));
    assert IsSet(e1, KeyVar(Anthropic)) == IsSet(e2, KeyVar(Anthropic));
    assert IsSet(e1, KeyVar(Google)) == IsSet(e2, KeyVar(Google));
  }

  /** Reference definition of the provider list: the priority order with the
      disabled providers removed. */
  function AvailableProviders(c: Config): seq<Provider>
  {
    Filter(PriorityOrder, p => Enabled(c, p))
  }

  /** `getAvailableProviders`: reads the config from the environment and
      pushes each enabled provider in priority order. */
  method GetAvailableProviders(env: Env) returns (providers: seq<Provider>)
    ensures providers == AvailableProviders(GetProviderConfig(env))
    ensures forall p :: p in providers <==> IsSet(env, KeyVar(p))
    ensures IsSubsequence(providers, PriorityOrder)
    ensures NoDuplicates(providers) && |providers| <= 4
    ensures providers == [] <==> forall p :: !IsSet(env, KeyVar(p))
  {
    var config := GetProviderConfig(env);
    providers := [];
    ghost var x := if config.xai then [XAI] else [];
    ghost var o := if config.openai then [OpenAI] else [];
    ghost var a := if config.anthropic then [Anthropic] else [];
    ghost var g := if config.google then [Google] else [];

    if config.xai { providers := providers + [XAI]; }
    if config.openai { providers := providers + [OpenAI]; }
    if config.anthropic { providers := providers + [Anthropic]; }
    if config.google { providers := providers + [Google]; }
    assert providers == x + o + a + g;
    assert providers == AvailableProviders(config) by {
      AvailableProvidersUnfold(config);
    }
    AvailableProvidersFromEnv(env);
  }

  /** The provider list of an environment, stated in terms of its key
      variables. */
  lemma AvailableProvidersFromEnv(env: Env)
    ensures var ps := AvailableProviders(GetProviderConfig(env));
      && (forall p :: p in ps <==> IsSet(env, KeyVar(p)))
      && IsSubsequence(ps, PriorityOrder)
      && NoDuplicates(ps) && |ps| <= 4
      && (ps == [] <==> forall p :: !IsSet(env, KeyVar(p)))
  {
    var config := GetProviderConfig(env);
    AvailableProvidersFacts(config);
    assert AnyEnabled(config) <==> exists p :: IsSet(env, KeyVar(p));
  }

  /** The filter of the priority order, written out provider by provider. */
  lemma AvailableProvidersUnfold(c: Config)
    ensures AvailableProviders(c) ==
      (if c.xai then [XAI] else []) + (if c.openai then [OpenAI] else [])
      + (if c.anthropic then [Anthropic] else []) + (if c.google then [Google] else [])
  {
    var keep := p => Enabled(c, p);
    assert PriorityOrder[1..] == [OpenAI, Anthropic, Google];
    assert PriorityOrder[1..][1..] == [Anthropic, Google];
    assert PriorityOrder[1..][1..][1..] == [Google];
    assert PriorityOrder[1..][1..][1..][1..] == [];
    assert Filter([Google], keep) == (if c.google then [Google] else []);
  }

  /** The priority order lists every provider, each once. */
  lemma PriorityOrderComplete()
    ensures forall p :: p in PriorityOrder
    ensures NoDuplicates(PriorityOrder)
  {
    forall p ensures p in PriorityOrder {
      match p
      case XAI => assert PriorityOrder[0] == p;
      case OpenAI => assert PriorityOrder[1] == p;
      case Anthropic => assert PriorityOrder[2] == p;
      case Google => assert PriorityOrder[3] == p;
    }
  }

  /** The provider list holds exactly the enabled providers, in priority
      order, each once; it is empty exactly when none is enabled. */
  lemma AvailableProvidersFacts(c: Config)
    ensures forall p :: p in AvailableProviders(c) <==> Enabled(c, p)
    ensures IsSubsequence(AvailableProviders(c), PriorityOrder)
    ensures NoDuplicates(AvailableProviders(c)) && |AvailableProviders(c)| <= 4
    ensures AvailableProviders(c) == [] <==> !AnyEnabled(c)
  {
    var keep := p => Enabled(c, p);
    var r := AvailableProviders(c);
    assert r == Filter(PriorityOrder, keep);
    PriorityOrderComplete();
    FilterMembers(PriorityOrder, keep);
    assert forall p :: p in r <==> Enabled(c, p);
    FilterIsSubsequence(PriorityOrder, keep);
    FilterNoDuplicates(PriorityOrder, keep);
    if r != [] {
      assert r[0] in r;
    }
  }
}
