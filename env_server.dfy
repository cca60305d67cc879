/** Server-side publication of key presence (lib/env-server.ts): for each
    provider, `NEXT_PUBLIC_HAS_<P>_API_KEY` becomes `'true'` or `''`
    according to whether the secret `<P>_API_KEY` is set. */
module EnvServer {
  import opened ProviderConfig

  /** `process.env`: a mutable dictionary of string variables. */
  class ProcessEnv {
    var vars: Env

    constructor (initial: Env)
      ensures vars == initial
    {
      vars := initial;
    }
  }

  /** The public presence variable of a provider. */
  function FlagVar(p: Provider): string
  {
    "NEXT_PUBLIC_HAS_" + KeyVar(p)
  }

  const FlagVars: set<string> := {FlagVar(XAI), FlagVar(OpenAI), FlagVar(Anthropic), FlagVar(Google)}

  /** No presence variable is a secret variable, and the four presence
      variables are distinct. */
  lemma FlagVarsAreFresh()
    ensures forall p, q :: FlagVar(p) != KeyVar(q)
    ensures forall p, q :: FlagVar(p) == FlagVar(q) ==> p == q
  {
    forall p, q ensures FlagVar(p) != KeyVar(q) {
      assert |FlagVar(p)| > |KeyVar(q)|;
    }
    forall p, q | FlagVar(p) == FlagVar(q) ensures p == q {
      assert FlagVar(p)[16..] == KeyVar(p) && FlagVar(q)[16..] == KeyVar(q);
    }
  }

  /** `process.env.<P>_API_KEY ? 'true' : ''`: a boolean rendered as a
      string, never the secret itself. */
  function PresenceFlag(env: Env, p: Provider): (flag: string)
    ensures flag == "true" || flag == ""
    ensures flag != "" <==> IsSet(env, KeyVar(p))
  {
    if IsSet(env, KeyVar(p)) then "true" else ""
  }

  /** The environment `setupPublicEnv` leaves behind: each presence
      variable holds the flag computed from the environment it started from. */
  function PublishPresence(env: Env): (r: Env)
    ensures forall p :: FlagVar(p) in r && r[FlagVar(p)] == PresenceFlag(env, p)
    ensures forall k :: k !in FlagVars ==> (k in r <==> k in env) && (k in env ==> r[k] == env[k])
  {
    FlagVarsAreFresh();
    env[FlagVar(XAI) := PresenceFlag(env, XAI)]
       [FlagVar(OpenAI) := PresenceFlag(env, OpenAI)]
       [FlagVar(Anthropic) := PresenceFlag(env, Anthropic)]
       [FlagVar(Google) := PresenceFlag(env, Google)]
  }

  /** Writing a presence variable does not change any provider's flag. */
  lemma PresenceFlagUnaffected(env: Env, q: Provider, v: string)
    ensures forall p :: PresenceFlag(env[FlagVar(q) := v], p) == PresenceFlag(env, p)
  {
    FlagVarsAreFresh();
  }

  /** `setupPublicEnv`: four assignments into `process.env`, in source
      order, each reading the current environment. */
  method SetupPublicEnv(processEnv: ProcessEnv)
    modifies processEnv
    ensures processEnv.vars == PublishPresence(old(processEnv.vars))
  {
    PresenceFlagUnaffected(processEnv.vars, XAI, PresenceFlag(processEnv.vars, XAI));
    processEnv.vars := processEnv.vars[FlagVar(XAI) := PresenceFlag(processEnv.vars, XAI)];
    PresenceFlagUnaffected(processEnv.vars, OpenAI, PresenceFlag(processEnv.vars, OpenAI));
    processEnv.vars := processEnv.vars[FlagVar(OpenAI) := PresenceFlag(processEnv.vars, OpenAI)];
    PresenceFlagUnaffected(processEnv.vars, Anthropic, PresenceFlag(processEnv.vars, Anthropic));
    processEnv.vars := processEnv.vars[FlagVar(Anthropic) := PresenceFlag(processEnv.vars, Anthropic)];
    processEnv.vars := processEnv.vars[FlagVar(Google) := PresenceFlag(processEnv.vars, Google)];
  }

  /** A published flag is truthy exactly when its secret is, and is one of
      the two strings `'true'` and `''`. */
  lemma PublishPreservesTruthiness(env: Env, p: Provider)
    ensures IsSet(PublishPresence(env), FlagVar(p)) <==> IsSet(env, KeyVar(p))
    ensures PublishPresence(env)[FlagVar(p)] in {"true", ""}
  {
  }

  /** Publishing leaves the secrets, hence the provider config, as they were. */
  lemma PublishKeepsConfig(env: Env)
    ensures GetProviderConfig(PublishPresence(env)) == GetProviderConfig(env)
  {
    FlagVarsAreFresh();
    forall p ensures IsSet(PublishPresence(env), KeyVar(p)) == IsSet(env, KeyVar(p)) {
      assert KeyVar(p) !in FlagVars;
    }
    ConfigDependsOnlyOnKeys(PublishPresence(env), env);
  }

  /** Rewriting a key with the value it already has changes nothing. */
  lemma UpdateWithSameValue(m: Env, k: string)
    requires k in m
    ensures m[k := m[k]] == m
  {
  }

  /** Running `setupPublicEnv` twice is the same as running it once. */
  lemma PublishIdempotent(env: Env)
    ensures PublishPresence(PublishPresence(env)) == PublishPresence(env)
  {
    var once := PublishPresence(env);
    assert forall p :: once[FlagVar(p)] == PresenceFlag(once, p) by {
      FlagVarsAreFresh();
      forall p ensures PresenceFlag(once, p) == PresenceFlag(env, p) {
        assert KeyVar(p) !in FlagVars;
      }
    }
    var step1 := once[FlagVar(XAI) := PresenceFlag(once, XAI)];
    UpdateWithSameValue(once, FlagVar(XAI));
    assert step1 == once;
    var step2 := step1[FlagVar(OpenAI) := PresenceFlag(once, OpenAI)];
    UpdateWithSameValue(once, FlagVar(OpenAI));
    assert step2 == once;
    var step3 := step2[FlagVar(Anthropic) := PresenceFlag(once, Anthropic)];
    UpdateWithSameValue(once, FlagVar(Anthropic));
    assert step3 == once;
    UpdateWithSameValue(once, FlagVar(Google));
    assert PublishPresence(once) == step3[FlagVar(Google) := PresenceFlag(once, Google)];
  }
}
