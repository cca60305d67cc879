/** Client-side mirror of key presence (lib/env-client.ts): in a browser,
    `window.__ENV` is replaced by the four published presence flags. */
module EnvClient {
  import opened Common
  import opened ProviderConfig
  import EnvServer

  /** The declared shape of `window.__ENV`; every field is optional. */
  datatype PublicEnv = PublicEnv(
    xai: Option<string>,
    openai: Option<string>,
    anthropic: Option<string>,
    google: Option<string>,
    mongodbUri: Option<string>)

  /** The `<P>_API_KEY` field of `__ENV`. */
  function Field(e: PublicEnv, p: Provider): Option<string>
  {
    match p
    case XAI => e.xai
    case OpenAI => e.openai
    case Anthropic => e.anthropic
    case Google => e.google
  }

  /** `Boolean(window.__ENV?.<P>_API_KEY)`. */
  predicate Truthy(v: Option<string>)
  {
    v.Some? && v.value != ""
  }

  /** The browser's `window`, reduced to its `__ENV` property. */
  class Window {
    var env: Option<PublicEnv>

    constructor ()
      ensures env == None
    {
      env := None;
    }
  }

  /** `process.env.NEXT_PUBLIC_HAS_<P>_API_KEY || ''`. */
  function FlagOrEmpty(env: Env, p: Provider): string
  {
    if IsSet(env, EnvServer.FlagVar(p)) then env[EnvServer.FlagVar(p)] else ""
  }

  /** The object `initClientEnv` assigns: four defined fields, each the
      published flag when it is set and `''` otherwise, and no other field. */
  function Mirror(env: Env): (e: PublicEnv)
    ensures e.mongodbUri == None
    ensures forall p :: Field(e, p).Some?
    ensures forall p :: Truthy(Field(e, p)) <==> IsSet(env, EnvServer.FlagVar(p))
    ensures forall p :: IsSet(env, EnvServer.FlagVar(p)) ==> Field(e, p) == Some(env[EnvServer.FlagVar(p)])
    ensures forall p :: !IsSet(env, EnvServer.FlagVar(p)) ==> Field(e, p) == Some("")
  {
    PublicEnv(
      Some(FlagOrEmpty(env, XAI)),
      Some(FlagOrEmpty(env, OpenAI)),
      Some(FlagOrEmpty(env, Anthropic)),
      Some(FlagOrEmpty(env, Google)),
      None)
  }

  /** `initClientEnv`: without a window (`window` is null) nothing is
      written; otherwise `window.__ENV` is replaced wholesale. */
  method InitClientEnv(window: Window?, processEnv: EnvServer.ProcessEnv)
    modifies window
    ensures window != null ==> window.env == Some(Mirror(processEnv.vars))
  {
    if window != null {
      window.env := Some(Mirror(processEnv.vars));
    }
  }

  /** The availability a client reads from `__ENV`, one flag per provider. */
  function ClientConfig(e: PublicEnv): Config
  {
    Config(Truthy(e.xai), Truthy(e.openai), Truthy(e.anthropic), Truthy(e.google))
  }

  /** Publishing on the server and mirroring on the client: each field is
      `'true'` or `''`, its truthiness is that of the secret, and the client
      sees the same availability as the server's config. */
  lemma MirrorOfPublished(env: Env)
    ensures var e := Mirror(EnvServer.PublishPresence(env));
      && e.mongodbUri == None
      && (forall p :: Field(e, p) == Some("true") || Field(e, p) == Some(""))
      && (forall p :: Truthy(Field(e, p)) <==> IsSet(env, KeyVar(p)))
      && ClientConfig(e) == GetProviderConfig(env)
  {
    var published := EnvServer.PublishPresence(env);
    var e := Mirror(published);
    forall p ensures Field(e, p) == Some(EnvServer.PresenceFlag(env, p)) {
      assert published[EnvServer.FlagVar(p)] == EnvServer.PresenceFlag(env, p);
    }
    assert Truthy(e.xai) == Truthy(Field(e, XAI));
    assert Truthy(e.openai) == Truthy(Field(e, OpenAI));
    assert Truthy(e.anthropic) == Truthy(Field(e, Anthropic));
    assert Truthy(e.google) == Truthy(Field(e, Google));
  }

  /** A secret that is neither `'true'` nor `''` never appears in `__ENV`. */
  lemma SecretNeverReachesClient(env: Env, q: Provider)
    requires KeyVar(q) in env && env[KeyVar(q)] != "true" && env[KeyVar(q)] != ""
    ensures forall p :: Field(Mirror(EnvServer.PublishPresence(env)), p) != Some(env[KeyVar(q)])
  {
    MirrorOfPublished(env);
  }
}
