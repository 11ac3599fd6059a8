/** What the gateway resolves from the environment its Deployment renders: the
    deployed counterpart of the container the agent starts itself. */
module DeployedGateway {
  import opened Wrappers
  import opened GatewayConfig
  import opened AgentSettings
  import opened Manifest
  import opened Deployment
  import Ordering
  import Text

  /** What each secret reference is bound to. */
  type Store = SecretRef -> string

  function ValueOf(e: Entry, store: Store): string {
    match e
    case Literal(_, value) => value
    case FromSecret(_, secret, key) => store(SecretRef(secret, key))
  }

  /** The variables of the container: `base` is what envFrom brings, an entry of
      the list takes precedence over it, and over the entries before. */
  function EnvOf(base: Env, entries: seq<Entry>, store: Store): Env {
    if |entries| == 0 then base
    else
      var last := entries[|entries| - 1];
      EnvOf(base, entries[..|entries| - 1], store)[last.name := ValueOf(last, store)]
  }

  /** What a variable comes to: its secret's value where a reference bears its
      name, else the rendered value, else what was there before. */
  function Variable(base: Env, refs: SecretRefs, store: Store, name: string, rendered: string): string {
    if name in refs then store(refs[name])
    else if rendered != "" then rendered
    else Getenv(base, name)
  }

  // --- Looking a variable up ---

  lemma {:induction false} EnvOfConcat(base: Env, a: seq<Entry>, b: seq<Entry>, store: Store)
    ensures EnvOf(base, a + b, store) == EnvOf(EnvOf(base, a, store), b, store)
    decreases |b|
  {
    if |b| == 0 {
      assert a + b == a;
    } else {
      assert (a + b)[..|a + b| - 1] == a + b[..|b| - 1];
      EnvOfConcat(base, a, b[..|b| - 1], store);
    }
  }

  lemma {:induction false} Unnamed(base: Env, entries: seq<Entry>, store: Store, name: string)
    requires forall e :: e in entries ==> e.name != name
    ensures Getenv(EnvOf(base, entries, store), name) == Getenv(base, name)
  {
    if |entries| == 0 {
    } else {
      Unnamed(base, entries[..|entries| - 1], store, name);
      assert entries[|entries| - 1] in entries;
    }
  }

  lemma {:induction false} Named(base: Env, entries: seq<Entry>, store: Store, e: Entry)
    requires Ordering.Distinct(NamesIn(entries)) && e in entries
    ensures Getenv(EnvOf(base, entries, store), e.name) == ValueOf(e, store)
  {
    assert |entries| > 0;
    var prefix, last := entries[..|entries| - 1], entries[|entries| - 1];
    if e != last {
      assert NamesIn(prefix) == NamesIn(entries)[..|prefix|];
      assert e in prefix;
      var i :| 0 <= i < |prefix| && prefix[i] == e;
      assert NamesIn(entries)[i] == e.name && NamesIn(entries)[|prefix|] == last.name;
      Named(base, prefix, store, e);
    }
  }

  lemma SecretsAreDistinct(refs: SecretRefs)
    ensures Ordering.Distinct(NamesIn(Secrets(KeysInOrder(refs), refs)))
  {
    KeysAreDistinct(refs);
    assert NamesIn(Secrets(KeysInOrder(refs), refs)) == KeysInOrder(refs);
  }

  lemma VariableOf(
      base: Env, service: string, p: Parameters, refs: SecretRefs, store: Store, name: string, rendered: string)
    requires rendered != "" ==> Literal(name, rendered) in Literals(service, p)
    requires rendered == "" ==> forall e :: e in Literals(service, p) ==> e.name != name
    ensures Getenv(EnvOf(base, Intended(service, p, refs), store), name) ==
            Variable(base, refs, store, name, rendered)
  {
    var literals, secrets := Literals(service, p), Secrets(KeysInOrder(refs), refs);
    var middle := EnvOf(base, literals, store);
    EnvOfConcat(base, literals, secrets, store);
    if name in refs {
      var e := FromSecret(name, refs[name].name, refs[name].key);
      SecretMembers(KeysInOrder(refs), refs, e);
      SecretsAreDistinct(refs);
      Named(middle, secrets, store, e);
    } else {
      forall e | e in secrets ensures e.name != name {
        SecretMembers(KeysInOrder(refs), refs, e);
      }
      Unnamed(middle, secrets, store, name);
      if rendered != "" {
        LiteralsAreDistinct(service, p);
        Named(base, literals, store, Literal(name, rendered));
      } else {
        Unnamed(base, literals, store, name);
      }
    }
  }

  /** What the template renders for a variable; nothing for one it does not know. */
  function RenderedFor(p: Parameters, name: string): string {
    if name == "SWH_LISTEN" then LISTEN
    else if name == "SWH_BACKEND" then p.backend
    else if name == "SWH_DATABASE" then p.database
    else if name == "SWH_DATASET" then p.dataset
    else if name == "SWH_LOCATION" then p.location
    else if name == ANONYMOUS_KEY then "false"
    else ""
  }

  /** The service's own identity is no variable of the gateway. */
  lemma RenderedIsLiteral(service: string, p: Parameters, name: string)
    requires name != "CODEFLY__SERVICE"
    ensures var rendered := RenderedFor(p, name);
            && (rendered != "" ==> Literal(name, rendered) in Literals(service, p))
            && (rendered == "" ==> forall e :: e in Literals(service, p) ==> e.name != name)
  {
    NameRanks();
    hide Literals, Rank;
    LiteralMembers(service, p, Literal(name, RenderedFor(p, name)));
    forall e | e in Literals(service, p) && e.name == name ensures RenderedFor(p, name) != "" {
      LiteralMembers(service, p, e);
    }
  }

  lemma VariableOfDeployment(
      base: Env, service: string, p: Parameters, refs: SecretRefs, store: Store, name: string)
    requires name != "CODEFLY__SERVICE"
    ensures Getenv(EnvOf(base, Intended(service, p, refs), store), name) ==
            Variable(base, refs, store, name, RenderedFor(p, name))
  {
    hide Intended, Literals, RenderedFor, Variable, EnvOf;
    RenderedIsLiteral(service, p, name);
    VariableOf(base, service, p, refs, store, name, RenderedFor(p, name));
  }

  // --- The results ---

  /** The container's environment, read back from the rendered text. */
  ghost function DeployedEnv(
      base: Env, comment: seq<string>, service: string, p: Parameters, refs: SecretRefs, store: Store): Option<Env> {
    match Parse(Print(EnvLines(comment, service, p, refs)))
    case None => None
    case Some(entries) => Some(EnvOf(base, entries, store))
  }

  lemma AcceptedEnv(
      settings: Settings, req: DeployRequest, base: Env, comment: seq<string>, service: string, store: Store)
    requires FirstObstacle(Effective(settings, req.configuration), req) == None
    requires RenderedValue(service) && PlainRefs(req.secretRefs) && AllOneLine(comment)
    ensures var p := ParametersOf(Effective(settings, req.configuration));
            var env := DeployedEnv(base, comment, service, p, req.secretRefs, store);
            && env == Some(EnvOf(base, Intended(service, p, req.secretRefs), store))
            && Getenv(env.value, ANONYMOUS_KEY) == "false"
            && Getenv(env.value, TOKEN_KEY) == store(req.secretRefs[TOKEN_KEY])
  {
    var p := ParametersOf(Effective(settings, req.configuration));
    AcceptedDeploymentRoundTrips(settings, req, comment, service);
    VariableOfDeployment(base, service, p, req.secretRefs, store, ANONYMOUS_KEY);
    VariableOfDeployment(base, service, p, req.secretRefs, store, TOKEN_KEY);
    assert Reserved(ANONYMOUS_KEY);
    hide Effective, Parse, Print, EnvLines, Intended, Delivers, Authenticated, EnvOf;
  }

  lemma RenderedNames(p: Parameters)
    ensures RenderedFor(p, "SWH_LISTEN") == LISTEN && RenderedFor(p, "SWH_BACKEND") == p.backend
    ensures RenderedFor(p, "SWH_DATABASE") == p.database && RenderedFor(p, "SWH_DATASET") == p.dataset
    ensures RenderedFor(p, "SWH_LOCATION") == p.location
  {
  }

  /** A gateway that is told not to be anonymous, variable by variable. */
  lemma AuthenticatedGateway(env: Env, registry: Registry, parse: DurationParser)
    requires Getenv(env, ANONYMOUS_KEY) == "false"
    ensures var token, gateway := Text.Trim(Getenv(env, TOKEN_KEY)), FromEnv(env, registry, parse);
            && (gateway.Success? <==> ResolveBackend(env, registry, parse).Success? && token != "")
            && (gateway.Failure? && AboutToken(gateway.error) ==> token == "")
            && (gateway.Success? ==>
                  && gateway.value.authToken == token
                  && gateway.value.listenAddr == EnvOr(env, "SWH_LISTEN", LISTEN)
                  && gateway.value.backend.kind == EnvOr(env, "SWH_BACKEND", "duckdb")
                  && gateway.value.backend.database == Getenv(env, "SWH_DATABASE")
                  && gateway.value.backend.defaultDataset == Getenv(env, "SWH_DATASET")
                  && gateway.value.backend.location == Getenv(env, "SWH_LOCATION"))
  {
    BackendIgnoresListener(env, env, registry, parse);
    hide Getenv, Limits, Text.Trim;
  }

  /** For every request Deploy accepts, whatever else its secrets and the base
      environment bring, the gateway enforces the trimmed secret behind the token
      reference and nothing else; it starts exactly when its backend resolves and
      that secret is not blank, and listens and serves as was resolved, a variable
      with no value of its own being left to the secrets and the base. */
  lemma DeployedGatewayResolves(
      settings: Settings, req: DeployRequest, base: Env, comment: seq<string>, service: string, store: Store,
      registry: Registry, parse: DurationParser)
    requires FirstObstacle(Effective(settings, req.configuration), req) == None
    requires RenderedValue(service) && PlainRefs(req.secretRefs) && AllOneLine(comment)
    ensures var p, refs := ParametersOf(Effective(settings, req.configuration)), req.secretRefs;
            var env := DeployedEnv(base, comment, service, p, refs, store);
            && env.Some?
            && var token, gateway := Text.Trim(store(refs[TOKEN_KEY])), FromEnv(env.value, registry, parse);
               && (gateway.Success? <==> ResolveBackend(env.value, registry, parse).Success? && token != "")
               && (gateway.Failure? && AboutToken(gateway.error) ==> token == "")
               && (gateway.Success? ==>
                     var kind := Variable(base, refs, store, "SWH_BACKEND", p.backend);
                     var listen := Variable(base, refs, store, "SWH_LISTEN", LISTEN);
                     && gateway.value.authToken == token
                     && gateway.value.listenAddr == (if listen == "" then LISTEN else listen)
                     && gateway.value.backend.kind == (if kind == "" then "duckdb" else kind)
                     && gateway.value.backend.database == Variable(base, refs, store, "SWH_DATABASE", p.database)
                     && gateway.value.backend.defaultDataset == Variable(base, refs, store, "SWH_DATASET", p.dataset)
                     && gateway.value.backend.location == Variable(base, refs, store, "SWH_LOCATION", p.location))
  {
    var p, refs := ParametersOf(Effective(settings, req.configuration)), req.secretRefs;
    AcceptedEnv(settings, req, base, comment, service, store);
    var env := DeployedEnv(base, comment, service, p, refs, store).value;
    VariableOfDeployment(base, service, p, refs, store, "SWH_LISTEN");
    VariableOfDeployment(base, service, p, refs, store, "SWH_BACKEND");
    VariableOfDeployment(base, service, p, refs, store, "SWH_DATABASE");
    VariableOfDeployment(base, service, p, refs, store, "SWH_DATASET");
    VariableOfDeployment(base, service, p, refs, store, "SWH_LOCATION");
    AuthenticatedGateway(env, registry, parse);
    RenderedNames(p);
    hide Effective, DeployedEnv, Intended, EnvOf, Getenv, ResolveBackend, Variable, Text.Trim, FirstObstacle;
    hide PlainRefs, FromEnv, RenderedFor;
  }

  /** The gateway's variables that decide what it serves and how it listens. */
  const SERVING: set<string> := {
    "SWH_LISTEN", "SWH_BACKEND", "SWH_DATABASE", "SWH_DATASET", "SWH_LOCATION",
    "SWH_PORT", "SWH_MAX_QUERY_BYTES", "SWH_QUERY_TIMEOUT", "SWH_DSN"
  }

  /** Where neither a secret nor the base environment speaks of what is served, the
      request alone decides: the gateway starts exactly when the kind is there, has
      its database if it needs one, and the token's secret is not blank; and then
      each setting is as resolved, an omitted backend being the default. */
  lemma DeployedSettingsResolve(
      settings: Settings, req: DeployRequest, base: Env, comment: seq<string>, service: string, store: Store,
      registry: Registry, parse: DurationParser)
    requires FirstObstacle(Effective(settings, req.configuration), req) == None
    requires RenderedValue(service) && PlainRefs(req.secretRefs) && AllOneLine(comment)
    requires SERVING !! req.secretRefs.Keys && SERVING !! base.Keys
    ensures var conf := Effective(settings, req.configuration);
            var env := DeployedEnv(base, comment, service, ParametersOf(conf), req.secretRefs, store);
            var token := Text.Trim(store(req.secretRefs[TOKEN_KEY]));
            var kind := if conf.backend == "" then "duckdb" else conf.backend;
            && env.Some?
            && var gateway := FromEnv(env.value, registry, parse);
               && (gateway.Success? <==>
                     kind in registry && (registry[kind] || conf.database != "") && token != "")
               && (gateway.Success? ==>
                     && gateway.value.listenAddr == LISTEN && gateway.value.authToken == token
                     && gateway.value.backend.kind == kind
                     && gateway.value.backend.database == conf.database
                     && gateway.value.backend.defaultDataset == conf.dataset
                     && gateway.value.backend.location == conf.location)
  {
    var conf, refs := Effective(settings, req.configuration), req.secretRefs;
    DeployedGatewayResolves(settings, req, base, comment, service, store, registry, parse);
    AcceptedEnv(settings, req, base, comment, service, store);
    var env := DeployedEnv(base, comment, service, ParametersOf(conf), refs, store).value;
    hide Effective, DeployedEnv, Intended, FirstObstacle, PlainRefs, FromEnv;
    UntouchedVariables(base, service, ParametersOf(conf), refs, store);
    BackendOfServing(env, conf, registry, parse);
    hide ResolveBackend, Text.Trim, EnvOf;
  }

  lemma UntouchedVariables(base: Env, service: string, p: Parameters, refs: SecretRefs, store: Store)
    requires SERVING !! refs.Keys && SERVING !! base.Keys
    ensures var env := EnvOf(base, Intended(service, p, refs), store);
            forall name :: name in SERVING ==>
              && Getenv(env, name) == RenderedFor(p, name)
              && forall rendered :: Variable(base, refs, store, name, rendered) == rendered
  {
    hide Intended, EnvOf, RenderedFor;
    forall name | name in SERVING
      ensures Getenv(EnvOf(base, Intended(service, p, refs), store), name) == RenderedFor(p, name)
    {
      assert name != "CODEFLY__SERVICE";
      VariableOfDeployment(base, service, p, refs, store, name);
    }
  }

  lemma BackendOfServing(env: Env, conf: Resolved, registry: Registry, parse: DurationParser)
    requires forall name :: name in SERVING ==> Getenv(env, name) == RenderedFor(ParametersOf(conf), name)
    ensures var kind := if conf.backend == "" then "duckdb" else conf.backend;
            ResolveBackend(env, registry, parse).Success? <==>
            kind in registry && (registry[kind] || conf.database != "")
  {
    var p := ParametersOf(conf);
    assert RenderedFor(p, "SWH_PORT") == "" && RenderedFor(p, "SWH_DSN") == "";
    assert RenderedFor(p, "SWH_MAX_QUERY_BYTES") == "" && RenderedFor(p, "SWH_QUERY_TIMEOUT") == "";
    assert RenderedFor(p, "SWH_DATABASE") == p.database && RenderedFor(p, "SWH_BACKEND") == p.backend;
    hide RenderedFor, Getenv;
  }
}
