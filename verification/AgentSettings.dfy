/** The agent's effective configuration, and the container environment it makes
    of it. */
module AgentSettings {
  import opened Wrappers
  import opened GatewayConfig
  import Text

  /** The service's own settings, the local defaults. */
  datatype Settings = Settings(backend: string, database: string, dataset: string, location: string)

  datatype Resolved = Resolved(
    backend: string,
    database: string,
    dataset: string,
    location: string,
    credentialsFile: string,
    authToken: string)

  /** What looking a key up in the warehouse group of a runtime configuration
      answers; a key it does not hold is absent. */
  type Values = map<string, string>

  /** One configurable field and the key its runtime value arrives under. */
  datatype Field = Backend | Database | Dataset | Location | CredentialsFile | AuthToken {
    function Key(): string {
      match this
      case Backend => "SWH_BACKEND"
      case Database => "SWH_DATABASE"
      case Dataset => "SWH_DATASET"
      case Location => "SWH_LOCATION"
      case CredentialsFile => "SWH_CREDENTIALS_FILE"
      case AuthToken => "SWH_AUTH_TOKEN"
    }

    function Of(r: Resolved): string {
      match this
      case Backend => r.backend
      case Database => r.database
      case Dataset => r.dataset
      case Location => r.location
      case CredentialsFile => r.credentialsFile
      case AuthToken => r.authToken
    }

    function Put(r: Resolved, value: string): (r': Resolved)
      ensures forall f: Field :: f.Of(r') == if f == this then value else f.Of(r)
    {
      match this
      case Backend => r.(backend := value)
      case Database => r.(database := value)
      case Dataset => r.(dataset := value)
      case Location => r.(location := value)
      case CredentialsFile => r.(credentialsFile := value)
      case AuthToken => r.(authToken := value)
    }
  }

  const FIELDS: seq<Field> := [Backend, Database, Dataset, Location, CredentialsFile, AuthToken]

  function FromSettings(s: Settings): Resolved {
    Resolved(s.backend, s.database, s.dataset, s.location, "", "")
  }

  /** A runtime value replaces the default, unless it is empty. */
  function Picked(conf: Option<Values>, key: string, def: string): string {
    if conf.Some? && key in conf.value && conf.value[key] != "" then conf.value[key] else def
  }

  /** The effective value of each field: picked, then trimmed. */
  function Effective(s: Settings, conf: Option<Values>): Resolved {
    Resolved(
      Text.Trim(Picked(conf, "SWH_BACKEND", s.backend)),
      Text.Trim(Picked(conf, "SWH_DATABASE", s.database)),
      Text.Trim(Picked(conf, "SWH_DATASET", s.dataset)),
      Text.Trim(Picked(conf, "SWH_LOCATION", s.location)),
      Text.Trim(Picked(conf, "SWH_CREDENTIALS_FILE", "")),
      Text.Trim(Picked(conf, "SWH_AUTH_TOKEN", "")))
  }

  /** The first loop of LoadConfiguration: over the fields in any order, writing
      through to the field each key names. */
  method PickAll(start: Resolved, conf: Values) returns (r: Resolved)
    ensures forall f: Field :: f.Of(r) == Picked(Some(conf), f.Key(), f.Of(start))
  {
    r := start;
    var rest: set<Field> := set f | f in FIELDS;
    forall f: Field ensures f in rest {
      EveryFieldListed(f);
    }
    while rest != {}
      invariant forall f: Field ::
          f.Of(r) == if f in rest then f.Of(start) else Picked(Some(conf), f.Key(), f.Of(start))
      decreases rest
    {
      var f :| f in rest;
      if f.Key() in conf && conf[f.Key()] != "" {
        r := f.Put(r, conf[f.Key()]);
      }
      rest := rest - {f};
    }
  }

  /** The second: every field is trimmed where it enters. */
  method TrimAll(start: Resolved) returns (r: Resolved)
    ensures forall f: Field :: f.Of(r) == Text.Trim(f.Of(start))
  {
    hide Text.Trim;
    r := start;
    for i := 0 to |FIELDS|
      invariant forall f: Field :: f.Of(r) == if f in FIELDS[..i] then Text.Trim(f.Of(start)) else f.Of(start)
    {
      var f := FIELDS[i];
      assert FIELDS[..i + 1] == FIELDS[..i] + [f];
      FieldsListedOnce(i);
      r := f.Put(r, Text.Trim(f.Of(r)));
    }
    forall f: Field ensures f.Of(r) == Text.Trim(f.Of(start)) {
      EveryFieldListed(f);
    }
  }

  method Resolve(s: Settings, conf: Option<Values>) returns (r: Resolved)
    ensures r == Effective(s, conf)
  {
    hide Text.Trim;
    r := FromSettings(s);
    if conf.Some? {
      r := PickAll(r, conf.value);
    }
    r := TrimAll(r);
    assert r ==
           Resolved(Backend.Of(r), Database.Of(r), Dataset.Of(r), Location.Of(r),
                    CredentialsFile.Of(r), AuthToken.Of(r));
  }

  lemma FieldsListedOnce(i: nat)
    requires i < |FIELDS|
    ensures FIELDS[i] !in FIELDS[..i]
  {
  }

  lemma EveryFieldListed(f: Field)
    ensures f in FIELDS && f in FIELDS[..|FIELDS|]
  {
    assert FIELDS[0] == Backend && FIELDS[1] == Database && FIELDS[2] == Dataset;
    assert FIELDS[3] == Location && FIELDS[4] == CredentialsFile && FIELDS[5] == AuthToken;
    assert FIELDS[..|FIELDS|] == FIELDS;
  }

  /** What one field comes to, said of the configuration itself. */
  predicate ComesTo(conf: Option<Values>, key: string, setting: string, effective: string) {
    && (conf.Some? && key in conf.value && conf.value[key] != "" ==> effective == Text.Trim(conf.value[key]))
    && (conf == None || key !in conf.value || conf.value[key] == "" ==> effective == Text.Trim(setting))
  }

  /** Each field takes the runtime value under its own key, whatever its setting, and
      its own setting where there is none; the file and the token have no setting. */
  lemma RuntimeValueWins(s: Settings, conf: Option<Values>)
    ensures var r := Effective(s, conf);
            && ComesTo(conf, "SWH_BACKEND", s.backend, r.backend)
            && ComesTo(conf, "SWH_DATABASE", s.database, r.database)
            && ComesTo(conf, "SWH_DATASET", s.dataset, r.dataset)
            && ComesTo(conf, "SWH_LOCATION", s.location, r.location)
            && ComesTo(conf, "SWH_CREDENTIALS_FILE", "", r.credentialsFile)
            && ComesTo(conf, "SWH_AUTH_TOKEN", "", r.authToken)
  {
    hide Text.Trim;
  }

  /** Every effective value has no space at its ends, so trimming it again, at
      the gateway, changes nothing. */
  lemma EffectiveIsTrimmed(s: Settings, conf: Option<Values>, f: Field)
    ensures Text.Trimmed(f.Of(Effective(s, conf))) && Text.Trim(f.Of(Effective(s, conf))) == f.Of(Effective(s, conf))
  {
    var raw := Picked(conf, f.Key(), f.Of(FromSettings(s)));
    assert f.Of(Effective(s, conf)) == Text.Trim(raw);
    Text.TrimIsIdentityOnTrimmed(raw);
    Text.TrimIsIdentityOnTrimmed(Text.Trim(raw));
  }

  /** A field is left to the gateway exactly when the value picked for it is
      blank; so a runtime value of nothing but space hides a setting. */
  lemma BlankIsLeftToGateway(s: Settings, conf: Option<Values>, f: Field)
    ensures f.Of(Effective(s, conf)) == "" <==> Text.AllSpace(Picked(conf, f.Key(), f.Of(FromSettings(s))))
  {
    var raw := Picked(conf, f.Key(), f.Of(FromSettings(s)));
    assert f.Of(Effective(s, conf)) == Text.Trim(raw);
    Text.BlankTrimsToNothing(raw);
  }

  // --- The gateway's container ---

  /** The port the gateway listens on inside its container. */
  const CONTAINER_PORT := "9465"

  const LISTEN := ":" + CONTAINER_PORT

  /** The variables a field is handed over in; an empty one is not passed. */
  function With(env: Env, key: string, value: string): Env {
    if value == "" then env else env[key := value]
  }

  function ContainerEnv(r: Resolved, token: string): Env {
    With(With(With(With(map["SWH_LISTEN" := LISTEN, "SWH_AUTH_TOKEN" := token],
                        "SWH_BACKEND", r.backend), "SWH_DATABASE", r.database),
              "SWH_DATASET", r.dataset), "SWH_LOCATION", r.location)
  }

  /** The loop of startGateway that collects the variables. */
  method BuildEnv(r: Resolved, token: string) returns (env: Env)
    ensures env == ContainerEnv(r, token)
  {
    env := map["SWH_LISTEN" := LISTEN, "SWH_AUTH_TOKEN" := token];
    var passed := [("SWH_BACKEND", r.backend), ("SWH_DATABASE", r.database),
                   ("SWH_DATASET", r.dataset), ("SWH_LOCATION", r.location)];
    ghost var start := env;
    for i := 0 to 4
      invariant env == WithAll(start, passed[..i])
    {
      if passed[i].1 != "" {
        env := env[passed[i].0 := passed[i].1];
      }
      assert passed[..i + 1][..i] == passed[..i];
    }
    FourVariables(start, passed);
  }

  function WithAll(env: Env, passed: seq<(string, string)>): Env {
    if |passed| == 0 then env
    else With(WithAll(env, passed[..|passed| - 1]), passed[|passed| - 1].0, passed[|passed| - 1].1)
  }

  lemma FourVariables(env: Env, p: seq<(string, string)>)
    requires |p| == 4
    ensures WithAll(env, p) ==
            With(With(With(With(env, p[0].0, p[0].1), p[1].0, p[1].1), p[2].0, p[2].1), p[3].0, p[3].1)
    ensures WithAll(env, p[..4]) == WithAll(env, p)
  {
    assert p[..4] == p;
    assert p[..3][..2] == p[..2] && p[..2][..1] == p[..1] && p[..1][..0] == [];
    assert WithAll(env, p[..1]) == With(env, p[0].0, p[0].1);
    assert WithAll(env, p[..2]) == With(WithAll(env, p[..1]), p[1].0, p[1].1);
    assert WithAll(env, p[..3]) == With(WithAll(env, p[..2]), p[2].0, p[2].1);
  }

  /** The variables passed, told apart by length or fifth character. */
  lemma NamesDiffer(key: string)
    requires |key| > 4
    ensures |key| != 10 ==> key != "SWH_LISTEN"
    ensures |key| != 14 ==> key != "SWH_AUTH_TOKEN"
    ensures |key| != 11 || key[4] != 'B' ==> key != "SWH_BACKEND"
    ensures |key| != 11 || key[4] != 'D' ==> key != "SWH_DATASET"
    ensures |key| != 12 || key[4] != 'D' ==> key != "SWH_DATABASE"
    ensures |key| != 12 || key[4] != 'L' ==> key != "SWH_LOCATION"
  {
    assert "SWH_BACKEND"[4] == 'B' && "SWH_DATASET"[4] == 'D' && "SWH_DATABASE"[4] == 'D' && "SWH_LOCATION"[4] == 'L';
  }

  /** A variable of the container holds what was passed, and any other key that
      differs from all of them is unset. */
  lemma PassedVariables(r: Resolved, token: string)
    ensures var env := ContainerEnv(r, token);
            && Getenv(env, "SWH_LISTEN") == LISTEN
            && Getenv(env, "SWH_AUTH_TOKEN") == token
            && Getenv(env, "SWH_BACKEND") == r.backend
            && Getenv(env, "SWH_DATABASE") == r.database
            && Getenv(env, "SWH_DATASET") == r.dataset
            && Getenv(env, "SWH_LOCATION") == r.location
  {
    NamesDiffer("SWH_LISTEN");
    NamesDiffer("SWH_AUTH_TOKEN");
    NamesDiffer("SWH_BACKEND");
    NamesDiffer("SWH_DATABASE");
    NamesDiffer("SWH_DATASET");
    NamesDiffer("SWH_LOCATION");
  }

  /** No other variable is passed, and none that is empty but for the token. */
  lemma NothingElsePassed(r: Resolved, token: string)
    ensures var env := ContainerEnv(r, token);
            && env.Keys <= {"SWH_LISTEN", "SWH_AUTH_TOKEN",
                            "SWH_BACKEND", "SWH_DATABASE", "SWH_DATASET", "SWH_LOCATION"}
            && (token != "" ==> forall key :: key in env ==> env[key] != "")
  {
  }

  lemma UnpassedVariable(r: Resolved, token: string, key: string)
    requires |key| > 4 && |key| !in {10, 11, 12, 14}
    ensures Getenv(ContainerEnv(r, token), key) == ""
  {
    NamesDiffer(key);
  }

  /** What the gateway resolves from the container the agent starts: never a
      fault about the token, the very token enforced, and each setting as the
      agent resolved it, an omitted backend being the gateway's default. */
  lemma GatewayReadsWhatAgentPassed(r: Resolved, token: string, registry: Registry, parse: DurationParser)
    requires token != "" && Text.Trim(token) == token
    ensures var resolved := FromEnv(ContainerEnv(r, token), registry, parse);
            var kind := if r.backend == "" then "duckdb" else r.backend;
            if kind in registry && (registry[kind] || r.database != "") then
              && resolved.Success?
              && resolved.value.listenAddr == LISTEN
              && resolved.value.authToken == token
              && resolved.value.backend.kind == kind
              && resolved.value.backend.database == r.database
              && resolved.value.backend.defaultDataset == r.dataset
              && resolved.value.backend.location == r.location
            else
              resolved.Failure? && !AboutToken(resolved.error)
  {
    PassedVariables(r, token);
    UnpassedVariable(r, token, "SWH_PORT");
    UnpassedVariable(r, token, "SWH_MAX_QUERY_BYTES");
    UnpassedVariable(r, token, "SWH_QUERY_TIMEOUT");
    UnpassedVariable(r, token, "SWH_DSN");
    UnpassedVariable(r, token, "SWH_ALLOW_ANONYMOUS");
    hide Getenv, ContainerEnv, Text.Trim;
  }
}
