/** The gateway's own configuration, resolved from its environment. */
module GatewayConfig {
  import opened Wrappers
  import Text

  type Env = map<string, string>

  /** A registered backend kind and whether it is self-contained. */
  type Registry = map<string, bool>

  /** time.ParseDuration, in nanoseconds; what it accepts is not modelled. */
  type DurationParser = string -> Option<int>

  datatype BackendConfig = BackendConfig(
    kind: string,
    database: string,
    defaultDataset: string,
    location: string,
    dsn: string,
    host: string,
    port: int,
    user: string,
    password: string,
    account: string,
    credentialsFile: string,
    maxQueryBytes: int,
    queryTimeout: int)

  datatype Config = Config(listenAddr: string, backend: BackendConfig, authToken: string)

  datatype Fault =
    | NotAnInteger(key: string, value: string)
    | NotADuration(key: string, value: string)
    | NegativeLimit(key: string, limit: int)
    | UnknownKind(kind: string)
    | DatabaseRequired(kind: string)
    | NotABoolean(key: string, value: string)
    | TokenRequired
    | TokenAndAnonymous

  /** os.Getenv: an unset variable reads as empty. */
  function Getenv(env: Env, key: string): string {
    if key in env then env[key] else ""
  }

  function EnvOr(env: Env, key: string, def: string): string {
    if Getenv(env, key) != "" then Getenv(env, key) else def
  }

  function EnvInt(env: Env, key: string): Result<int, Fault> {
    var v := Getenv(env, key);
    if v == "" then Success(0)
    else
      match Text.ParseInt(v)
      case Some(n) => Success(n)
      case None => Failure(NotAnInteger(key, v))
  }

  function EnvDuration(env: Env, key: string, parse: DurationParser): Result<int, Fault> {
    var v := Getenv(env, key);
    if v == "" then Success(0)
    else
      match parse(v)
      case Some(d) => Success(d)
      case None => Failure(NotADuration(key, v))
  }

  function EnvBool(env: Env, key: string): Result<bool, Fault> {
    var v := Getenv(env, key);
    if v == "" then Success(false)
    else
      match Text.ParseBool(v)
      case Some(b) => Success(b)
      case None => Failure(NotABoolean(key, v))
  }

  /** The listener takes a token or an explicit opt-out, and not both. */
  function CheckListener(token: string, anonymous: bool): Option<Fault> {
    if token == "" && !anonymous then Some(TokenRequired)
    else if token != "" && anonymous then Some(TokenAndAnonymous)
    else None
  }

  function CheckAuthenticated(env: Env, token: string): Option<Fault> {
    match EnvBool(env, "SWH_ALLOW_ANONYMOUS")
    case Failure(fault) => Some(fault)
    case Success(anonymous) => CheckListener(token, anonymous)
  }

  /** The limits, in the order they are read. */
  function Limits(env: Env, parse: DurationParser): Result<(int, int, int), Fault> {
    match EnvInt(env, "SWH_PORT")
    case Failure(fault) => Failure(fault)
    case Success(port) =>
      match EnvInt(env, "SWH_MAX_QUERY_BYTES")
      case Failure(fault) => Failure(fault)
      case Success(maxQueryBytes) =>
        match EnvDuration(env, "SWH_QUERY_TIMEOUT", parse)
        case Failure(fault) => Failure(fault)
        case Success(queryTimeout) =>
          if maxQueryBytes < 0 then Failure(NegativeLimit("SWH_MAX_QUERY_BYTES", maxQueryBytes))
          else if queryTimeout < 0 then Failure(NegativeLimit("SWH_QUERY_TIMEOUT", queryTimeout))
          else Success((port, maxQueryBytes, queryTimeout))
  }

  /** All that is settled before the listener's token is looked at. */
  function ResolveBackend(env: Env, registry: Registry, parse: DurationParser): Result<BackendConfig, Fault> {
    match Limits(env, parse)
    case Failure(fault) => Failure(fault)
    case Success((port, maxQueryBytes, queryTimeout)) =>
      var cfg := BackendConfig(
        EnvOr(env, "SWH_BACKEND", "duckdb"), Getenv(env, "SWH_DATABASE"), Getenv(env, "SWH_DATASET"),
        Getenv(env, "SWH_LOCATION"), Getenv(env, "SWH_DSN"), Getenv(env, "SWH_HOST"), port,
        Getenv(env, "SWH_USER"), Getenv(env, "SWH_PASSWORD"), Getenv(env, "SWH_ACCOUNT"),
        Getenv(env, "SWH_CREDENTIALS_FILE"), maxQueryBytes, queryTimeout);
      if cfg.kind !in registry then Failure(UnknownKind(cfg.kind))
      else if !registry[cfg.kind] && cfg.database == "" && cfg.dsn == "" then Failure(DatabaseRequired(cfg.kind))
      else Success(cfg)
  }

  function FromEnv(env: Env, registry: Registry, parse: DurationParser): Result<Config, Fault> {
    match ResolveBackend(env, registry, parse)
    case Failure(fault) => Failure(fault)
    case Success(backend) =>
      var token := Text.Trim(Getenv(env, "SWH_AUTH_TOKEN"));
      match CheckAuthenticated(env, token)
      case Some(fault) => Failure(fault)
      case None => Success(Config(EnvOr(env, "SWH_LISTEN", ":9465"), backend, token))
  }

  // --- What a resolved configuration guarantees ---

  /** A fault about who may call, as against what to serve. */
  predicate AboutToken(fault: Fault) {
    fault.NotABoolean? || fault.TokenRequired? || fault.TokenAndAnonymous?
  }

  /** Two environments that may differ in the listener's own variables only. */
  predicate SameBackend(a: Env, b: Env) {
    && Getenv(a, "SWH_PORT") == Getenv(b, "SWH_PORT")
    && Getenv(a, "SWH_MAX_QUERY_BYTES") == Getenv(b, "SWH_MAX_QUERY_BYTES")
    && Getenv(a, "SWH_QUERY_TIMEOUT") == Getenv(b, "SWH_QUERY_TIMEOUT")
    && Getenv(a, "SWH_BACKEND") == Getenv(b, "SWH_BACKEND")
    && Getenv(a, "SWH_DATABASE") == Getenv(b, "SWH_DATABASE")
    && Getenv(a, "SWH_DATASET") == Getenv(b, "SWH_DATASET")
    && Getenv(a, "SWH_LOCATION") == Getenv(b, "SWH_LOCATION")
    && Getenv(a, "SWH_DSN") == Getenv(b, "SWH_DSN")
    && Getenv(a, "SWH_HOST") == Getenv(b, "SWH_HOST")
    && Getenv(a, "SWH_USER") == Getenv(b, "SWH_USER")
    && Getenv(a, "SWH_PASSWORD") == Getenv(b, "SWH_PASSWORD")
    && Getenv(a, "SWH_ACCOUNT") == Getenv(b, "SWH_ACCOUNT")
    && Getenv(a, "SWH_CREDENTIALS_FILE") == Getenv(b, "SWH_CREDENTIALS_FILE")
  }

  /** No limit is ever negative, and a byte limit of zero, which backends spend
      as their default, comes only of a variable that is unset or says zero. */
  lemma LimitsAreMeant(env: Env, registry: Registry, parse: DurationParser)
    requires FromEnv(env, registry, parse).Success?
    ensures var cfg := FromEnv(env, registry, parse).value.backend;
            && cfg.maxQueryBytes >= 0 && cfg.queryTimeout >= 0
            && (cfg.maxQueryBytes == 0 <==>
                  var v := Getenv(env, "SWH_MAX_QUERY_BYTES"); v == "" || Text.AllZeros(Text.Unsigned(v)))
            && cfg.kind in registry
            && (registry[cfg.kind] || cfg.database != "" || cfg.dsn != "")
  {
    Text.ParsesToZero(Getenv(env, "SWH_MAX_QUERY_BYTES"));
  }

  /** The one fault an environment reports is about the backend whenever the
      backend has one: changing the listener's variables cannot change it, and
      a fault about the token means that a token alone would have been enough. */
  lemma BackendFaultsComeFirst(env: Env, other: Env, registry: Registry, parse: DurationParser)
    requires SameBackend(env, other)
    requires FromEnv(env, registry, parse).Failure?
    ensures !AboutToken(FromEnv(env, registry, parse).error) ==>
              FromEnv(other, registry, parse) == FromEnv(env, registry, parse)
    ensures AboutToken(FromEnv(env, registry, parse).error) ==>
              (FromEnv(other, registry, parse).Success? <==>
               CheckAuthenticated(other, Text.Trim(Getenv(other, "SWH_AUTH_TOKEN"))) == None)
  {
    BackendIgnoresListener(env, other, registry, parse);
    hide ResolveBackend;
  }

  /** Nothing about the backend is read from the listener's variables. */
  lemma BackendIgnoresListener(env: Env, other: Env, registry: Registry, parse: DurationParser)
    requires SameBackend(env, other)
    ensures ResolveBackend(env, registry, parse) == ResolveBackend(other, registry, parse)
    ensures var backend := ResolveBackend(env, registry, parse);
            backend.Failure? ==> !AboutToken(backend.error)
  {
    LimitsIgnoreListener(env, other, parse);
    hide Limits, Getenv;
  }

  lemma LimitsIgnoreListener(env: Env, other: Env, parse: DurationParser)
    requires Getenv(env, "SWH_PORT") == Getenv(other, "SWH_PORT")
    requires Getenv(env, "SWH_MAX_QUERY_BYTES") == Getenv(other, "SWH_MAX_QUERY_BYTES")
    requires Getenv(env, "SWH_QUERY_TIMEOUT") == Getenv(other, "SWH_QUERY_TIMEOUT")
    ensures Limits(env, parse) == Limits(other, parse)
    ensures Limits(env, parse).Failure? ==> !AboutToken(Limits(env, parse).error)
  {
  }

  /** A listener is open to callers with no token only by explicit request, and
      an enforced token is one a client can send: it has no space at its ends. */
  lemma ListenerIsAuthenticatedOrOptedOut(env: Env, registry: Registry, parse: DurationParser)
    requires FromEnv(env, registry, parse).Success?
    ensures var token := FromEnv(env, registry, parse).value.authToken;
            && (token == "" <==> Text.ParseBool(Getenv(env, "SWH_ALLOW_ANONYMOUS")) == Some(true))
            && Text.Trimmed(token)
  {
    var before, after := Text.TrimSplits(Getenv(env, "SWH_AUTH_TOKEN"));
  }

  // --- Exactly what is accepted, and as what ---

  /** A variable that is unset or a 64-bit integer. */
  predicate IntegerOrUnset(env: Env, key: string) {
    key !in env || env[key] == "" || Text.ParseInt(env[key]).Some?
  }

  /** The integer it stands for. */
  function IntegerOf(env: Env, key: string): int
    requires IntegerOrUnset(env, key)
  {
    if key !in env || env[key] == "" then 0 else Text.ParseInt(env[key]).value
  }

  predicate DurationOrUnset(env: Env, key: string, parse: DurationParser) {
    key !in env || env[key] == "" || parse(env[key]).Some?
  }

  function DurationOf(env: Env, key: string, parse: DurationParser): int
    requires DurationOrUnset(env, key, parse)
  {
    if key !in env || env[key] == "" then 0 else parse(env[key]).value
  }

  predicate Set(env: Env, key: string) {
    key in env && env[key] != ""
  }

  /** Every variable that holds a number or a duration holds one, and no limit is
      negative. */
  predicate LimitsAreSound(env: Env, parse: DurationParser) {
    && IntegerOrUnset(env, "SWH_PORT") && IntegerOrUnset(env, "SWH_MAX_QUERY_BYTES")
    && DurationOrUnset(env, "SWH_QUERY_TIMEOUT", parse)
    && IntegerOf(env, "SWH_MAX_QUERY_BYTES") >= 0 && DurationOf(env, "SWH_QUERY_TIMEOUT", parse) >= 0
  }

  /** The kind is registered and has a database or a connection string if it needs
      one; DuckDB is meant where no kind is named. */
  predicate BackendIsKnown(env: Env, registry: Registry) {
    var kind := if Set(env, "SWH_BACKEND") then env["SWH_BACKEND"] else "duckdb";
    kind in registry && (registry[kind] || Set(env, "SWH_DATABASE") || Set(env, "SWH_DSN"))
  }

  /** A token or an explicit opt-out, and not both. */
  predicate CallersAreSettled(env: Env) {
    var token := "SWH_AUTH_TOKEN" in env && !Text.AllSpace(env["SWH_AUTH_TOKEN"]);
    if Set(env, "SWH_ALLOW_ANONYMOUS") then
      Text.ParseBool(env["SWH_ALLOW_ANONYMOUS"]) == Some(!token)
    else
      token
  }

  lemma GetenvTells(env: Env, key: string)
    ensures Getenv(env, key) == (if key in env then env[key] else "")
    ensures Getenv(env, key) != "" <==> Set(env, key)
  {
  }

  lemma LimitsExactly(env: Env, parse: DurationParser)
    ensures Limits(env, parse).Success? <==> LimitsAreSound(env, parse)
    ensures LimitsAreSound(env, parse) ==>
              Limits(env, parse).value ==
              (IntegerOf(env, "SWH_PORT"), IntegerOf(env, "SWH_MAX_QUERY_BYTES"),
               DurationOf(env, "SWH_QUERY_TIMEOUT", parse))
  {
    hide Text.ParseInt;
  }

  lemma CallersExactly(env: Env)
    ensures CheckAuthenticated(env, Text.Trim(Getenv(env, "SWH_AUTH_TOKEN"))) == None <==> CallersAreSettled(env)
  {
    Text.BlankTrimsToNothing(Getenv(env, "SWH_AUTH_TOKEN"));
    hide Text.ParseBool, Text.Trim;
  }

  lemma BackendExactly(env: Env, registry: Registry, parse: DurationParser)
    ensures ResolveBackend(env, registry, parse).Success? <==>
            LimitsAreSound(env, parse) && BackendIsKnown(env, registry)
    ensures ResolveBackend(env, registry, parse).Success? ==>
              var cfg := ResolveBackend(env, registry, parse).value;
              && cfg.kind == (if Set(env, "SWH_BACKEND") then env["SWH_BACKEND"] else "duckdb")
              && cfg.database == Getenv(env, "SWH_DATABASE") && cfg.defaultDataset == Getenv(env, "SWH_DATASET")
              && cfg.location == Getenv(env, "SWH_LOCATION") && cfg.dsn == Getenv(env, "SWH_DSN")
              && cfg.host == Getenv(env, "SWH_HOST") && cfg.user == Getenv(env, "SWH_USER")
              && cfg.password == Getenv(env, "SWH_PASSWORD") && cfg.account == Getenv(env, "SWH_ACCOUNT")
              && cfg.credentialsFile == Getenv(env, "SWH_CREDENTIALS_FILE")
              && cfg.port == IntegerOf(env, "SWH_PORT")
              && cfg.maxQueryBytes == IntegerOf(env, "SWH_MAX_QUERY_BYTES")
              && cfg.queryTimeout == DurationOf(env, "SWH_QUERY_TIMEOUT", parse)
  {
    LimitsExactly(env, parse);
    GetenvTells(env, "SWH_BACKEND");
    GetenvTells(env, "SWH_DATABASE");
    GetenvTells(env, "SWH_DSN");
    hide Limits, Getenv, LimitsAreSound;
  }

  /** An environment resolves if and only if its limits are sound, its backend known
      and its callers settled; then every field is its own variable's value, the
      token without the space around it. */
  lemma FromEnvExactly(env: Env, registry: Registry, parse: DurationParser)
    ensures var resolved := FromEnv(env, registry, parse);
            && (resolved.Success? <==>
                  LimitsAreSound(env, parse) && BackendIsKnown(env, registry) && CallersAreSettled(env))
            && (resolved.Success? ==>
                  && resolved.value.listenAddr == (if Set(env, "SWH_LISTEN") then env["SWH_LISTEN"] else ":9465")
                  && resolved.value.authToken == Text.Trim(Getenv(env, "SWH_AUTH_TOKEN"))
                  && ResolveBackend(env, registry, parse) == Success(resolved.value.backend))
  {
    BackendExactly(env, registry, parse);
    CallersExactly(env);
    GetenvTells(env, "SWH_LISTEN");
    hide ResolveBackend, CheckAuthenticated, Getenv, LimitsAreSound, BackendIsKnown, CallersAreSettled, Text.Trim;
  }

  /** A fault that an environment has, whatever others it has beside. */
  predicate Has(env: Env, registry: Registry, parse: DurationParser, fault: Fault) {
    match fault
    case NotAnInteger(key, value) =>
      key in {"SWH_PORT", "SWH_MAX_QUERY_BYTES"} && !IntegerOrUnset(env, key) && env[key] == value
    case NotADuration(key, value) =>
      key == "SWH_QUERY_TIMEOUT" && !DurationOrUnset(env, key, parse) && env[key] == value
    case NegativeLimit(key, limit) =>
      && limit < 0
      && if key == "SWH_MAX_QUERY_BYTES" then IntegerOrUnset(env, key) && IntegerOf(env, key) == limit
         else && key == "SWH_QUERY_TIMEOUT" && DurationOrUnset(env, key, parse)
              && DurationOf(env, key, parse) == limit
    case UnknownKind(kind) =>
      kind !in registry && kind == if Set(env, "SWH_BACKEND") then env["SWH_BACKEND"] else "duckdb"
    case DatabaseRequired(kind) =>
      && kind in registry && !registry[kind] && !Set(env, "SWH_DATABASE") && !Set(env, "SWH_DSN")
      && kind == if Set(env, "SWH_BACKEND") then env["SWH_BACKEND"] else "duckdb"
    case NotABoolean(key, value) =>
      key == "SWH_ALLOW_ANONYMOUS" && Set(env, key) && env[key] == value && Text.ParseBool(value) == None
    case TokenRequired =>
      && Text.AllSpace(Getenv(env, "SWH_AUTH_TOKEN"))
      && Text.ParseBool(Getenv(env, "SWH_ALLOW_ANONYMOUS")) != Some(true)
    case TokenAndAnonymous =>
      && !Text.AllSpace(Getenv(env, "SWH_AUTH_TOKEN"))
      && Text.ParseBool(Getenv(env, "SWH_ALLOW_ANONYMOUS")) == Some(true)
  }

  /** The order in which faults are looked for. */
  function Turn(fault: Fault): nat {
    match fault
    case NotAnInteger(key, _) => if key == "SWH_PORT" then 0 else 1
    case NotADuration(_, _) => 2
    case NegativeLimit(key, _) => if key == "SWH_MAX_QUERY_BYTES" then 3 else 4
    case UnknownKind(_) => 5
    case DatabaseRequired(_) => 6
    case NotABoolean(_, _) => 7
    case TokenRequired => 8
    case TokenAndAnonymous => 9
  }

  lemma ReportedFaultIsThere(env: Env, registry: Registry, parse: DurationParser)
    requires FromEnv(env, registry, parse).Failure?
    ensures Has(env, registry, parse, FromEnv(env, registry, parse).error)
  {
    Text.BlankTrimsToNothing(Getenv(env, "SWH_AUTH_TOKEN"));
    hide Text.ParseInt, Text.Trim;
  }

  lemma NoEarlierFault(env: Env, registry: Registry, parse: DurationParser, other: Fault)
    requires FromEnv(env, registry, parse).Failure? && Has(env, registry, parse, other)
    ensures Turn(FromEnv(env, registry, parse).error) <= Turn(other)
  {
    Text.BlankTrimsToNothing(Getenv(env, "SWH_AUTH_TOKEN"));
    hide Text.ParseInt, Text.Trim, Text.ParseBool;
  }

  /** The one fault reported is a fault the environment has, and it has none that is
      looked for earlier. */
  lemma FirstFaultIsReported(env: Env, registry: Registry, parse: DurationParser, other: Fault)
    requires FromEnv(env, registry, parse).Failure?
    ensures var fault := FromEnv(env, registry, parse).error;
            && Has(env, registry, parse, fault)
            && (Has(env, registry, parse, other) ==> Turn(fault) <= Turn(other))
  {
    ReportedFaultIsThere(env, registry, parse);
    if Has(env, registry, parse, other) {
      NoEarlierFault(env, registry, parse, other);
    }
  }
}
