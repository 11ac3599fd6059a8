/** What Deploy accepts, in the order it checks, and what an accepted request is
    guaranteed to render. */
module Deployment {
  import opened Wrappers
  import opened AgentSettings
  import opened Manifest
  import Ordering
  import Text

  const ANONYMOUS_KEY := "SWH_ALLOW_ANONYMOUS"
  const ANONYMOUS_SUFFIX := "__SWH_ALLOW_ANONYMOUS"
  const TOKEN_KEY := "SWH_AUTH_TOKEN"

  /** The keys of one runtime configuration, group by group. */
  type ConfigurationKeys = seq<seq<string>>

  /** `managed` is what the environment manager holds, or nothing when asking it
      fails; `servicePort` likewise. */
  datatype DeployRequest = DeployRequest(
    imagePublished: bool,
    configuration: Option<Values>,
    ownKeys: ConfigurationKeys,
    dependencyKeys: seq<ConfigurationKeys>,
    managed: Option<seq<string>>,
    servicePort: Option<nat>,
    secretRefs: SecretRefs)

  datatype Obstacle =
    | NoImage
    | ReservedKey
    | ManagerFailed
    | NoServicePort
    | Unrenderable(name: string)
    | CredentialsFileRefused
    | LiteralToken
    | NoTokenReference

  datatype Deployed =
    Refused(obstacle: Obstacle) | Rendered(parameters: Parameters, servicePort: nat, secretRefs: SecretRefs)

  predicate HasSuffix(s: string, suffix: string) {
    |suffix| <= |s| && s[|s| - |suffix|..] == suffix
  }

  predicate Reserved(key: string) {
    key == ANONYMOUS_KEY || HasSuffix(key, ANONYMOUS_SUFFIX)
  }

  /** The class ^[A-Za-z0-9._:/@-]*$, matched against the whole value. */
  predicate IsRenderedChar(c: char) {
    'A' <= c <= 'Z' || 'a' <= c <= 'z' || '0' <= c <= '9' || c in "._:/@-"
  }

  predicate RenderedValue(v: string) {
    forall c :: c in v ==> IsRenderedChar(c)
  }

  predicate ReservedIn(keys: seq<string>) {
    exists i :: 0 <= i < |keys| && Reserved(keys[i])
  }

  predicate ReservedInConfiguration(groups: ConfigurationKeys) {
    exists g :: 0 <= g < |groups| && ReservedIn(groups[g])
  }

  predicate ReservedAnywhere(refs: SecretRefs, configurations: seq<ConfigurationKeys>) {
    (exists key :: key in refs && Reserved(key)) ||
    (exists c :: 0 <= c < |configurations| && ReservedInConfiguration(configurations[c]))
  }

  /** rejectAnonymousDeploymentConfiguration, as what it finds. */
  function AnonymousObstacle(req: DeployRequest): Option<Obstacle> {
    if ReservedAnywhere(req.secretRefs, [req.ownKeys] + req.dependencyKeys) then Some(ReservedKey)
    else if req.managed.None? then Some(ManagerFailed)
    else if ReservedIn(req.managed.value) then Some(ReservedKey)
    else None
  }

  predicate NamesToken(refs: SecretRefs) {
    TOKEN_KEY in refs && refs[TOKEN_KEY].name != "" && refs[TOKEN_KEY].key != ""
  }

  /** The first thing in the way of a deployment, if any. */
  function FirstObstacle(conf: Resolved, req: DeployRequest): Option<Obstacle> {
    if !req.imagePublished then Some(NoImage)
    else if AnonymousObstacle(req).Some? then AnonymousObstacle(req)
    else if req.servicePort.None? then Some(NoServicePort)
    else if !RenderedValue(conf.backend) then Some(Unrenderable("SWH_BACKEND"))
    else if !RenderedValue(conf.database) then Some(Unrenderable("SWH_DATABASE"))
    else if !RenderedValue(conf.dataset) then Some(Unrenderable("SWH_DATASET"))
    else if !RenderedValue(conf.location) then Some(Unrenderable("SWH_LOCATION"))
    else if conf.credentialsFile != "" then Some(CredentialsFileRefused)
    else if conf.authToken != "" then Some(LiteralToken)
    else if !NamesToken(req.secretRefs) then Some(NoTokenReference)
    else None
  }

  function ParametersOf(conf: Resolved): Parameters {
    Parameters(conf.backend, conf.database, conf.dataset, conf.location)
  }

  /** The Go Builder. */
  class Builder {
    const settings: Settings
    var conf: Resolved

    constructor (settings: Settings)
      ensures this.settings == settings
    {
      this.settings := settings;
      conf := Resolved("", "", "", "", "", "");
    }

    method AnyReserved(keys: seq<string>) returns (found: bool)
      ensures found <==> ReservedIn(keys)
    {
      for i := 0 to |keys|
        invariant forall k :: 0 <= k < i ==> !Reserved(keys[k])
      {
        if Reserved(keys[i]) {
          return true;
        }
      }
      found := false;
    }

    method RejectAnonymous(req: DeployRequest) returns (found: Option<Obstacle>)
      ensures found == AnonymousObstacle(req)
    {
      var configurations := [req.ownKeys] + req.dependencyKeys;
      var rest := req.secretRefs.Keys;
      while rest != {}
        invariant rest <= req.secretRefs.Keys
        invariant forall key :: key in req.secretRefs && key !in rest ==> !Reserved(key)
        decreases rest
      {
        var key :| key in rest;
        if Reserved(key) {
          return Some(ReservedKey);
        }
        rest := rest - {key};
      }
      for c := 0 to |configurations|
        invariant forall k :: 0 <= k < c ==> !ReservedInConfiguration(configurations[k])
      {
        for g := 0 to |configurations[c]|
          invariant forall k :: 0 <= k < g ==> !ReservedIn(configurations[c][k])
        {
          var reserved := AnyReserved(configurations[c][g]);
          if reserved {
            return Some(ReservedKey);
          }
        }
      }
      if req.managed.None? {
        return Some(ManagerFailed);
      }
      var reserved := AnyReserved(req.managed.value);
      found := if reserved then Some(ReservedKey) else None;
    }

    /** Deploy, up to handing the template its parameters. */
    method Deploy(req: DeployRequest) returns (out: Deployed)
      modifies this
      ensures req.imagePublished ==> conf == Effective(settings, req.configuration)
      ensures out == match FirstObstacle(Effective(settings, req.configuration), req)
                     case Some(obstacle) => Refused(obstacle)
                     case None => Rendered(ParametersOf(conf), req.servicePort.value, req.secretRefs)
    {
      hide Effective;
      if !req.imagePublished {
        return Refused(NoImage);
      }
      conf := Resolve(settings, req.configuration);
      var found := RejectAnonymous(req);
      if found.Some? {
        return Refused(found.value);
      }
      if req.servicePort.None? {
        return Refused(NoServicePort);
      }
      var values := [("SWH_BACKEND", conf.backend), ("SWH_DATABASE", conf.database),
                     ("SWH_DATASET", conf.dataset), ("SWH_LOCATION", conf.location)];
      for i := 0 to 4
        invariant forall k :: 0 <= k < i ==> RenderedValue(values[k].1)
      {
        if !RenderedValue(values[i].1) {
          assert i > 0 ==> RenderedValue(values[0].1);
          assert i > 1 ==> RenderedValue(values[1].1);
          assert i > 2 ==> RenderedValue(values[2].1);
          return Refused(Unrenderable(values[i].0));
        }
      }
      assert RenderedValue(values[0].1) && RenderedValue(values[1].1) &&
             RenderedValue(values[2].1) && RenderedValue(values[3].1);
      if conf.credentialsFile != "" {
        return Refused(CredentialsFileRefused);
      }
      if conf.authToken != "" {
        return Refused(LiteralToken);
      }
      if !NamesToken(req.secretRefs) {
        return Refused(NoTokenReference);
      }
      out := Rendered(Parameters(conf.backend, conf.database, conf.dataset, conf.location),
                      req.servicePort.value, req.secretRefs);
    }
  }

  // --- Exactly what is accepted ---

  /** A key by which someone could ask for anonymous access, in any group. */
  predicate AsksForAnonymous(key: string) {
    key == "SWH_ALLOW_ANONYMOUS" || exists i :: 0 <= i <= |key| && key[i..] == "__SWH_ALLOW_ANONYMOUS"
  }

  /** Every key a deployment could bring, by whatever way. */
  predicate Brings(req: DeployRequest, key: string) {
    || key in req.secretRefs
    || (exists g :: 0 <= g < |req.ownKeys| && key in req.ownKeys[g])
    || (exists c, g :: 0 <= c < |req.dependencyKeys| && 0 <= g < |req.dependencyKeys[c]| &&
                       key in req.dependencyKeys[c][g])
    || (req.managed.Some? && key in req.managed.value)
  }

  /** A value of letters, digits and . _ : / @ - only. */
  predicate Renderable(v: string) {
    forall i :: 0 <= i < |v| ==>
      || 'a' <= v[i] <= 'z' || 'A' <= v[i] <= 'Z' || '0' <= v[i] <= '9'
      || v[i] == '.' || v[i] == '_' || v[i] == ':' || v[i] == '/' || v[i] == '@' || v[i] == '-'
  }

  lemma ReservedAsks(key: string)
    ensures Reserved(key) <==> AsksForAnonymous(key)
  {
    if i :| 0 <= i <= |key| && key[i..] == ANONYMOUS_SUFFIX {
      assert i == |key| - |ANONYMOUS_SUFFIX|;
    }
  }

  lemma NothingReserved(req: DeployRequest)
    ensures AnonymousObstacle(req) == None <==>
            req.managed.Some? && forall key :: Brings(req, key) ==> !Reserved(key)
  {
    if AnonymousObstacle(req) == None {
      forall key | Brings(req, key) ensures !Reserved(key) {
        if Reserved(key) {
          ReservedIsFound(req, key);
        }
      }
    } else if req.managed.Some? {
      var key := BroughtReserved(req);
    }
  }

  lemma ReservedIsFound(req: DeployRequest, key: string)
    requires Brings(req, key) && Reserved(key)
    ensures AnonymousObstacle(req) != None
  {
    hide Reserved;
    var all := [req.ownKeys] + req.dependencyKeys;
    if key in req.secretRefs {
    } else if g :| 0 <= g < |req.ownKeys| && key in req.ownKeys[g] {
      KeyIsIn(req.ownKeys[g], key);
      assert ReservedInConfiguration(all[0]);
    } else if c, g :| 0 <= c < |req.dependencyKeys| && 0 <= g < |req.dependencyKeys[c]| &&
                      key in req.dependencyKeys[c][g] {
      KeyIsIn(req.dependencyKeys[c][g], key);
      assert all[c + 1] == req.dependencyKeys[c] && ReservedInConfiguration(all[c + 1]);
    } else {
      KeyIsIn(req.managed.value, key);
    }
  }

  lemma KeyIsIn(keys: seq<string>, key: string)
    requires key in keys && Reserved(key)
    ensures ReservedIn(keys)
  {
    var k :| 0 <= k < |keys| && keys[k] == key;
  }

  lemma BroughtReserved(req: DeployRequest) returns (key: string)
    requires AnonymousObstacle(req) != None && req.managed.Some?
    ensures Brings(req, key) && Reserved(key)
  {
    hide Reserved;
    var all := [req.ownKeys] + req.dependencyKeys;
    if k :| k in req.secretRefs && Reserved(k) {
      key := k;
    } else if c :| 0 <= c < |all| && ReservedInConfiguration(all[c]) {
      var g :| 0 <= g < |all[c]| && ReservedIn(all[c][g]);
      var k :| 0 <= k < |all[c][g]| && Reserved(all[c][g][k]);
      key := all[c][g][k];
      if c == 0 {
        assert key in req.ownKeys[g];
      } else {
        assert all[c] == req.dependencyKeys[c - 1] && key in req.dependencyKeys[c - 1][g];
      }
    } else {
      var k :| 0 <= k < |req.managed.value| && Reserved(req.managed.value[k]);
      key := req.managed.value[k];
    }
  }

  lemma RenderedIsRenderable(v: string)
    ensures RenderedValue(v) <==> Renderable(v)
  {
    assert forall c :: c in "._:/@-" <==> c == '.' || c == '_' || c == ':' || c == '/' || c == '@' || c == '-';
    if RenderedValue(v) {
      forall i | 0 <= i < |v| ensures IsRenderedChar(v[i]) {
        assert v[i] in v;
      }
    }
  }

  /** A request is accepted if and only if its image is published and its port found,
      no key it brings by any way asks for anonymous access, every value it renders
      is renderable, it has neither a credentials file nor a literal token, and it
      names a secret for the token. */
  lemma AcceptedExactly(conf: Resolved, req: DeployRequest)
    ensures FirstObstacle(conf, req) == None <==>
            && req.imagePublished && req.servicePort.Some? && req.managed.Some?
            && (forall key :: Brings(req, key) ==> !AsksForAnonymous(key))
            && Renderable(conf.backend) && Renderable(conf.database)
            && Renderable(conf.dataset) && Renderable(conf.location)
            && conf.credentialsFile == "" && conf.authToken == ""
            && "SWH_AUTH_TOKEN" in req.secretRefs
            && req.secretRefs["SWH_AUTH_TOKEN"].name != "" && req.secretRefs["SWH_AUTH_TOKEN"].key != ""
  {
    NothingReserved(req);
    forall key ensures Reserved(key) <==> AsksForAnonymous(key) {
      ReservedAsks(key);
    }
    RenderedIsRenderable(conf.backend);
    RenderedIsRenderable(conf.database);
    RenderedIsRenderable(conf.dataset);
    RenderedIsRenderable(conf.location);
    hide AnonymousObstacle, Reserved, AsksForAnonymous, Brings, RenderedValue, Renderable;
  }

  /** An obstacle that a request has, whatever others it has beside. */
  ghost predicate Has(conf: Resolved, req: DeployRequest, obstacle: Obstacle) {
    match obstacle
    case NoImage => !req.imagePublished
    case ReservedKey => exists key :: Brings(req, key) && AsksForAnonymous(key)
    case ManagerFailed => req.managed == None
    case NoServicePort => req.servicePort == None
    case Unrenderable(name) =>
      || (name == "SWH_BACKEND" && !Renderable(conf.backend))
      || (name == "SWH_DATABASE" && !Renderable(conf.database))
      || (name == "SWH_DATASET" && !Renderable(conf.dataset))
      || (name == "SWH_LOCATION" && !Renderable(conf.location))
    case CredentialsFileRefused => conf.credentialsFile != ""
    case LiteralToken => conf.authToken != ""
    case NoTokenReference =>
      "SWH_AUTH_TOKEN" in req.secretRefs ==>
        req.secretRefs["SWH_AUTH_TOKEN"].name == "" || req.secretRefs["SWH_AUTH_TOKEN"].key == ""
  }

  /** The order in which obstacles are looked for; what the environment manager holds
      is looked at after the keys of the request itself. */
  function Turn(obstacle: Obstacle): nat {
    match obstacle
    case NoImage => 0
    case ReservedKey => 1
    case ManagerFailed => 2
    case NoServicePort => 3
    case Unrenderable(name) =>
      if name == "SWH_BACKEND" then 4
      else if name == "SWH_DATABASE" then 5
      else if name == "SWH_DATASET" then 6
      else 7
    case CredentialsFileRefused => 8
    case LiteralToken => 9
    case NoTokenReference => 10
  }

  /** The obstacle a refused request is told of is one it has, and it has none that
      is looked for earlier. */
  lemma FirstObstacleIsReported(conf: Resolved, req: DeployRequest, other: Obstacle)
    requires FirstObstacle(conf, req).Some?
    ensures var obstacle := FirstObstacle(conf, req).value;
            && Has(conf, req, obstacle)
            && (Has(conf, req, other) ==> Turn(obstacle) <= Turn(other))
  {
    AnonymousObstacleIsTrue(req);
    NoneMeansNotReserved(req);
    RenderedIsRenderable(conf.backend);
    RenderedIsRenderable(conf.database);
    RenderedIsRenderable(conf.dataset);
    RenderedIsRenderable(conf.location);
    hide AnonymousObstacle, AsksForAnonymous, Brings, RenderedValue, Renderable;
  }

  lemma NoneMeansNotReserved(req: DeployRequest)
    ensures AnonymousObstacle(req) == None ==>
              req.managed.Some? && forall key :: Brings(req, key) ==> !AsksForAnonymous(key)
  {
    NothingReserved(req);
    forall key ensures Reserved(key) <==> AsksForAnonymous(key) {
      ReservedAsks(key);
    }
    hide AnonymousObstacle, Reserved, AsksForAnonymous, Brings;
  }

  lemma AnonymousObstacleIsTrue(req: DeployRequest)
    ensures AnonymousObstacle(req) in {None, Some(ReservedKey), Some(ManagerFailed)}
    ensures AnonymousObstacle(req) == Some(ReservedKey) ==> exists key :: Brings(req, key) && AsksForAnonymous(key)
    ensures AnonymousObstacle(req) == Some(ManagerFailed) ==>
              req.managed == None && forall key :: Brings(req, key) ==> !AsksForAnonymous(key)
  {
    var asked := req.(managed := Some(if req.managed.Some? then req.managed.value else []));
    hide Reserved, AsksForAnonymous;
    if AnonymousObstacle(req) == Some(ReservedKey) {
      var key := BroughtReserved(asked);
      assert Brings(req, key);
      ReservedAsks(key);
    }
    if AnonymousObstacle(req) == Some(ManagerFailed) {
      NothingReserved(asked);
      forall key | Brings(req, key) ensures !AsksForAnonymous(key) {
        assert Brings(asked, key);
        ReservedAsks(key);
      }
    }
  }

  // --- What an accepted request renders ---

  /** Every value the class admits passes through the quotes and the line. */
  lemma RenderedValueIsSafe(v: string)
    requires RenderedValue(v)
    ensures Clean(v) && OneLine(v)
  {
    assert !IsRenderedChar('"') && !IsRenderedChar('\\') && !IsRenderedChar('\n');
  }

  /** What the gateway's container is meant to be given: its identity and listen
      address, each setting that is not empty, anonymous access off, and each
      secret reference. */
  predicate Meant(e: Entry, service: string, conf: Resolved, refs: SecretRefs) {
    match e
    case Literal(name, value) =>
      || (name == "CODEFLY__SERVICE" && value == service)
      || (name == "SWH_LISTEN" && value == LISTEN)
      || (name == "SWH_BACKEND" && value == conf.backend && value != "")
      || (name == "SWH_DATABASE" && value == conf.database && value != "")
      || (name == "SWH_DATASET" && value == conf.dataset && value != "")
      || (name == "SWH_LOCATION" && value == conf.location && value != "")
      || (name == ANONYMOUS_KEY && value == "false")
    case FromSecret(name, secret, key) =>
      name in refs && refs[name] == SecretRef(secret, key)
  }

  /** That and nothing else. */
  ghost predicate Delivers(entries: seq<Entry>, service: string, conf: Resolved, refs: SecretRefs) {
    forall e :: e in entries <==> Meant(e, service, conf, refs)
  }

  /** The listener of a deployed gateway asks for a token: anonymous access is
      off by the template's own literal and by nothing else, and the token comes
      of a secret and never of a literal. */
  ghost predicate Authenticated(entries: seq<Entry>) {
    && (forall e :: e in entries && e.name == ANONYMOUS_KEY <==> e == Literal(ANONYMOUS_KEY, "false"))
    && (exists e :: e in entries && e.name == TOKEN_KEY)
    && (forall e :: e in entries && e.name == TOKEN_KEY ==> e.FromSecret?)
  }

  lemma SecretMembers(keys: seq<string>, refs: SecretRefs, e: Entry)
    requires forall key :: key in keys ==> key in refs
    ensures e in Secrets(keys, refs) <==>
            e.FromSecret? && e.name in keys && refs[e.name] == SecretRef(e.secret, e.key)
  {
    var secrets := Secrets(keys, refs);
    if e in secrets {
      var i :| 0 <= i < |secrets| && secrets[i] == e;
      assert keys[i] in keys;
    }
    if e.FromSecret? && e.name in keys && refs[e.name] == SecretRef(e.secret, e.key) {
      var i :| 0 <= i < |keys| && keys[i] == e.name;
      assert secrets[i] == e;
    }
  }

  /** The literals, member by member. */
  lemma LiteralMembers(service: string, p: Parameters, e: Entry)
    ensures e in Literals(service, p) <==>
            || e == Literal("CODEFLY__SERVICE", service)
            || e == Literal("SWH_LISTEN", LISTEN)
            || (e == Literal("SWH_BACKEND", p.backend) && p.backend != "")
            || (e == Literal("SWH_DATABASE", p.database) && p.database != "")
            || (e == Literal("SWH_DATASET", p.dataset) && p.dataset != "")
            || (e == Literal("SWH_LOCATION", p.location) && p.location != "")
            || e == Literal(ANONYMOUS_KEY, "false")
  {
  }

  /** For every request Deploy accepts, the text it renders for the container's
      environment parses back to the list that is meant, in its order, and that
      is exactly each non-empty setting and each secret reference beside the
      template's own literals, the listener authenticated; and no name comes
      twice unless a secret reference takes a rendered literal's. */
  lemma AcceptedDeploymentRoundTrips(settings: Settings, req: DeployRequest, comment: seq<string>, service: string)
    requires FirstObstacle(Effective(settings, req.configuration), req) == None
    requires RenderedValue(service) && PlainRefs(req.secretRefs) && AllOneLine(comment)
    ensures var conf := Effective(settings, req.configuration);
            var p := ParametersOf(conf);
            var parsed := Parse(Print(EnvLines(comment, service, p, req.secretRefs)));
            && parsed == Some(Intended(service, p, req.secretRefs))
            && Delivers(parsed.value, service, conf, req.secretRefs)
            && Authenticated(parsed.value)
            && (Ordering.Distinct(NamesIn(parsed.value)) <==> req.secretRefs.Keys !! LiteralNames(service, p))
  {
    var conf := Effective(settings, req.configuration);
    var p := ParametersOf(conf);
    hide Effective;
    RenderedValueIsSafe(service);
    RenderedValueIsSafe(p.backend);
    RenderedValueIsSafe(p.database);
    RenderedValueIsSafe(p.dataset);
    RenderedValueIsSafe(p.location);
    PrintedEnvParses(comment, service, p, req.secretRefs);
    IntendedDelivers(service, conf, req.secretRefs);
    IntendedIsAuthenticated(service, p, req.secretRefs);
    NoNameRepeats(service, p, req.secretRefs);
    hide Parse, Print, EnvLines, Intended, Delivers, Authenticated, LiteralNames, NamesIn;
  }

  lemma IntendedMembers(service: string, p: Parameters, refs: SecretRefs, e: Entry)
    ensures e in Intended(service, p, refs) <==>
            e in Literals(service, p) || (e.FromSecret? && e.name in refs && refs[e.name] == SecretRef(e.secret, e.key))
  {
    SecretMembers(KeysInOrder(refs), refs, e);
    hide Literals;
  }

  lemma IntendedDelivers(service: string, conf: Resolved, refs: SecretRefs)
    ensures Delivers(Intended(service, ParametersOf(conf), refs), service, conf, refs)
  {
    var p := ParametersOf(conf);
    hide Intended, Literals;
    forall e ensures e in Intended(service, p, refs) <==> Meant(e, service, conf, refs) {
      IntendedMembers(service, p, refs, e);
      LiteralMembers(service, p, e);
    }
  }

  lemma TokenIsNoLiteral(service: string, p: Parameters, e: Entry)
    requires e in Literals(service, p)
    ensures e.Literal? && e.name != TOKEN_KEY
    ensures e.name == ANONYMOUS_KEY ==> e == Literal(ANONYMOUS_KEY, "false")
  {
    LiteralMembers(service, p, e);
    NameRanks();
    assert Rank(TOKEN_KEY) == 6 && |TOKEN_KEY| == 14 && |ANONYMOUS_KEY| == 19;
    hide Literals, Rank;
  }

  lemma IntendedIsAuthenticated(service: string, p: Parameters, refs: SecretRefs)
    requires NamesToken(refs) && !(exists key :: key in refs && Reserved(key))
    ensures Authenticated(Intended(service, p, refs))
  {
    var entries := Intended(service, p, refs);
    forall e ensures e in entries && e.name == ANONYMOUS_KEY <==> e == Literal(ANONYMOUS_KEY, "false") {
      IntendedMembers(service, p, refs, e);
      LiteralMembers(service, p, e);
      if e in Literals(service, p) {
        TokenIsNoLiteral(service, p, e);
      }
    }
    forall e | e in entries && e.name == TOKEN_KEY ensures e.FromSecret? {
      IntendedMembers(service, p, refs, e);
      if e in Literals(service, p) {
        TokenIsNoLiteral(service, p, e);
      }
    }
    var token := FromSecret(TOKEN_KEY, refs[TOKEN_KEY].name, refs[TOKEN_KEY].key);
    IntendedMembers(service, p, refs, token);
  }

  const UNSET := Settings("", "", "", "")
  const TWO_REFS: SecretRefs :=
    map["SWH_AUTH_TOKEN" := SecretRef("gateway", "token"), "SWH_LISTEN" := SecretRef("gateway", "listen")]
  const TWO_REFS_REQUEST := DeployRequest(true, None, [], [], Some([]), Some(9465), TWO_REFS)

  lemma NothingIsSet()
    ensures Effective(UNSET, None) == Resolved("", "", "", "", "", "")
  {
    Text.BlankTrimsToNothing("");
  }

  lemma ShorterIsNotReserved(key: string)
    requires |key| < |ANONYMOUS_KEY|
    ensures !Reserved(key)
  {
  }

  lemma TwoRefsAreNotReserved()
    ensures AnonymousObstacle(TWO_REFS_REQUEST) == None
  {
    hide Reserved;
    forall key | key in TWO_REFS ensures !Reserved(key) {
      assert key == "SWH_AUTH_TOKEN" || key == "SWH_LISTEN";
      ShorterIsNotReserved(key);
    }
  }

  lemma TwoRefsNameToken()
    ensures NamesToken(TWO_REFS)
  {
    assert TOKEN_KEY in TWO_REFS && TWO_REFS[TOKEN_KEY] == SecretRef("gateway", "token");
  }

  lemma TwoRefsAreAccepted(conf: Resolved)
    requires conf == Resolved("", "", "", "", "", "")
    ensures FirstObstacle(conf, TWO_REFS_REQUEST) == None
  {
    TwoRefsAreNotReserved();
    TwoRefsNameToken();
    hide AnonymousObstacle, NamesToken, IsRenderedChar;
  }

  lemma TwoRefsArePlain()
    ensures PlainRefs(TWO_REFS)
  {
    forall key | key in TWO_REFS ensures IsPlain(key) && IsPlain(TWO_REFS[key].name) && IsPlain(TWO_REFS[key].key) {
      assert key == "SWH_AUTH_TOKEN" || key == "SWH_LISTEN";
    }
  }

  /** A secret reference named after a literal does get through: this request is
      accepted, and the list it renders names SWH_LISTEN twice. */
  lemma LiteralCanBeNamedAgain(comment: seq<string>)
    requires AllOneLine(comment)
    ensures FirstObstacle(Effective(UNSET, None), TWO_REFS_REQUEST) == None
    ensures var p := ParametersOf(Effective(UNSET, None));
            var parsed := Parse(Print(EnvLines(comment, "warehouse", p, TWO_REFS)));
            parsed.Some? && !Ordering.Distinct(NamesIn(parsed.value))
  {
    NothingIsSet();
    var p := ParametersOf(Effective(UNSET, None));
    hide Effective, Parse, Print, EnvLines, FirstObstacle, PlainRefs, Literals, Intended, Delivers, Authenticated;
    TwoRefsAreAccepted(Effective(UNSET, None));
    TwoRefsArePlain();
    LiteralMembers("warehouse", p, Literal("SWH_LISTEN", LISTEN));
    assert "SWH_LISTEN" in TWO_REFS && "SWH_LISTEN" in LiteralNames("warehouse", p);
    hide LiteralNames, NamesIn;
    AcceptedDeploymentRoundTrips(UNSET, TWO_REFS_REQUEST, comment, "warehouse");
  }
}
