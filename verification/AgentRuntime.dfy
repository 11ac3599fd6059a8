/** The agent's Runtime over its lifecycle: which container it owns, and which
    token everyone ends up with. */
module AgentRuntime {
  import opened Wrappers
  import opened GatewayConfig
  import opened AgentSettings
  import Text

  predicate IsHex(c: char) {
    '0' <= c <= '9' || 'a' <= c <= 'f'
  }

  /** What callertoken.Generate gives: 64 lowercase hex characters. */
  predicate IsGenerated(token: string) {
    |token| == 64 && forall c :: c in token ==> IsHex(c)
  }

  type EnvironmentId = nat

  /** How starting the container goes: whether an image is known, whether an
      environment could be made, which containers of environments made before
      were removed or taken over (all bear one name), whether it came up, and
      when it did not, whether a container was left behind. */
  datatype Docker = Docker(
    imageKnown: bool,
    made: bool,
    clears: set<EnvironmentId>,
    started: bool,
    leftBehind: bool)

  /** How a shutdown goes; a failed one may still have removed the container. */
  datatype Shutdown = ShutdownDone | ShutdownFailed(removed: bool)

  /** An Init request and everything the outside answers while it is served. */
  datatype InitRequest = InitRequest(
    mappingFound: bool,
    instanceFound: bool,
    configuration: Option<Values>,
    addresses: seq<string>,
    generated: Option<string>,
    docker: Docker,
    rollback: Shutdown)

  /** A consumer's view of the gateway; the token is a secret value of its own. */
  datatype Connection = Connection(connection: string, endpoint: string, token: Option<string>)

  datatype Outcome =
    | Succeeded
    | NoMapping
    | NoInstance
    | CredentialsFileRefused
    | NoToken
    | NotStarted
    | NotShutDown

  /** The Runtime's fields, and the containers that may exist in Docker with the
      environment each was given. */
  datatype State = State(
    settings: Settings,
    conf: Resolved,
    gatewayToken: string,
    gatewayEnv: Option<EnvironmentId>,
    connections: seq<Connection>,
    containers: map<EnvironmentId, Env>,
    nextId: EnvironmentId)

  function Fresh(settings: Settings): State {
    State(settings, Resolved("", "", "", "", "", ""), "", None, [], map[], 0)
  }

  function ConnectionTo(token: string, address: string): Connection {
    Connection("grpc://" + address, address, if token != "" then Some(token) else None)
  }

  function ConnectionsTo(token: string, addresses: seq<string>): seq<Connection> {
    seq(|addresses|, i requires 0 <= i < |addresses| => ConnectionTo(token, addresses[i]))
  }

  /** teardown: an environment that fails to shut down keeps its reference. */
  function Teardown(s: State, how: Shutdown): (State, Outcome) {
    match s.gatewayEnv
    case None => (s, Succeeded)
    case Some(id) =>
      match how
      case ShutdownDone => (s.(gatewayEnv := None, containers := s.containers - {id}), Succeeded)
      case ShutdownFailed(removed) =>
        (if removed then s.(containers := s.containers - {id}) else s, NotShutDown)
  }

  /** startGateway: the environment is owned before it is started. */
  function StartGateway(s: State, d: Docker): (State, bool) {
    if !d.imageKnown || !d.made then (s, false)
    else
      var env := ContainerEnv(s.conf, s.gatewayToken);
      var owned := s.(gatewayEnv := Some(s.nextId), nextId := s.nextId + 1, containers := s.containers - d.clears);
      if d.started || d.leftBehind
      then (owned.(containers := owned.containers[s.nextId := env]), d.started)
      else (owned, false)
  }

  function ResolveToken(r: Resolved, generated: Option<string>): Option<string> {
    if r.authToken != "" then Some(r.authToken) else generated
  }

  function InitStep(s: State, req: InitRequest): (State, Outcome) {
    if !req.mappingFound then (s, NoMapping)
    else if !req.instanceFound then (s, NoInstance)
    else
      var loaded := s.(conf := Effective(s.settings, req.configuration));
      if loaded.conf.credentialsFile != "" then (loaded, CredentialsFileRefused)
      else
        match ResolveToken(loaded.conf, req.generated)
        case None => (loaded.(gatewayToken := ""), NoToken)
        case Some(token) =>
          var (started, ok) := StartGateway(loaded.(gatewayToken := token), req.docker);
          if !ok then (Teardown(started, req.rollback).0, NotStarted)
          else (started.(connections := started.connections + ConnectionsTo(token, req.addresses)), Succeeded)
  }

  datatype Event = Init(req: InitRequest) | Destroy(how: Shutdown)

  function Apply(s: State, e: Event): (State, Outcome) {
    match e
    case Init(req) => InitStep(s, req)
    case Destroy(how) => Teardown(s, how)
  }

  /** The Go Runtime; its methods do what the functions above say. */
  class Runtime {
    var settings: Settings
    var conf: Resolved
    var gatewayToken: string
    var gatewayEnv: Option<EnvironmentId>
    var connections: seq<Connection>
    var containers: map<EnvironmentId, Env>
    var nextId: EnvironmentId

    function Fields(): State
      reads this
    {
      State(settings, conf, gatewayToken, gatewayEnv, connections, containers, nextId)
    }

    constructor (settings: Settings)
      ensures Fields() == Fresh(settings)
    {
      this.settings := settings;
      conf := Resolved("", "", "", "", "", "");
      gatewayToken := "";
      gatewayEnv := None;
      connections := [];
      containers := map[];
      nextId := 0;
    }

    method LoadConfiguration(configuration: Option<Values>)
      modifies this`conf
      ensures conf == Effective(settings, configuration)
    {
      conf := Resolve(settings, configuration);
    }

    /** Loads the configuration again, which leaves the token alone. */
    method CreateConnectionConfiguration(configuration: Option<Values>, address: string) returns (c: Connection)
      modifies this`conf
      ensures conf == Effective(settings, configuration)
      ensures c == ConnectionTo(gatewayToken, address)
      ensures c.endpoint == address && c.connection == "grpc://" + address
      ensures c.token == if gatewayToken == "" then None else Some(gatewayToken)
    {
      LoadConfiguration(configuration);
      c := Connection("grpc://" + address, address, None);
      if gatewayToken != "" {
        c := c.(token := Some(gatewayToken));
      }
    }

    method RunContainer(d: Docker) returns (ok: bool)
      modifies this
      ensures (Fields(), ok) == StartGateway(old(Fields()), d)
    {
      if !d.imageKnown {
        return false;
      }
      if !d.made {
        return false;
      }
      containers := containers - d.clears;
      var id := nextId;
      nextId := nextId + 1;
      gatewayEnv := Some(id);
      var env := BuildEnv(conf, gatewayToken);
      if d.started || d.leftBehind {
        containers := containers[id := env];
      }
      ok := d.started;
    }

    method TearDown(how: Shutdown) returns (out: Outcome)
      modifies this
      ensures (Fields(), out) == Teardown(old(Fields()), how)
    {
      if gatewayEnv.None? {
        return Succeeded;
      }
      if how.ShutdownDone? || how.removed {
        containers := containers - {gatewayEnv.value};
      }
      if how.ShutdownFailed? {
        return NotShutDown;
      }
      gatewayEnv := None;
      out := Succeeded;
    }

    method Init(req: InitRequest) returns (out: Outcome)
      modifies this
      ensures (Fields(), out) == InitStep(old(Fields()), req)
    {
      if !req.mappingFound {
        return NoMapping;
      }
      if !req.instanceFound {
        return NoInstance;
      }
      LoadConfiguration(req.configuration);
      if conf.credentialsFile != "" {
        return CredentialsFileRefused;
      }
      var token := ResolveToken(conf, req.generated);
      if token.None? {
        gatewayToken := "";
        return NoToken;
      }
      gatewayToken := token.value;
      var ok := RunContainer(req.docker);
      if !ok {
        var ignored := TearDown(req.rollback);
        return NotStarted;
      }
      ghost var before := Fields();
      for i := 0 to |req.addresses|
        invariant Fields() == before.(connections :=
                            before.connections + ConnectionsTo(gatewayToken, req.addresses[..i]))
      {
        var c := CreateConnectionConfiguration(req.configuration, req.addresses[i]);
        assert ConnectionsTo(gatewayToken, req.addresses[..i + 1]) ==
               ConnectionsTo(gatewayToken, req.addresses[..i]) + [c];
        connections := connections + [c];
      }
      assert req.addresses[..|req.addresses|] == req.addresses;
      out := Succeeded;
    }

    /** One lifecycle call, whichever it is. */
    method Serve(e: Event) returns (out: Outcome)
      modifies this
      ensures (Fields(), out) == Apply(old(Fields()), e)
    {
      match e
      case Init(req) => out := Init(req);
      case Destroy(how) => out := TearDown(how);
    }
  }

  // --- Ownership ---

  /** The Runtime after a history of lifecycle calls. */
  function StateAfter(settings: Settings, events: seq<Event>): State {
    if |events| == 0 then Fresh(settings)
    else Apply(StateAfter(settings, events[..|events| - 1]), events[|events| - 1]).0
  }

  /** Every container that may exist is the one the Runtime refers to. */
  predicate Owned(s: State) {
    forall id :: id in s.containers ==> s.gatewayEnv == Some(id)
  }

  predicate IdsAreUsed(s: State) {
    && (forall id :: id in s.containers ==> id < s.nextId)
    && (s.gatewayEnv.Some? ==> s.gatewayEnv.value < s.nextId)
  }

  /** Whether an Init gets as far as the token. */
  predicate Reaches(settings: Settings, req: InitRequest) {
    req.mappingFound && req.instanceFound && Effective(settings, req.configuration).credentialsFile == ""
  }

  /** Whether it gets as far as making an environment: all of it is known before
      the call changes anything. */
  predicate Makes(settings: Settings, req: InitRequest) {
    && Reaches(settings, req) && TokenOf(settings, req).Some?
    && req.docker.imageKnown && req.docker.made
  }

  function TokenOf(settings: Settings, req: InitRequest): Option<string> {
    ResolveToken(Effective(settings, req.configuration), req.generated)
  }

  /** An Init that makes an environment, and what it then does away with. */
  predicate DoesAwayWith(settings: Settings, e: Event, id: EnvironmentId) {
    e.Init? && Makes(settings, e.req) && id in e.req.docker.clears
  }

  /** An Init that makes an environment while the held one may have a container,
      and that does not do away with that container. */
  predicate Replaces(s: State, e: Event) {
    && e.Init? && Makes(s.settings, e.req)
    && s.gatewayEnv.Some? && s.gatewayEnv.value in s.containers - e.req.docker.clears
  }

  /** A container out of the Runtime's reach. */
  predicate Lost(s: State, id: EnvironmentId) {
    id in s.containers && s.gatewayEnv != Some(id)
  }

  /** What one lifecycle call leaves out of reach: what was, unless this call does
      away with it, and the container it replaces. */
  lemma StepKeepsIds(s: State, e: Event)
    requires IdsAreUsed(s)
    ensures IdsAreUsed(Apply(s, e).0)
    ensures forall id: EnvironmentId :: Lost(Apply(s, e).0, id) <==>
              (Lost(s, id) && !DoesAwayWith(s.settings, e, id)) || (Replaces(s, e) && s.gatewayEnv == Some(id))
  {
    hide Effective, ContainerEnv, InitStep, Makes;
    if e.Init? {
      if Makes(s.settings, e.req) {
        InitThatMakes(s, e.req);
      } else {
        InitThatMakesNone(s, e.req);
      }
    }
  }

  /** An Init that makes an environment holds that one, with what its start left,
      unless it failed to start and was shut down again. */
  lemma InitThatMakes(s: State, req: InitRequest)
    requires Makes(s.settings, req) && s.nextId !in s.containers
    ensures var after := InitStep(s, req).0;
            && after.nextId == s.nextId + 1
            && after.gatewayEnv ==
                 (if req.docker.started || req.rollback.ShutdownFailed? then Some(s.nextId) else None)
            && (s.nextId in after.containers <==>
                  req.docker.started || (req.docker.leftBehind && req.rollback == ShutdownFailed(false)))
            && forall id :: id != s.nextId ==> (id in after.containers <==> id in s.containers - req.docker.clears)
  {
    hide Effective, ContainerEnv;
  }

  /** And its container, if any, is given the token the agent then has. */
  lemma InitThatMakesToken(s: State, req: InitRequest)
    requires Makes(s.settings, req) && s.nextId !in s.containers
    ensures var after := InitStep(s, req).0;
            && after.settings == s.settings && after.gatewayToken == TokenSet(s.settings, req)
            && (s.nextId in after.containers ==>
                  Getenv(after.containers[s.nextId], "SWH_AUTH_TOKEN") == after.gatewayToken)
  {
    ContainerHoldsToken(Effective(s.settings, req.configuration), TokenOf(s.settings, req).value);
    hide Effective, ContainerEnv, Getenv;
  }

  /** One that makes none holds what it held, or has shut it down. */
  lemma InitThatMakesNone(s: State, req: InitRequest)
    requires !Makes(s.settings, req)
    ensures var after := InitStep(s, req).0;
            && after.nextId == s.nextId && after.containers.Keys <= s.containers.Keys
            && after.settings == s.settings
            && after.gatewayToken == (if Reaches(s.settings, req) then TokenSet(s.settings, req) else s.gatewayToken)
            && (forall id :: id in after.containers ==> after.containers[id] == s.containers[id])
            && (forall id :: s.gatewayEnv != Some(id) && id in s.containers ==> id in after.containers)
            && (after.gatewayEnv == s.gatewayEnv ||
                (after.gatewayEnv == None && s.gatewayEnv.Some? && s.gatewayEnv.value !in after.containers))
  {
    hide Effective, ContainerEnv;
  }

  lemma {:induction false} IdsAlwaysUsed(settings: Settings, events: seq<Event>)
    ensures IdsAreUsed(StateAfter(settings, events))
  {
    hide Apply;
    if |events| == 0 {
    } else {
      IdsAlwaysUsed(settings, events[..|events| - 1]);
      StepKeepsIds(StateAfter(settings, events[..|events| - 1]), events[|events| - 1]);
    }
  }

  /** Call `i` put this container out of reach. */
  predicate LosesAt(settings: Settings, events: seq<Event>, i: nat, id: EnvironmentId) {
    && i < |events| && Replaces(StateAfter(settings, events[..i]), events[i])
    && StateAfter(settings, events[..i]).gatewayEnv == Some(id)
  }

  /** Some later call did away with it after all. */
  predicate ClearedSince(settings: Settings, events: seq<Event>, i: nat, id: EnvironmentId) {
    exists j :: i < j < |events| && DoesAwayWith(settings, events[j], id)
  }

  ghost predicate LostForGood(settings: Settings, events: seq<Event>, i: nat, id: EnvironmentId) {
    LosesAt(settings, events, i, id) && !ClearedSince(settings, events, i, id)
  }

  lemma LostOneMore(settings: Settings, events: seq<Event>, i: nat, id: EnvironmentId)
    requires i < |events| - 1
    ensures var last := |events| - 1;
            LostForGood(settings, events, i, id) <==>
            LostForGood(settings, events[..last], i, id) && !DoesAwayWith(settings, events[last], id)
  {
    hide StateAfter, Replaces, DoesAwayWith;
    var last := |events| - 1;
    var prefix := events[..last];
    assert prefix[..i] == events[..i] && prefix[i] == events[i];
    assert forall j :: 0 <= j < last ==> prefix[j] == events[j];
    if ClearedSince(settings, prefix, i, id) {
      var j :| i < j < |prefix| && DoesAwayWith(settings, prefix[j], id);
      assert DoesAwayWith(settings, events[j], id);
    }
    if ClearedSince(settings, events, i, id) {
      var j :| i < j < |events| && DoesAwayWith(settings, events[j], id);
      assert j < last ==> DoesAwayWith(settings, prefix[j], id);
    }
  }

  /** A container is out of reach exactly when some call replaced it and none has
      done away with it since. */
  lemma {:induction false} LostWhenReplaced(settings: Settings, events: seq<Event>, id: EnvironmentId)
    ensures Lost(StateAfter(settings, events), id) <==> exists i: nat :: LostForGood(settings, events, i, id)
  {
    hide Apply, Replaces, DoesAwayWith, Lost, ClearedSince;
    if |events| == 0 {
      assert !Lost(Fresh(settings), id) by { NothingLost(settings, id); }
    } else {
      var last := |events| - 1;
      var prefix := events[..last];
      LostWhenReplaced(settings, prefix, id);
      IdsAlwaysUsed(settings, prefix);
      SettingsStay(settings, prefix);
      StepKeepsIds(StateAfter(settings, prefix), events[last]);
      NothingSinceLast(settings, events, id);
      forall i: nat | i < last
        ensures LostForGood(settings, events, i, id) <==>
                LostForGood(settings, prefix, i, id) && !DoesAwayWith(settings, events[last], id)
      {
        LostOneMore(settings, events, i, id);
      }
      if Replaces(StateAfter(settings, prefix), events[last]) && StateAfter(settings, prefix).gatewayEnv == Some(id) {
        assert LostForGood(settings, events, last, id);
      }
      if i: nat :| LostForGood(settings, prefix, i, id) && !DoesAwayWith(settings, events[last], id) {
        assert LostForGood(settings, events, i, id);
      }
    }
  }

  lemma NothingLost(settings: Settings, id: EnvironmentId)
    ensures !Lost(Fresh(settings), id)
  {
  }

  lemma NothingSinceLast(settings: Settings, events: seq<Event>, id: EnvironmentId)
    requires |events| > 0
    ensures !ClearedSince(settings, events, |events| - 1, id)
  {
  }

  /** Over every history, all containers that may exist are the Runtime's exactly
      when each one replaced by an environment made beside it was done away with
      by an environment made later. */
  lemma OwnedUnlessReplaced(settings: Settings, events: seq<Event>)
    ensures Owned(StateAfter(settings, events)) <==>
            forall i: nat, id: EnvironmentId ::
              LosesAt(settings, events, i, id) ==> ClearedSince(settings, events, i, id)
  {
    hide LosesAt, ClearedSince, StateAfter;
    var s := StateAfter(settings, events);
    NoneIsLost(s);
    hide Owned, Lost;
    if Owned(s) {
      forall i: nat, id: EnvironmentId | LosesAt(settings, events, i, id)
        ensures ClearedSince(settings, events, i, id)
      {
        LostWhenReplaced(settings, events, id);
        assert !Lost(s, id);
        assert LostForGood(settings, events, i, id) ==> Lost(s, id);
      }
    } else {
      var id: EnvironmentId :| Lost(s, id);
      LostWhenReplaced(settings, events, id);
      var i: nat :| LostForGood(settings, events, i, id);
      assert LosesAt(settings, events, i, id);
    }
  }

  lemma NoneIsLost(s: State)
    ensures Owned(s) <==> forall id: EnvironmentId :: !Lost(s, id)
  {
    if !Owned(s) {
      var id :| id in s.containers && s.gatewayEnv != Some(id);
      assert Lost(s, id);
    }
  }

  /** In particular when Init is never repeated while an environment is held. */
  lemma OwnedWhenInitsAlternate(settings: Settings, events: seq<Event>)
    requires forall i :: 0 <= i < |events| && events[i].Init? ==> StateAfter(settings, events[..i]).gatewayEnv == None
    ensures Owned(StateAfter(settings, events))
  {
    OwnedUnlessReplaced(settings, events);
  }

  /** And whenever a new environment does away with the container of the old, as
      their common name suggests it should: then Init may be repeated freely. */
  lemma OwnedWhenNamesClear(settings: Settings, events: seq<Event>)
    requires forall i :: 0 <= i < |events| && events[i].Init? ==>
               var held := StateAfter(settings, events[..i]).gatewayEnv;
               held.Some? ==> held.value in events[i].req.docker.clears
    ensures Owned(StateAfter(settings, events))
  {
    OwnedUnlessReplaced(settings, events);
  }

  /** A request for one consumer on which everything goes well. */
  function GoodInit(token: string, clears: set<EnvironmentId>): InitRequest {
    InitRequest(true, true, None, ["localhost:9465"], Some(token),
                Docker(true, true, clears, true, false), ShutdownDone)
  }

  lemma GoodInitSucceeds(s: State, token: string, clears: set<EnvironmentId>)
    requires token != ""
    ensures var (after, out) := InitStep(s, GoodInit(token, clears));
            && out == Succeeded && after.gatewayToken == token && after.settings == s.settings
            && after.gatewayEnv == Some(s.nextId) && after.nextId == s.nextId + 1
            && after.connections == s.connections + ConnectionsTo(token, ["localhost:9465"])
            && after.containers ==
                 (s.containers - clears)[s.nextId := ContainerEnv(after.conf, token)]
    ensures Makes(s.settings, GoodInit(token, clears))
  {
    Text.BlankTrimsToNothing("");
    assert Effective(s.settings, None).credentialsFile == "" && Effective(s.settings, None).authToken == "";
    hide Effective, ContainerEnv;
  }

  lemma AfterOneMore(settings: Settings, events: seq<Event>, e: Event)
    ensures StateAfter(settings, events + [e]) == Apply(StateAfter(settings, events), e).0
  {
    hide Apply;
    assert (events + [e])[..|events|] == events;
  }

  lemma AfterOne(settings: Settings, e: Event)
    ensures StateAfter(settings, [e]) == Apply(Fresh(settings), e).0
  {
    hide Apply;
    AfterOneMore(settings, [], e);
    assert [] + [e] == [e];
  }

  /** Where the container of the first environment is not done away with, two
      successful Inits lose it. */
  lemma SecondInitLosesContainer(settings: Settings, one: string, other: string)
    requires one != "" && other != ""
    ensures Lost(StateAfter(settings, [Init(GoodInit(one, {})), Init(GoodInit(other, {}))]), 0)
  {
    hide InitStep;
    var first, second := Init(GoodInit(one, {})), Init(GoodInit(other, {}));
    AfterOne(settings, first);
    AfterOneMore(settings, [first], second);
    assert [first] + [second] == [first, second];
    GoodInitSucceeds(Fresh(settings), one, {});
    GoodInitSucceeds(StateAfter(settings, [first]), other, {});
  }

  /** A successful Destroy leaves nothing owned, nor any container where all were
      owned; repeating it changes nothing; a failed one keeps the reference. */
  lemma DestroyReleases(s: State, how: Shutdown, again: Shutdown)
    ensures var (after, out) := Teardown(s, how);
            && after.settings == s.settings && after.conf == s.conf && after.gatewayToken == s.gatewayToken
            && after.connections == s.connections && after.nextId == s.nextId
            && (out == Succeeded <==> s.gatewayEnv == None || how == ShutdownDone)
            && (forall id :: id in s.containers && id !in after.containers ==>
                  s.gatewayEnv == Some(id) && how != ShutdownFailed(false))
            && (forall id :: id in after.containers ==> id in s.containers && after.containers[id] == s.containers[id])
            && if out == Succeeded then
              after.gatewayEnv == None && (Owned(s) ==> after.containers == map[]) &&
              Teardown(after, again) == (after, Succeeded)
            else
              after.gatewayEnv == s.gatewayEnv && s.gatewayEnv.Some?
  {
    if Owned(s) && how.ShutdownDone? && s.gatewayEnv.Some? {
      assert s.containers.Keys <= {s.gatewayEnv.value};
    }
  }

  /** An Init that fails from a clean state leaves it clean, or owns what it
      could not roll back so that a later Destroy finds it. */
  lemma FailedInitIsRolledBack(s: State, req: InitRequest)
    requires s.gatewayEnv == None && s.containers == map[]
    requires InitStep(s, req).1 != Succeeded
    ensures var after := InitStep(s, req).0;
            && Owned(after) && after.connections == s.connections
            && (after.gatewayEnv.Some? ==> Makes(s.settings, req) && req.rollback.ShutdownFailed?)
            && (after.gatewayEnv == None ==> after.containers == map[])
  {
    hide Effective, ContainerEnv;
  }

  // --- One token, everywhere ---

  lemma GeneratedHasNoSpace(token: string)
    requires IsGenerated(token)
    ensures token != "" && Text.Trim(token) == token
  {
    assert IsHex(token[0]) && IsHex(token[63]);
    Text.TrimIsIdentityOnTrimmed(token);
  }

  /** All that a successful Init leaves behind. */
  lemma SuccessfulInit(s: State, req: InitRequest)
    requires InitStep(s, req).1 == Succeeded
    ensures var conf := Effective(s.settings, req.configuration);
            var token := ResolveToken(conf, req.generated);
            && token.Some?
            && InitStep(s, req).0 == State(
                 s.settings, conf, token.value, Some(s.nextId),
                 s.connections + ConnectionsTo(token.value, req.addresses),
                 (s.containers - req.docker.clears)[s.nextId := ContainerEnv(conf, token.value)], s.nextId + 1)
  {
    hide Effective, ContainerEnv;
  }

  /** How an Init ends, said of the request and the configuration it brings. */
  predicate EndsAs(conf: Resolved, req: InitRequest, out: Outcome) {
    if !req.mappingFound then out == NoMapping
    else if !req.instanceFound then out == NoInstance
    else if conf.credentialsFile != "" then out == CredentialsFileRefused
    else if conf.authToken == "" && req.generated == None then out == NoToken
    else if !(req.docker.imageKnown && req.docker.made && req.docker.started) then out == NotStarted
    else out == Succeeded
  }

  lemma InitEnds(s: State, req: InitRequest)
    ensures EndsAs(Effective(s.settings, req.configuration), req, InitStep(s, req).1)
    ensures InitStep(s, req).1 in {NoMapping, NoInstance} ==> InitStep(s, req).0 == s
    ensures InitStep(s, req).1 == CredentialsFileRefused ==>
              InitStep(s, req).0 == s.(conf := Effective(s.settings, req.configuration))
  {
    hide Effective, ContainerEnv;
  }

  /** A configured token is never overridden, and a generated one is used only where
      none is configured. */
  lemma ConfiguredTokenWins(s: State, req: InitRequest)
    requires InitStep(s, req).1 == Succeeded
    ensures var conf, token := Effective(s.settings, req.configuration), InitStep(s, req).0.gatewayToken;
            if conf.authToken != "" then token == conf.authToken else req.generated == Some(token)
  {
    SuccessfulInit(s, req);
    hide InitStep, Effective;
  }

  /** The token an Init leaves the agent with is the one the container it started
      enforces, and the one that each address's consumer is given with its address. */
  lemma TokenReachesEveryone(s: State, req: InitRequest)
    requires InitStep(s, req).1 == Succeeded
    requires req.generated.Some? ==> IsGenerated(req.generated.value)
    ensures var after := InitStep(s, req).0;
            && s.nextId in after.containers
            && Getenv(after.containers[s.nextId], "SWH_AUTH_TOKEN") == after.gatewayToken
            && |after.connections| == |s.connections| + |req.addresses|
            && forall i :: 0 <= i < |req.addresses| ==>
                 Tells(after.connections[|s.connections| + i], after.gatewayToken, req.addresses[i])
  {
    var after := InitStep(s, req).0;
    SuccessfulInit(s, req);
    TokenIsSendable(s, req);
    ContainerHoldsToken(after.conf, after.gatewayToken);
    hide InitStep, Effective, ContainerEnv, Getenv, IsGenerated, ResolveToken, Text.Trim;
  }

  predicate Tells(c: Connection, token: string, address: string) {
    c.token == Some(token) && c.endpoint == address && c.connection == "grpc://" + address
  }

  lemma TokenIsSendable(s: State, req: InitRequest)
    requires req.generated.Some? ==> IsGenerated(req.generated.value)
    requires InitStep(s, req).1 == Succeeded
    ensures var token := InitStep(s, req).0.gatewayToken; token != "" && Text.Trim(token) == token
  {
    SuccessfulInit(s, req);
    if Effective(s.settings, req.configuration).authToken != "" {
      EffectiveIsTrimmed(s.settings, req.configuration, AuthToken);
    } else {
      GeneratedHasNoSpace(req.generated.value);
    }
    hide InitStep, Effective, ContainerEnv, Text.Trim;
  }

  /** After a successful Init the token every new consumer is given is the one
      the gateway resolves from the environment of the container just started,
      and backend, database, dataset and location agree likewise. */
  lemma ConsumersAndGatewayAgree(s: State, req: InitRequest, registry: Registry, parse: DurationParser)
    requires req.generated.Some? ==> IsGenerated(req.generated.value)
    requires InitStep(s, req).1 == Succeeded
    ensures var after := InitStep(s, req).0;
            && after.gatewayEnv == Some(s.nextId) && s.nextId in after.containers
            && var conf, gateway := after.conf, FromEnv(after.containers[s.nextId], registry, parse);
               && conf == Effective(s.settings, req.configuration)
               && |after.connections| == |s.connections| + |req.addresses|
               && after.connections[..|s.connections|] == s.connections
               && (gateway.Failure? ==> !AboutToken(gateway.error))
               && (gateway.Success? ==>
                     && gateway.value.backend.kind == (if conf.backend == "" then "duckdb" else conf.backend)
                     && gateway.value.backend.database == conf.database
                     && gateway.value.backend.defaultDataset == conf.dataset
                     && gateway.value.backend.location == conf.location
                     && forall i :: |s.connections| <= i < |after.connections| ==>
                          after.connections[i].token == Some(gateway.value.authToken))
  {
    hide InitStep, FromEnv, ContainerEnv, Effective, Text.Trim;
    var conf := Effective(s.settings, req.configuration);
    var token := InitStep(s, req).0.gatewayToken;
    SuccessfulInit(s, req);
    TokenIsSendable(s, req);
    GatewayReadsWhatAgentPassed(conf, token, registry, parse);
  }

  /** What one call adds to the consumers' configurations: one for each address
      of a successful Init, with the token it resolved, and nothing else ever. */
  lemma StepKeepsConnections(s: State, e: Event)
    ensures var (after, out) := Apply(s, e);
            && after.settings == s.settings
            && after.connections == s.connections + Handed(s, e)
    ensures e.Init? && Apply(s, e).1 == Succeeded ==> TokenOf(s.settings, e.req).Some?
  {
    hide Effective, ContainerEnv;
    if e.Init? && Apply(s, e).1 == Succeeded {
      SuccessfulInit(s, e.req);
    }
    hide InitStep;
  }

  function Handed(s: State, e: Event): seq<Connection> {
    if e.Init? && Apply(s, e).1 == Succeeded && TokenOf(s.settings, e.req).Some?
    then ConnectionsTo(TokenOf(s.settings, e.req).value, e.req.addresses)
    else []
  }

  predicate AllHold(connections: seq<Connection>, token: string) {
    forall c :: c in connections ==> c.token == Some(token)
  }

  /** Call `i` succeeded in giving some consumer a configuration. */
  predicate Hands(settings: Settings, events: seq<Event>, i: nat)
    requires i < |events|
  {
    && events[i].Init? && |events[i].req.addresses| > 0
    && Apply(StateAfter(settings, events[..i]), events[i]).1 == Succeeded
  }

  ghost predicate AllResolve(settings: Settings, events: seq<Event>, token: string) {
    forall i :: 0 <= i < |events| && Hands(settings, events, i) ==> TokenOf(settings, events[i].req) == Some(token)
  }

  lemma {:induction false} SettingsStay(settings: Settings, events: seq<Event>)
    ensures StateAfter(settings, events).settings == settings
  {
    hide Apply;
    if |events| == 0 {
    } else {
      var prefix := events[..|events| - 1];
      SettingsStay(settings, prefix);
      StepKeepsConnections(StateAfter(settings, prefix), events[|events| - 1]);
    }
  }

  lemma HandedHold(s: State, e: Event, token: string)
    requires e.Init? && e.req.generated.Some? ==> IsGenerated(e.req.generated.value)
    ensures AllHold(Handed(s, e), token) <==>
            (e.Init? && |e.req.addresses| > 0 && Apply(s, e).1 == Succeeded ==>
               TokenOf(s.settings, e.req) == Some(token))
  {
    StepKeepsConnections(s, e);
    hide Apply, Effective;
    if e.Init? && |e.req.addresses| > 0 && Apply(s, e).1 == Succeeded {
      var t := TokenOf(s.settings, e.req).value;
      assert t != "";
      assert Handed(s, e)[0].token == Some(t);
    }
  }

  /** The configurations are never taken back, by Destroy or by a later Init; so
      after any history all consumers hold one token, the current one say, exactly
      when every Init that served a consumer resolved that very token. */
  lemma {:induction false} ConsumersOverRuns(settings: Settings, events: seq<Event>, token: string)
    requires forall i :: 0 <= i < |events| && events[i].Init? && events[i].req.generated.Some? ==>
               IsGenerated(events[i].req.generated.value)
    ensures AllHold(StateAfter(settings, events).connections, token) <==> AllResolve(settings, events, token)
  {
    hide Apply, Effective, IsGenerated;
    if |events| == 0 {
    } else {
      var last := |events| - 1;
      var prefix := events[..last];
      var before := StateAfter(settings, prefix);
      ConsumersOverRuns(settings, prefix, token);
      SettingsStay(settings, prefix);
      StepKeepsConnections(before, events[last]);
      HandedHold(before, events[last], token);
      hide Handed, TokenOf;
      assert AllHold(before.connections + Handed(before, events[last]), token) <==>
             AllHold(before.connections, token) && AllHold(Handed(before, events[last]), token);
      ResolvesOneMore(settings, events, token);
    }
  }

  lemma ResolvesOneMore(settings: Settings, events: seq<Event>, token: string)
    requires |events| > 0
    ensures var last := |events| - 1;
            AllResolve(settings, events, token) <==>
            AllResolve(settings, events[..last], token) &&
            (Hands(settings, events, last) ==> TokenOf(settings, events[last].req) == Some(token))
  {
    hide Apply, TokenOf, StateAfter;
    var last := |events| - 1;
    var prefix := events[..last];
    forall i | 0 <= i < last
      ensures prefix[i] == events[i] && Hands(settings, prefix, i) == Hands(settings, events, i)
    {
      assert prefix[..i] == events[..i];
    }
  }

  /** Two Inits that each generate a token leave consumers with different ones. */
  lemma TwoInitsTwoTokens(settings: Settings, one: string, other: string, clears: set<EnvironmentId>)
    requires one != "" && other != ""
    ensures var after := StateAfter(settings, [Init(GoodInit(one, clears)), Init(GoodInit(other, clears))]);
            after.gatewayToken == other &&
            after.connections == [ConnectionTo(one, "localhost:9465"), ConnectionTo(other, "localhost:9465")]
  {
    hide InitStep;
    var first, second := Init(GoodInit(one, clears)), Init(GoodInit(other, clears));
    AfterOne(settings, first);
    AfterOneMore(settings, [first], second);
    assert [first] + [second] == [first, second];
    GoodInitSucceeds(Fresh(settings), one, clears);
    GoodInitSucceeds(StateAfter(settings, [first]), other, clears);
  }

  // --- The agent's own probe ---

  /** The token the agent probes with is the one the container it holds enforces. */
  predicate ProbesWithHeldToken(s: State) {
    s.gatewayEnv.Some? && s.gatewayEnv.value in s.containers ==>
      Getenv(s.containers[s.gatewayEnv.value], "SWH_AUTH_TOKEN") == s.gatewayToken
  }

  /** The token an Init that reaches it leaves the agent with; failing to generate
      one leaves none. */
  function TokenSet(settings: Settings, req: InitRequest): string {
    match TokenOf(settings, req)
    case None => ""
    case Some(token) => token
  }

  /** An Init that moves the agent's token and then neither replaces nor removes
      the container held from before. */
  predicate Strands(s: State, e: Event) {
    && e.Init? && s.gatewayEnv.Some? && s.gatewayEnv.value in s.containers
    && Reaches(s.settings, e.req) && !Makes(s.settings, e.req)
    && TokenSet(s.settings, e.req) != s.gatewayToken
    && (TokenOf(s.settings, e.req).Some? ==> e.req.rollback == ShutdownFailed(false))
  }

  lemma ContainerHoldsToken(r: Resolved, token: string)
    ensures Getenv(ContainerEnv(r, token), "SWH_AUTH_TOKEN") == token
  {
    PassedVariables(r, token);
  }

  /** One lifecycle call keeps the two tokens equal unless it strands the held
      container, and then they differ. */
  lemma StepKeepsProbeToken(s: State, e: Event)
    requires IdsAreUsed(s) && ProbesWithHeldToken(s)
    ensures ProbesWithHeldToken(Apply(s, e).0) <==> !Strands(s, e)
  {
    hide Effective, ContainerEnv, Getenv;
    if e.Init? {
      var conf := Effective(s.settings, e.req.configuration);
      var token := ResolveToken(conf, e.req.generated);
      if token.Some? {
        ContainerHoldsToken(conf, token.value);
      }
    }
  }

  /** Over every history, readiness is probed all along with the token the gateway
      asks for exactly when no Init strands the container held. */
  lemma {:induction false} ProbeTokenOverRuns(settings: Settings, events: seq<Event>)
    ensures (forall n :: 0 <= n <= |events| ==> ProbesWithHeldToken(StateAfter(settings, events[..n]))) <==>
            (forall i :: 0 <= i < |events| ==> !Strands(StateAfter(settings, events[..i]), events[i]))
  {
    hide Apply, ProbesWithHeldToken, Strands;
    if |events| == 0 {
      assert ProbesWithHeldToken(Fresh(settings)) by { NothingHeld(settings); }
    } else {
      var last := |events| - 1;
      var prefix := events[..last];
      forall n | 0 <= n <= last ensures prefix[..n] == events[..n] {
      }
      assert forall i :: 0 <= i < last ==> prefix[i] == events[i];
      assert events[..|events|] == events;
      ProbeTokenOverRuns(settings, prefix);
      IdsAlwaysUsed(settings, prefix);
      if ProbesWithHeldToken(StateAfter(settings, prefix)) {
        StepKeepsProbeToken(StateAfter(settings, prefix), events[last]);
      }
      hide StateAfter;
    }
  }

  /** The last Init that got as far as a token. */
  function LastSet(settings: Settings, events: seq<Event>): Option<InitRequest> {
    if |events| == 0 then None
    else
      var e := events[|events| - 1];
      if e.Init? && Reaches(settings, e.req) then Some(e.req) else LastSet(settings, events[..|events| - 1])
  }

  /** The last Init that made an environment. */
  function LastMade(settings: Settings, events: seq<Event>): Option<InitRequest> {
    if |events| == 0 then None
    else
      var e := events[|events| - 1];
      if e.Init? && Makes(settings, e.req) then Some(e.req) else LastMade(settings, events[..|events| - 1])
  }

  /** The agent's token is the last one set, and the held container's the one of
      the Init that made it. */
  predicate TokensTold(s: State, last: Option<InitRequest>, made: Option<InitRequest>) {
    && s.gatewayToken == (if last.Some? then TokenSet(s.settings, last.value) else "")
    && (s.gatewayEnv.Some? ==> last.Some? && made.Some?)
    && (s.gatewayEnv.Some? && s.gatewayEnv.value in s.containers ==>
          Getenv(s.containers[s.gatewayEnv.value], "SWH_AUTH_TOKEN") == TokenSet(s.settings, made.value))
  }

  lemma StepKeepsTokensTold(s: State, e: Event, last: Option<InitRequest>, made: Option<InitRequest>)
    requires IdsAreUsed(s) && TokensTold(s, last, made)
    ensures TokensTold(Apply(s, e).0,
                       if e.Init? && Reaches(s.settings, e.req) then Some(e.req) else last,
                       if e.Init? && Makes(s.settings, e.req) then Some(e.req) else made)
  {
    hide Effective, ContainerEnv, Getenv, InitStep, TokenSet;
    if e.Init? {
      if Makes(s.settings, e.req) {
        InitThatMakes(s, e.req);
        InitThatMakesToken(s, e.req);
      } else {
        InitThatMakesNone(s, e.req);
      }
    }
  }

  lemma {:induction false} TokensAlwaysTold(settings: Settings, events: seq<Event>)
    ensures TokensTold(StateAfter(settings, events), LastSet(settings, events), LastMade(settings, events))
  {
    hide Apply, TokensTold, Reaches, Makes;
    if |events| == 0 {
      assert TokensTold(Fresh(settings), None, None) by { NothingTold(settings); }
    } else {
      var prefix := events[..|events| - 1];
      TokensAlwaysTold(settings, prefix);
      IdsAlwaysUsed(settings, prefix);
      SettingsStay(settings, prefix);
      StepKeepsTokensTold(StateAfter(settings, prefix), events[|events| - 1],
                          LastSet(settings, prefix), LastMade(settings, prefix));
    }
  }

  lemma NothingTold(settings: Settings)
    ensures TokensTold(Fresh(settings), None, None)
  {
  }

  /** After any history, whatever came between: where a container is held, it is
      probed with its own token exactly when the last Init that got as far as a
      token came by the same one as the last Init that made an environment. */
  lemma ProbeTokenAtEnd(settings: Settings, events: seq<Event>)
    ensures var s, last, made := StateAfter(settings, events), LastSet(settings, events), LastMade(settings, events);
            s.gatewayEnv.Some? && s.gatewayEnv.value in s.containers ==>
              && last.Some? && made.Some?
              && (ProbesWithHeldToken(s) <==> TokenSet(settings, last.value) == TokenSet(settings, made.value))
  {
    hide StateAfter, LastSet, LastMade, TokenSet, Getenv;
    TokensAlwaysTold(settings, events);
    SettingsStay(settings, events);
  }

  /** So it is over every history whose Inits find no environment held. */
  lemma ProbeTokenWhenInitsAlternate(settings: Settings, events: seq<Event>)
    requires forall i :: 0 <= i < |events| && events[i].Init? ==> StateAfter(settings, events[..i]).gatewayEnv == None
    ensures ProbesWithHeldToken(StateAfter(settings, events))
  {
    hide ProbesWithHeldToken, StateAfter, Reaches, Makes;
    ProbeTokenOverRuns(settings, events);
    assert events[..|events|] == events;
  }

  lemma NothingHeld(settings: Settings)
    ensures ProbesWithHeldToken(Fresh(settings))
  {
  }

  /** An Init that fails to generate a token over a running container does leave
      the agent probing with none. */
  lemma FailedInitStrands(settings: Settings, token: string, clears: set<EnvironmentId>)
    requires token != ""
    ensures var ok := GoodInit(token, clears);
            var events := [Init(ok), Init(ok.(generated := None))];
            && Strands(StateAfter(settings, events[..1]), events[1])
            && !ProbesWithHeldToken(StateAfter(settings, events))
  {
    var ok := GoodInit(token, clears);
    var first, second := Init(ok), Init(ok.(generated := None));
    AfterOne(settings, first);
    AfterOneMore(settings, [first], second);
    assert [first] + [second] == [first, second] && [first, second][..1] == [first];
    GoodInitSucceeds(Fresh(settings), token, clears);
    var s := StateAfter(settings, [first]);
    Text.BlankTrimsToNothing("");
    assert Effective(settings, None).credentialsFile == "" && Effective(settings, None).authToken == "";
    ContainerHoldsToken(s.conf, token);
    hide InitStep, Effective, ContainerEnv, Getenv;
    StepKeepsProbeToken(s, second);
  }
}
