/** Waiting for the gateway to serve: one overall deadline, a bounded attempt, a
    ticker with one slot between attempts.  Time is in nanoseconds and the clock
    is ideal: a context is over at its deadline, and tick k fires k intervals
    after the start. */
module Readiness {
  import opened Wrappers
  import opened Errors

  const BUDGET := 60_000_000_000
  const PROBE_TIMEOUT := 5_000_000_000
  const POLL_INTERVAL := 1_000_000_000

  datatype Health = UnknownHealth | Serving | NotServing | ServiceUnknown

  datatype HealthReply = HealthError(status: Status) | Healthy(health: Health)

  datatype CapabilitiesReply = CapabilitiesError(status: Status) | Accepted

  /** How the gateway would answer an attempt, and how long each call takes. */
  datatype Gateway = Gateway(
      health: HealthReply, healthTakes: nat, capabilities: CapabilitiesReply, capabilitiesTakes: nat)

  datatype Attempt = Attempt(at: int, took: nat, health: HealthReply, capabilities: CapabilitiesReply)

  datatype Verdict =
    | Ready
    | Rejected(err: Err)
    | NotReady(lastErr: string)

  function HealthName(h: Health): string {
    match h
    case UnknownHealth => "UNKNOWN"
    case Serving => "SERVING"
    case NotServing => "NOT_SERVING"
    case ServiceUnknown => "SERVICE_UNKNOWN"
  }

  /** probeGateway: an empty reason means ready, an error is final. */
  function ProbeGateway(health: HealthReply, capabilities: CapabilitiesReply): (string, Option<Err>) {
    match health
    case HealthError(status) => (StatusText(status), None)
    case Healthy(h) =>
      if h != Serving then ("health status " + HealthName(h), None)
      else
        match capabilities
        case Accepted => ("", None)
        case CapabilitiesError(status) =>
          if status.code == GrpcUnauthenticated then ("", Some(OfStatus(status))) else (StatusText(status), None)
  }

  predicate SawReady(a: Attempt) {
    a.health == Healthy(Serving) && a.capabilities == Accepted
  }

  predicate SawRejection(a: Attempt) {
    a.health == Healthy(Serving) && a.capabilities.CapabilitiesError? &&
    a.capabilities.status.code == GrpcUnauthenticated
  }

  /** The answer's three cases are told apart by what was seen; that a failure
      is never read as ready rests on every status text being non-empty. */
  lemma ProbeTellsCasesApart(a: Attempt)
    ensures var (reason, final) := ProbeGateway(a.health, a.capabilities);
            && (final.Some? <==> SawRejection(a))
            && (final.Some? ==> a.capabilities.CapabilitiesError? && final.value == OfStatus(a.capabilities.status))
            && (final == None && reason == "" <==> SawReady(a))
  {
    if a.health.HealthError? {
      assert |StatusText(a.health.status)| >= |"rpc error: code = "|;
    }
    if a.capabilities.CapabilitiesError? {
      assert |StatusText(a.capabilities.status)| >= |"rpc error: code = "|;
    }
    match a.health
    case HealthError(_) =>
    case Healthy(h) => assert |"health status " + HealthName(h)| >= |"health status "|;
  }

  const EXPIRED := Status(GrpcDeadlineExceeded, "context deadline exceeded")

  function Min(a: int, b: int): int { if a < b then a else b }

  /** Recorded for a Capabilities call an attempt never made or never finished. */
  const UNANSWERED := CapabilitiesError(EXPIRED)

  /** An attempt begun at `at`, cut off by its own timeout or the deadline. */
  function Attempted(gateway: int -> Gateway, at: int, deadline: int): (a: Attempt)
    requires at < deadline
    ensures a.at == at && a.took <= PROBE_TIMEOUT && at + a.took <= deadline
  {
    var g, limit := gateway(at), Min(PROBE_TIMEOUT, deadline - at);
    if g.healthTakes > limit then
      Attempt(at, limit, HealthError(EXPIRED), UNANSWERED)
    else if g.health != Healthy(Serving) then
      Attempt(at, g.healthTakes, g.health, UNANSWERED)
    else if g.healthTakes + g.capabilitiesTakes > limit then
      Attempt(at, limit, g.health, UNANSWERED)
    else
      Attempt(at, g.healthTakes + g.capabilitiesTakes, g.health, g.capabilities)
  }

  /** Ticks fired by time t. */
  function Fired(start: int, t: int): int
  {
    (t - start) / POLL_INTERVAL
  }

  /** When the wait after an attempt ends, the budget aside: at once if a tick
      fired meanwhile (the slot holds one and drops the rest), else at the next. */
  function NextAt(start: int, a: Attempt): int {
    var ended := a.at + a.took;
    if Fired(start, ended) > Fired(start, a.at) then ended
    else start + (Fired(start, ended) + 1) * POLL_INTERVAL
  }

  /** What WaitForReady does, attempt by attempt. */
  ghost predicate IsRun(
      start: int, deadline: int, gateway: int -> Gateway, log: seq<Attempt>, end: int, verdict: Verdict) {
    if start >= deadline then
      log == [] && end == start && verdict == NotReady("no attempt completed")
    else
      && Chained(start, deadline, gateway, log) && log != []
      && var last := log[|log| - 1];
         if SawReady(last) then
           verdict == Ready && end == last.at + last.took
         else if SawRejection(last) then
           verdict == Rejected(OfStatus(last.capabilities.status)) && end == last.at + last.took
         else
           && NextAt(start, last) >= deadline && end == deadline
           && verdict == NotReady(ProbeGateway(last.health, last.capabilities).0)
  }

  /** Attempts in sequence, every one but the last leaving something to retry. */
  ghost predicate Chained(start: int, deadline: int, gateway: int -> Gateway, log: seq<Attempt>) {
    && (forall i :: 0 <= i < |log| ==> log[i].at < deadline && log[i] == Attempted(gateway, log[i].at, deadline))
    && (|log| > 0 ==> log[0].at == start)
    && (forall i :: 0 <= i < |log| - 1 ==>
          !SawReady(log[i]) && !SawRejection(log[i]) && log[i + 1].at == NextAt(start, log[i]))
  }

  /** The polling loop.  `cancelled` is when the caller's context ends, if it
      does; the measure is the ticks left before the deadline, one of which each
      further attempt has to take. */
  method WaitForReady(start: int, cancelled: Option<int>, gateway: int -> Gateway)
    returns (verdict: Verdict, log: seq<Attempt>, end: int)
    ensures IsRun(start, Deadline(start, cancelled), gateway, log, end, verdict)
  {
    hide ProbeGateway, Attempted, SawReady;
    var deadline := Deadline(start, cancelled);
    var lastErr := "no attempt completed";
    var now := start;
    log := [];
    while true
      invariant start <= now && Chained(start, deadline, gateway, log)
      invariant log == [] ==> now == start && lastErr == "no attempt completed"
      invariant log != [] ==>
                  var last := log[|log| - 1];
                  && !SawReady(last) && !SawRejection(last) && now == NextAt(start, last) && start < deadline
                  && last.at + last.took <= now && lastErr == ProbeGateway(last.health, last.capabilities).0
      invariant |log| <= Fired(start, now)
      decreases Fired(start, deadline) + 1 - |log|
    {
      if now >= deadline {
        break;
      }
      var a := Attempted(gateway, now, deadline);
      var (reason, final) := ProbeGateway(a.health, a.capabilities);
      ProbeTellsCasesApart(a);
      ChainExtends(start, deadline, gateway, log, a);
      lastErr := reason;
      log := log + [a];
      now := a.at + a.took;
      if final.Some? {
        return Rejected(final.value), log, now;
      }
      if reason == "" {
        return Ready, log, now;
      }
      if Fired(start, now) == Fired(start, a.at) {
        // The slot is empty: wait for the next tick or the end of the budget.
        now := start + (Fired(start, now) + 1) * POLL_INTERVAL;
      }
      assert now == NextAt(start, a);
    }
    verdict := NotReady(lastErr);
    end := if start >= deadline then start else deadline;
  }

  lemma ChainExtends(start: int, deadline: int, gateway: int -> Gateway, log: seq<Attempt>, a: Attempt)
    requires Chained(start, deadline, gateway, log) && a.at < deadline && a == Attempted(gateway, a.at, deadline)
    requires log == [] ==> a.at == start
    requires log != [] ==>
               var last := log[|log| - 1]; !SawReady(last) && !SawRejection(last) && a.at == NextAt(start, last)
    ensures Chained(start, deadline, gateway, log + [a])
  {
  }

  function Deadline(start: int, cancelled: Option<int>): (deadline: int)
    ensures deadline <= start + BUDGET && (cancelled.Some? ==> deadline <= cancelled.value)
    ensures deadline == start + BUDGET || cancelled == Some(deadline)
  {
    match cancelled
    case None => start + BUDGET
    case Some(t) => Min(start + BUDGET, t)
  }

  // --- What every run keeps ---

  /** The i-th retry waits for at least i ticks: attempts cannot bunch up. */
  lemma {:induction false} AttemptsArePaced(
      start: int, deadline: int, gateway: int -> Gateway, log: seq<Attempt>, i: nat)
    requires Chained(start, deadline, gateway, log) && i < |log|
    ensures log[i].at >= start && Fired(start, log[i].at) >= i
  {
    if i == 0 {
    } else {
      AttemptsArePaced(start, deadline, gateway, log, i - 1);
      var before := log[i - 1];
      assert log[(i - 1) + 1].at == NextAt(start, before);
    }
  }

  /** At most one attempt for each second of the budget, the last of them begun
      before the deadline. */
  lemma AttemptsAreBounded(
      start: int, deadline: int, gateway: int -> Gateway, log: seq<Attempt>, end: int, verdict: Verdict)
    requires IsRun(start, deadline, gateway, log, end, verdict) && deadline <= start + BUDGET
    ensures |log| <= 60
    ensures log != [] ==> (|log| - 1) * POLL_INTERVAL < deadline - start
    ensures start <= end && (start < deadline ==> end <= deadline)
  {
    if log != [] {
      AttemptsArePaced(start, deadline, gateway, log, |log| - 1);
    }
  }

  /** A gateway that is never up, and says so at once. */
  function NeverUp(t: int): Gateway {
    Gateway(Healthy(NotServing), 0, Accepted, 0)
  }

  lemma {:induction false} NeverUpIsAskedEachTick(start: int, deadline: int, log: seq<Attempt>, i: nat)
    requires Chained(start, deadline, NeverUp, log) && i < |log|
    ensures log[i].at == start + i * POLL_INTERVAL && log[i].at < deadline
    ensures log[i] == Attempted(NeverUp, log[i].at, deadline)
  {
    if i == 0 {
    } else {
      NeverUpIsAskedEachTick(start, deadline, log, i - 1);
      assert log[(i - 1) + 1].at == NextAt(start, log[i - 1]);
    }
  }

  /** The bound is met: with the whole budget, that gateway is asked sixty times. */
  lemma SixtyAttemptsAreMade(start: int, log: seq<Attempt>, end: int, verdict: Verdict)
    requires IsRun(start, Deadline(start, None), NeverUp, log, end, verdict)
    ensures |log| == 60 && end == start + 60 * POLL_INTERVAL
  {
    NeverUpIsAskedEachTick(start, Deadline(start, None), log, |log| - 1);
    AttemptsAreBounded(start, Deadline(start, None), NeverUp, log, end, verdict);
  }

  /** A retry begins within one probe timeout of the attempt before it. */
  lemma RetriesComeSoon(start: int, deadline: int, gateway: int -> Gateway, log: seq<Attempt>, i: nat)
    requires Chained(start, deadline, gateway, log) && i < |log|
    ensures log[i].at < NextAt(start, log[i]) <= log[i].at + PROBE_TIMEOUT
  {
    AttemptsArePaced(start, deadline, gateway, log, i);
    assert log[i] == Attempted(gateway, log[i].at, deadline);
  }

  predicate WouldAccept(g: Gateway, within: int) {
    g.health == Healthy(Serving) && g.capabilities == Accepted && g.healthTakes + g.capabilitiesTakes <= within
  }

  /** An attempt begun on a gateway that accepts within the time left sees it. */
  lemma AcceptedIsSeen(deadline: int, gateway: int -> Gateway, a: Attempt, takes: nat)
    requires a.at < deadline && a == Attempted(gateway, a.at, deadline)
    requires WouldAccept(gateway(a.at), takes) && takes <= PROBE_TIMEOUT && a.at + takes <= deadline
    ensures SawReady(a)
  {
  }

  // --- How early a gateway has to be up ---

  /** The latest that an attempt can first begin at or after some moment: at once
      when the wait has not begun, after one whole timeout when it has lasted no
      tick, else a timeout after an attempt that only just missed it. */
  function Latest(start: int, from: int): int {
    if from <= start then start
    else if from <= start + POLL_INTERVAL then start + PROBE_TIMEOUT
    else from - 1 + PROBE_TIMEOUT
  }

  lemma NextIsByLatest(start: int, deadline: int, gateway: int -> Gateway, log: seq<Attempt>, from: int, i: nat)
    requires Chained(start, deadline, gateway, log) && i < |log| && log[i].at < from
    ensures NextAt(start, log[i]) <= Latest(start, from)
  {
    RetriesComeSoon(start, deadline, gateway, log, i);
    AttemptsArePaced(start, deadline, gateway, log, i);
  }

  /** When an attempt begins at or after some moment, the first that does begins
      by then. */
  lemma {:induction false} SomeAttemptComesSoon(
      start: int, deadline: int, gateway: int -> Gateway, log: seq<Attempt>, from: int, i: nat)
      returns (k: nat)
    requires Chained(start, deadline, gateway, log) && i < |log| && from <= log[i].at
    ensures k <= i && from <= log[k].at <= Latest(start, from)
    decreases i
  {
    if i == 0 {
      k := 0;
    } else if log[i - 1].at < from {
      NextIsByLatest(start, deadline, gateway, log, from, i - 1);
      assert log[(i - 1) + 1].at == NextAt(start, log[i - 1]);
      k := i;
    } else {
      k := SomeAttemptComesSoon(start, deadline, gateway, log, from, i - 1);
    }
  }

  /** What is left for an answer after the latest first attempt is enough. */
  predicate UpInTime(start: int, deadline: int, from: int, takes: nat) {
    takes <= PROBE_TIMEOUT && Latest(start, from) < deadline && Latest(start, from) + takes <= deadline
  }

  /** A gateway up in time is found by every run, and has to accept no longer than
      until that latest attempt begins. */
  lemma UpInTimeIsFound(
      start: int, deadline: int, gateway: int -> Gateway, log: seq<Attempt>, end: int, verdict: Verdict,
      from: int, takes: nat)
    requires IsRun(start, deadline, gateway, log, end, verdict)
    requires UpInTime(start, deadline, from, takes)
    requires forall t :: from <= t <= Latest(start, from) ==> WouldAccept(gateway(t), takes)
    ensures !verdict.NotReady?
  {
    if verdict.NotReady? {
      if log[|log| - 1].at < from {
        NextIsByLatest(start, deadline, gateway, log, from, |log| - 1);
      }
      var k := SomeAttemptComesSoon(start, deadline, gateway, log, from, |log| - 1);
      AcceptedIsSeen(deadline, gateway, log[k], takes);
      assert false;
    }
  }

  /** Every start of a run goes on to its end: there is a run on every gateway. */
  lemma RunGoesOn(start: int, deadline: int, gateway: int -> Gateway, log: seq<Attempt>)
      returns (full: seq<Attempt>, end: int, verdict: Verdict)
    requires start < deadline && Chained(start, deadline, gateway, log) && log != []
    ensures IsRun(start, deadline, gateway, full, end, verdict)
    decreases deadline - log[|log| - 1].at
  {
    hide ProbeGateway, Attempted;
    var last := log[|log| - 1];
    full := log;
    if SawReady(last) {
      end, verdict := last.at + last.took, Ready;
    } else if SawRejection(last) {
      end, verdict := last.at + last.took, Rejected(OfStatus(last.capabilities.status));
    } else if NextAt(start, last) >= deadline {
      end, verdict := deadline, NotReady(ProbeGateway(last.health, last.capabilities).0);
    } else {
      var a := Attempted(gateway, NextAt(start, last), deadline);
      RetriesComeSoon(start, deadline, gateway, log, |log| - 1);
      ChainExtends(start, deadline, gateway, log, a);
      full, end, verdict := RunGoesOn(start, deadline, gateway, log + [a]);
    }
  }

  lemma RunExists(start: int, deadline: int, gateway: int -> Gateway)
      returns (log: seq<Attempt>, end: int, verdict: Verdict)
    ensures IsRun(start, deadline, gateway, log, end, verdict)
  {
    if start >= deadline {
      log, end, verdict := [], start, NotReady("no attempt completed");
    } else {
      log, end, verdict := RunGoesOn(start, deadline, gateway, [Attempted(gateway, start, deadline)]);
    }
  }

  /** When the gateway below takes its last caller before it is up. */
  function LastHeld(start: int, from: int): int {
    if from <= start + POLL_INTERVAL then start else from - 1
  }

  /** How long it keeps a caller: a tick or two, so that one arrives just before
      it is up, and that one for good. */
  function Hold(start: int, from: int, t: int): nat {
    var left := LastHeld(start, from) - t;
    if left <= 0 then PROBE_TIMEOUT + 1
    else if left >= 2 * POLL_INTERVAL then POLL_INTERVAL
    else left
  }

  /** The gateway that is hardest to find: it accepts everyone from some moment on,
      taking the same time over each, and steers the attempts before that. */
  function HardToFind(start: int, from: int, takes: nat): int -> Gateway {
    (t: int) =>
      if t >= from then Gateway(Healthy(Serving), takes, Accepted, 0)
      else Gateway(Healthy(NotServing), Hold(start, from, t), Accepted, 0)
  }

  /** The moments attempts on that gateway begin at. */
  predicate Steered(start: int, from: int, t: int) {
    || t == Latest(start, from)
    || (from > start && (t == LastHeld(start, from) || t + POLL_INTERVAL <= LastHeld(start, from)))
  }

  lemma TickFires(start: int, t: int, s: int)
    requires s >= POLL_INTERVAL
    ensures Fired(start, t + s) > Fired(start, t)
  {
  }

  lemma AttemptIsSteered(start: int, deadline: int, from: int, takes: nat, a: Attempt)
    requires start <= a.at < deadline && a == Attempted(HardToFind(start, from, takes), a.at, deadline)
    requires takes <= PROBE_TIMEOUT ==> Steered(start, from, a.at)
    requires !UpInTime(start, deadline, from, takes)
    ensures !SawReady(a) && !SawRejection(a)
    ensures takes <= PROBE_TIMEOUT ==> NextAt(start, a) >= deadline || Steered(start, from, NextAt(start, a))
  {
    if a.took >= POLL_INTERVAL {
      TickFires(start, a.at, a.took);
    }
  }

  lemma {:induction false} AttemptsAreSteered(
      start: int, deadline: int, from: int, takes: nat, log: seq<Attempt>, i: nat)
    requires Chained(start, deadline, HardToFind(start, from, takes), log) && i < |log|
    requires !UpInTime(start, deadline, from, takes)
    ensures start <= log[i].at && (takes <= PROBE_TIMEOUT ==> Steered(start, from, log[i].at))
    ensures !SawReady(log[i]) && !SawRejection(log[i])
  {
    var gateway := HardToFind(start, from, takes);
    AttemptsArePaced(start, deadline, gateway, log, i);
    if i == 0 {
    } else {
      AttemptsAreSteered(start, deadline, from, takes, log, i - 1);
      AttemptIsSteered(start, deadline, from, takes, log[i - 1]);
      assert log[(i - 1) + 1].at == NextAt(start, log[i - 1]);
    }
    AttemptIsSteered(start, deadline, from, takes, log[i]);
  }

  ghost predicate AcceptsFrom(gateway: int -> Gateway, from: int, takes: nat) {
    forall t :: t >= from ==> WouldAccept(gateway(t), takes)
  }

  lemma NotInTimeIsMissed(start: int, deadline: int, from: int, takes: nat)
      returns (log: seq<Attempt>, end: int, verdict: Verdict)
    requires !UpInTime(start, deadline, from, takes)
    ensures AcceptsFrom(HardToFind(start, from, takes), from, takes)
    ensures IsRun(start, deadline, HardToFind(start, from, takes), log, end, verdict) && verdict.NotReady?
  {
    log, end, verdict := RunExists(start, deadline, HardToFind(start, from, takes));
    if log != [] {
      AttemptsAreSteered(start, deadline, from, takes, log, |log| - 1);
    }
  }

  /** Every wait on every gateway that accepts whoever asks from some moment on,
      within some time, finds it. */
  ghost predicate AlwaysFound(start: int, deadline: int, from: int, takes: nat) {
    forall gateway: int -> Gateway, log: seq<Attempt>, end: int, verdict: Verdict ::
      AcceptsFrom(gateway, from, takes) && IsRun(start, deadline, gateway, log, end, verdict) ==> !verdict.NotReady?
  }

  /** Exactly how early is early enough: a gateway that comes up late is sure to
      be found if and only if the latest first attempt still leaves it the time it
      takes to answer. */
  lemma LateGatewayIsFound(start: int, deadline: int, from: int, takes: nat)
    ensures AlwaysFound(start, deadline, from, takes) <==> UpInTime(start, deadline, from, takes)
  {
    hide IsRun, WouldAccept, UpInTime;
    if UpInTime(start, deadline, from, takes) {
      forall gateway: int -> Gateway, log: seq<Attempt>, end: int, verdict: Verdict
        | AcceptsFrom(gateway, from, takes) && IsRun(start, deadline, gateway, log, end, verdict)
        ensures !verdict.NotReady?
      {
        UpInTimeIsFound(start, deadline, gateway, log, end, verdict, from, takes);
      }
    } else {
      var log, end, verdict := NotInTimeIsMissed(start, deadline, from, takes);
    }
  }

  const SECOND := 1_000_000_000

  /** So a gateway that is up after one second and takes three over an answer can
      be missed by a wait of less than eight seconds, and by no longer one. */
  lemma SlowGatewayIsMissed(start: int, deadline: int)
    ensures AlwaysFound(start, deadline, start + SECOND, 3 * SECOND) <==> deadline >= start + 8 * SECOND
  {
    LateGatewayIsFound(start, deadline, start + SECOND, 3 * SECOND);
    hide AlwaysFound;
  }

  // --- What the gateway itself said ---

  /** The time an attempt begun now may take. */
  function Limit(at: int, deadline: int): int {
    if deadline - at < PROBE_TIMEOUT then deadline - at else PROBE_TIMEOUT
  }

  predicate WouldReject(g: Gateway, within: int, status: Status) {
    && g.health == Healthy(Serving) && g.healthTakes + g.capabilitiesTakes <= within
    && g.capabilities == CapabilitiesError(status) && status.code == GrpcUnauthenticated
  }

  /** The text by which an attempt on this gateway fails: the first of its two calls
      that goes wrong or does not fit gives it. */
  predicate FailsWith(g: Gateway, within: int, reason: string) {
    if g.healthTakes > within then reason == StatusText(Status(GrpcDeadlineExceeded, "context deadline exceeded"))
    else
      match g.health
      case HealthError(status) => reason == StatusText(status)
      case Healthy(h) =>
        if h != Serving then reason == "health status " + HealthName(h)
        else if g.healthTakes + g.capabilitiesTakes > within then
          reason == StatusText(Status(GrpcDeadlineExceeded, "context deadline exceeded"))
        else
          match g.capabilities
          case Accepted => false
          case CapabilitiesError(status) => status.code != GrpcUnauthenticated && reason == StatusText(status)
  }

  lemma HealthNamesDiffer(a: Health, b: Health)
    ensures HealthName(a) == HealthName(b) <==> a == b
  {
  }

  /** What an attempt sees is what the gateway answers it in time, no more and no
      less, and it lasts as long as the calls it makes. */
  lemma AttemptSeesTheGateway(gateway: int -> Gateway, at: int, deadline: int)
    requires at < deadline
    ensures var a, g, limit := Attempted(gateway, at, deadline), gateway(at), Limit(at, deadline);
            && (SawReady(a) <==> WouldAccept(g, limit))
            && (SawRejection(a) <==> exists status :: WouldReject(g, limit, status))
            && (SawRejection(a) ==> WouldReject(g, limit, a.capabilities.status))
            && (!SawReady(a) && !SawRejection(a) ==>
                  FailsWith(g, limit, ProbeGateway(a.health, a.capabilities).0))
            && a.took == (if g.healthTakes > limit then limit
                          else if g.health != Healthy(Serving) then g.healthTakes
                          else if g.healthTakes + g.capabilitiesTakes > limit then limit
                          else g.healthTakes + g.capabilitiesTakes)
  {
    var a, g, limit := Attempted(gateway, at, deadline), gateway(at), Limit(at, deadline);
    if SawRejection(a) {
      assert WouldReject(g, limit, a.capabilities.status);
    }
  }

  /** The verdict is the gateway's own: it was ready when last asked, it did refuse
      the credential then, or the text says how it failed then; and until that last
      attempt it neither accepted nor refused in time. */
  lemma VerdictIsAnswered(
      start: int, deadline: int, gateway: int -> Gateway, log: seq<Attempt>, end: int, verdict: Verdict)
    requires IsRun(start, deadline, gateway, log, end, verdict)
    ensures log == [] <==> start >= deadline
    ensures log == [] ==> verdict == NotReady("no attempt completed")
    ensures log != [] ==>
              var at := log[|log| - 1].at;
              match verdict
              case Ready => WouldAccept(gateway(at), Limit(at, deadline))
              case Rejected(err) => err.OfStatus? && WouldReject(gateway(at), Limit(at, deadline), err.status)
              case NotReady(reason) => FailsWith(gateway(at), Limit(at, deadline), reason)
    ensures forall i, status :: 0 <= i < |log| - 1 ==>
              && !WouldAccept(gateway(log[i].at), Limit(log[i].at, deadline))
              && !WouldReject(gateway(log[i].at), Limit(log[i].at, deadline), status)
  {
    hide Attempted, WouldAccept, WouldReject, FailsWith, SawReady;
    forall i | 0 <= i < |log|
      ensures log[i].at < deadline && log[i] == Attempted(gateway, log[i].at, deadline)
      ensures SawReady(log[i]) <==> WouldAccept(gateway(log[i].at), Limit(log[i].at, deadline))
    {
      AttemptSeesTheGateway(gateway, log[i].at, deadline);
    }
    forall i, status | 0 <= i < |log| - 1
      ensures !WouldReject(gateway(log[i].at), Limit(log[i].at, deadline), status)
    {
      AttemptSeesTheGateway(gateway, log[i].at, deadline);
    }
    if log != [] {
      AttemptSeesTheGateway(gateway, log[|log| - 1].at, deadline);
    }
  }

  /** Ready is only ever the last attempt's own observation, and a rejected
      credential ends the wait: nothing is probed after it. */
  lemma VerdictIsLastSeen(
      start: int, deadline: int, gateway: int -> Gateway, log: seq<Attempt>, end: int, verdict: Verdict)
    requires IsRun(start, deadline, gateway, log, end, verdict)
    ensures verdict.Ready? <==> log != [] && SawReady(log[|log| - 1])
    ensures verdict.Rejected? <==> log != [] && SawRejection(log[|log| - 1])
    ensures forall i :: 0 <= i < |log| && SawRejection(log[i]) ==> i == |log| - 1
  {
  }
}
