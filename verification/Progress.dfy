/** Why every call returns: with no new calls coming in, whatever the schedule, the
    callers come to rest, and at rest every call has returned. */
module Progress {
  import opened Wrappers
  import opened FlatCatalog
  import opened MemBackend
  import opened Linearizability
  import opened LinearizabilityProof

  // --- A measure over all calls ---

  ghost function Pick(calls: map<Id, CallState>): (id: Id)
    requires |calls| > 0
    ensures id in calls
  {
    assert calls.Keys != {};
    var id :| id in calls;
    id
  }

  lemma OneFewer(calls: map<Id, CallState>, id: Id)
    requires id in calls
    ensures |calls - {id}| < |calls|
  {
    assert (calls - {id}).Keys == calls.Keys - {id};
  }

  /** The weights of all calls together. */
  ghost function Weight(calls: map<Id, CallState>, w: Phase -> nat): nat
    decreases |calls|
  {
    if |calls| == 0 then 0
    else
      var id := Pick(calls);
      OneFewer(calls, id);
      w(calls[id].phase) + Weight(calls - {id}, w)
  }

  lemma {:induction false} WeightSplits(calls: map<Id, CallState>, w: Phase -> nat, id: Id)
    requires id in calls
    ensures Weight(calls, w) == w(calls[id].phase) + Weight(calls - {id}, w)
    decreases |calls|
  {
    OneFewer(calls, id);
    var first := Pick(calls);
    if first != id {
      OneFewer(calls, first);
      WeightSplits(calls - {first}, w, id);
      WeightSplits(calls - {id}, w, first);
      assert calls - {first} - {id} == calls - {id} - {first};
    }
  }

  /** Moving one call moves the total by as much. */
  lemma WeightMoves(calls: map<Id, CallState>, w: Phase -> nat, id: Id, c: CallState)
    requires id in calls
    ensures Weight(calls[id := c], w) + w(calls[id].phase) == Weight(calls, w) + w(c.phase)
  {
    WeightSplits(calls, w, id);
    WeightSplits(calls[id := c], w, id);
    assert calls[id := c] - {id} == calls - {id};
  }

  function Waiting(p: Phase): nat { if p.Invoked? then 1 else 0 }

  function Starting(p: Phase): nat { if p == Running(Begin) then 1 else 0 }

  /** Steps left to a call that is past its first: a walk's are counted when it
      begins, the maps being what they are only then. */
  function Left(p: Phase): nat {
    match p
    case Invoked => 0
    case Running(local) => LeftInBody(local)
    case Answered(_) => 2
    case Released(_) => 1
    case Returned(_) => 0
  }

  function LeftInBody(local: Local): nat {
    match local
    case Begin => 0
    case WalkDatasets(rest, _) => |rest| + 3
    case WalkTables(rest, _) => |rest| + 3
    case DatasetSeen => 4
    case DatasetStored(_) => 3
    case DatasetDeleted => 3
    case TableMissing(_) => 3
    case TableSeen => 3
  }

  lemma BodyDescends(m: Mem, cmd: Command, local: Local, choice: Choice)
    ensures match Body(m, cmd, local, choice)
            case Goes(_, next) => next != Begin && (local == Begin || LeftInBody(next) < LeftInBody(local))
            case _ => true
    ensures local != Begin ==> LeftInBody(local) > 2
  {
  }

  /** What a step leaves to do is less, by callers yet to take the lock, then by
      bodies yet to begin, then by steps. */
  predicate Descends(a: (nat, nat, nat), b: (nat, nat, nat)) {
    a.0 < b.0 || (a.0 == b.0 && (a.1 < b.1 || (a.1 == b.1 && a.2 < b.2)))
  }

  ghost function ToDo(s: System): (nat, nat, nat) {
    (Weight(s.calls, Waiting), Weight(s.calls, Starting), Weight(s.calls, Left))
  }

  lemma PhaseDescends(s: System, a: Action, s': System)
    requires !a.Invoke? && Perform(s, a) == Some(s') && !s'.crashed
    ensures a.id in s.calls && a.id in s'.calls && s'.calls == s.calls[a.id := s'.calls[a.id]]
    ensures var p, q := s.calls[a.id].phase, s'.calls[a.id].phase;
            Descends((Waiting(q), Starting(q), Left(q)), (Waiting(p), Starting(p), Left(p)))
  {
    if a.Work? {
      BodyDescends(s.mem, s.calls[a.id].cmd, s.calls[a.id].phase.local, a.choice);
    }
    hide Body;
  }

  lemma StepDescends(s: System, a: Action, s': System)
    requires !a.Invoke? && Perform(s, a) == Some(s') && !s'.crashed
    ensures Descends(ToDo(s'), ToDo(s)) && s'.calls.Keys == s.calls.Keys
  {
    PhaseDescends(s, a, s');
    hide Perform, Waiting, Starting, Left;
    WeightMoves(s.calls, Waiting, a.id, s'.calls[a.id]);
    WeightMoves(s.calls, Starting, a.id, s'.calls[a.id]);
    WeightMoves(s.calls, Left, a.id, s'.calls[a.id]);
  }

  /** One more step of a run, no new call beginning. */
  lemma RunDescends(run: seq<Action>, a: Action)
    requires Reach(run).Some? && !a.Invoke? && Perform(Reach(run).value, a).Some?
    ensures Reach(run + [a]) == Perform(Reach(run).value, a)
    ensures var s, s' := Reach(run).value, Reach(run + [a]).value;
            Descends(ToDo(s'), ToDo(s)) && s'.calls.Keys == s.calls.Keys
  {
    hide Perform, Reach, ToDo;
    ReachOneMore(run, a);
    NoPanicNoRace(run + [a], a.id, a.id);
    StepDescends(Reach(run).value, a, Reach(run + [a]).value);
  }

  // --- The results ---

  predicate AllReturned(s: System) {
    forall id :: id in s.calls ==> s.calls[id].phase.Returned?
  }

  /** The n-th action of a schedule is a step of the callers already there. */
  ghost predicate Moves(states: nat -> System, actions: nat -> Action, n: nat) {
    !actions(n).Invoke? && Perform(states(n), actions(n)) == Some(states(n + 1))
  }

  /** No schedule goes on for ever without a new call. */
  lemma EveryScheduleRests(run: seq<Action>, states: nat -> System, actions: nat -> Action, n: nat)
      returns (rest: nat)
    requires Reach(run) == Some(states(n))
    ensures n <= rest && !Moves(states, actions, rest)
    decreases ToDo(states(n)).0, ToDo(states(n)).1, ToDo(states(n)).2
  {
    hide Reach, Perform, ToDo;
    if Moves(states, actions, n) {
      RunDescends(run, actions(n));
      rest := EveryScheduleRests(run + [actions(n)], states, actions, n + 1);
    } else {
      rest := n;
    }
  }

  /** And where nothing more can move, every call has returned. */
  lemma RestMeansReturned(run: seq<Action>)
    requires Reach(run).Some?
    requires forall a: Action :: !a.Invoke? ==> Perform(Reach(run).value, a).None?
    ensures AllReturned(Reach(run).value)
  {
    hide Reach, Perform;
    var s := Reach(run).value;
    forall id | id in s.calls ensures s.calls[id].phase.Returned? {
      if !s.calls[id].phase.Returned? {
        var a := SomeCallCanMove(run, id);
        assert false;
      }
    }
  }

  /** From wherever the callers are, some finite run returns every call. */
  lemma EveryCallCanReturn(run: seq<Action>) returns (more: seq<Action>)
    requires Reach(run).Some?
    ensures forall a :: a in more ==> !a.Invoke?
    ensures Reach(run + more).Some? && AllReturned(Reach(run + more).value)
    ensures Reach(run + more).value.calls.Keys == Reach(run).value.calls.Keys
    decreases ToDo(Reach(run).value).0, ToDo(Reach(run).value).1, ToDo(Reach(run).value).2
  {
    hide Reach, Perform, ToDo;
    var s := Reach(run).value;
    if AllReturned(s) {
      more := [];
      assert run + more == run;
    } else {
      var id :| id in s.calls && !s.calls[id].phase.Returned?;
      var a := SomeCallCanMove(run, id);
      RunDescends(run, a);
      more := EveryCallCanReturn(run + [a]);
      assert run + [a] + more == run + ([a] + more);
      more := [a] + more;
    }
  }
}
