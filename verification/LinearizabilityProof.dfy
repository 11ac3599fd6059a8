/** Why every interleaving has a linearization: a call takes effect when its
    body finishes, and the lock keeps the half-done states of one writer out of
    every other body. */
module LinearizabilityProof {
  import opened Wrappers
  import opened FlatCatalog
  import opened MemBackend
  import opened Linearizability
  import Ordering

  // --- One body, seen from the catalog it started from ---

  ghost predicate Settled(m: Mem, base: Catalog) {
    Coherent(m) && Flat(m) == base
  }

  ghost predicate WalkedDatasets(m: Mem, rest: set<string>, out: seq<Dataset>) {
    && rest <= m.datasets.Keys
    && Ordering.Elements(Ordering.KeysOf(out, DatasetKey)) == m.datasets.Keys - rest
    && Ordering.Distinct(Ordering.KeysOf(out, DatasetKey))
    && forall i :: 0 <= i < |out| ==> out[i].name in m.datasets && out[i] == m.datasets[out[i].name]
  }

  ghost predicate WalkedTables(tabs: map<string, Table>, rest: set<string>, out: seq<TableInfo>) {
    && rest <= tabs.Keys
    && Ordering.Elements(Ordering.KeysOf(out, InfoKey)) == tabs.Keys - rest
    && Ordering.Distinct(Ordering.KeysOf(out, InfoKey))
    && forall i :: 0 <= i < |out| ==> out[i].ref.table in tabs && out[i] == tabs[out[i].ref.table].schema.info
  }

  /** The maps as a body that began on `base` leaves them at this point. */
  ghost predicate BodyOk(m: Mem, base: Catalog, cmd: Command, local: Local) {
    match local
    case Begin => Settled(m, base) && !IsCtas(cmd)
    case WalkDatasets(rest, out) =>
      Settled(m, base) && cmd.ListDatasets? && WalkedDatasets(m, rest, out)
    case WalkTables(rest, out) =>
      Settled(m, base) && cmd.ListTables? && cmd.dataset in m.tables && WalkedTables(m.tables[cmd.dataset], rest, out)
    case DatasetStored(d) =>
      && cmd.CreateDataset? && cmd.name !in base.datasets && d == NewDataset(cmd.name, cmd.datasetOptions)
      && m.datasets == base.datasets[cmd.name := d] && Settled(Mem(base.datasets, m.tables), base)
    case DatasetDeleted =>
      && cmd.DropDataset? && cmd.name in base.datasets && (RefsIn(base, cmd.name) == {} || cmd.cascade)
      && m.datasets == base.datasets - {cmd.name} && Settled(Mem(base.datasets, m.tables), base)
    case DatasetSeen =>
      Settled(m, base) && cmd.CreateTable? && !IsCtas(cmd) && cmd.ref.dataset in base.datasets
    case TableMissing(_) =>
      && Settled(m, base) && cmd.CreateTable? && !IsCtas(cmd)
      && cmd.ref.dataset in base.datasets && cmd.ref !in base.tables
    case TableSeen =>
      Settled(m, base) && cmd.DropTable? && cmd.ref in base.tables
  }

  /** The clock reading a finishing body used; only an insert uses one. */
  function CommitTime(local: Local): Time {
    if local.TableMissing? then local.now else 0
  }

  /** What one body step may do: never panic, keep its place, or finish with the
      flat catalog's own next state and answer; and a reader writes nothing. */
  ghost predicate GoodEffect(m: Mem, base: Catalog, cmd: Command, local: Local, effect: Effect) {
    match effect
    case Blocked => true
    case Panics => false
    case Goes(m', next) => BodyOk(m', base, cmd, next) && (!Writes(cmd) ==> m' == m)
    case Finishes(m', reply) =>
      && (!Writes(cmd) ==> m' == m)
      && Coherent(m')
      && Step(base, Call(cmd, CommitTime(local))) == (Flat(m'), reply)
  }

  lemma ListDatasetsStep(m: Mem, base: Catalog, cmd: Command, local: Local, choice: Choice)
    requires cmd.ListDatasets? && BodyOk(m, base, cmd, local)
    ensures GoodEffect(m, base, cmd, local, BodyListDatasets(m, local, choice))
  {
    match local
    case Begin =>
    case WalkDatasets(rest, out) =>
      if rest == {} {
        if multiset(choice.datasets) == multiset(out) && Ordering.SortedBy(choice.datasets, DatasetKey) {
          DatasetListing(m, out, choice.datasets);
        }
      } else if choice.pick in rest {
        Appended(out, m.datasets[choice.pick], DatasetKey);
      }
    case _ =>
  }

  lemma ListTablesStep(m: Mem, base: Catalog, cmd: Command, local: Local, choice: Choice)
    requires cmd.ListTables? && BodyOk(m, base, cmd, local)
    ensures GoodEffect(m, base, cmd, local, BodyListTables(m, cmd.dataset, local, choice))
  {
    match local
    case Begin =>
    case WalkTables(rest, out) =>
      if rest == {} {
        if multiset(choice.tables) == multiset(out) && Ordering.SortedBy(choice.tables, InfoKey) {
          TableListing(m, cmd.dataset, out, choice.tables);
        }
      } else if choice.pick in rest {
        assert Find(m.tables, TableRef(cmd.dataset, choice.pick)) == Some(m.tables[cmd.dataset][choice.pick]);
        Appended(out, m.tables[cmd.dataset][choice.pick].schema.info, InfoKey);
      }
    case _ =>
  }

  lemma GetTableStep(m: Mem, base: Catalog, cmd: Command, local: Local)
    requires cmd.GetTable? && BodyOk(m, base, cmd, local)
    ensures GoodEffect(m, base, cmd, local, BodyGetTable(m, cmd.ref))
  {
    FindIsFlat(m, cmd.ref);
  }

  lemma CreateDatasetStep(m: Mem, base: Catalog, cmd: Command, local: Local)
    requires cmd.CreateDataset? && BodyOk(m, base, cmd, local)
    ensures GoodEffect(m, base, cmd, local, BodyCreateDataset(m, cmd.name, cmd.datasetOptions, local))
  {
    match local
    case Begin =>
      assert Mem(base.datasets, m.tables) == m;
    case DatasetStored(d) =>
      AddDataset(Mem(base.datasets, m.tables), cmd.name, d);
    case _ =>
  }

  lemma DropDatasetStep(m: Mem, base: Catalog, cmd: Command, local: Local)
    requires cmd.DropDataset? && BodyOk(m, base, cmd, local)
    ensures GoodEffect(m, base, cmd, local, BodyDropDataset(m, cmd.name, cmd.cascade, cmd.ifExists, local))
  {
    match local
    case Begin =>
      assert Mem(base.datasets, m.tables) == m;
      if cmd.name in m.datasets {
        EmptyDataset(m, cmd.name);
        DropStep(m, cmd.name, cmd.cascade, cmd.ifExists, 0);
      }
    case DatasetDeleted =>
      var m0 := Mem(base.datasets, m.tables);
      EmptyDataset(m0, cmd.name);
      DropStep(m0, cmd.name, cmd.cascade, cmd.ifExists, 0);
      assert m.(tables := m.tables - {cmd.name}) == WithoutDataset(m0, cmd.name);
    case _ =>
  }

  lemma CreateTableStep(m: Mem, base: Catalog, cmd: Command, local: Local, choice: Choice)
    requires cmd.CreateTable? && BodyOk(m, base, cmd, local)
    ensures GoodEffect(m, base, cmd, local, BodyCreateTable(m, cmd.ref, cmd.tableOptions, local, choice))
  {
    FindIsFlat(m, cmd.ref);
    match local
    case Begin =>
    case DatasetSeen =>
    case TableMissing(now) =>
      AddTable(m, cmd.ref, Table(NewTable(cmd.ref, cmd.tableOptions, now), now));
    case _ =>
  }

  lemma DropTableStep(m: Mem, base: Catalog, cmd: Command, local: Local)
    requires cmd.DropTable? && BodyOk(m, base, cmd, local)
    ensures GoodEffect(m, base, cmd, local, BodyDropTable(m, cmd.ref, cmd.ifExists, local))
  {
    FindIsFlat(m, cmd.ref);
    match local
    case Begin =>
    case TableSeen =>
      RemoveTable(m, cmd.ref);
    case _ =>
  }

  lemma BodyStep(m: Mem, base: Catalog, cmd: Command, local: Local, choice: Choice)
    requires BodyOk(m, base, cmd, local)
    ensures GoodEffect(m, base, cmd, local, Body(m, cmd, local, choice))
  {
    hide BodyOk, GoodEffect, BodyListDatasets, BodyListTables, BodyGetTable;
    hide BodyCreateDataset, BodyDropDataset, BodyCreateTable, BodyDropTable;
    match cmd
    case ListDatasets(_, _) => ListDatasetsStep(m, base, cmd, local, choice);
    case ListTables(_, _, _) => ListTablesStep(m, base, cmd, local, choice);
    case GetTable(_) => GetTableStep(m, base, cmd, local);
    case CreateDataset(_, _) => CreateDatasetStep(m, base, cmd, local);
    case DropDataset(_, _, _) => DropDatasetStep(m, base, cmd, local);
    case CreateTable(_, _) => CreateTableStep(m, base, cmd, local, choice);
    case DropTable(_, _) => DropTableStep(m, base, cmd, local);
  }

  // --- The invariant of the whole system ---

  predicate Inside(phase: Phase) {
    phase.Running? || phase.Answered?
  }

  predicate Decided(phase: Phase) {
    phase.Answered? || phase.Released? || phase.Returned?
  }

  /** The RWMutex: a body runs only under the lock it needs. */
  ghost predicate LockOk(s: System) {
    && (s.writer.Some? ==> s.readers == {})
    && (s.writer.Some? ==> var w := s.writer.value;
                           w in s.calls && Writes(s.calls[w].cmd) && Inside(s.calls[w].phase))
    && (forall id :: id in s.readers ==> id in s.calls && !Writes(s.calls[id].cmd) && Inside(s.calls[id].phase))
    && (forall id :: id in s.calls && Inside(s.calls[id].phase) ==>
          if Writes(s.calls[id].cmd) then s.writer == Some(id) else id in s.readers)
  }

  predicate WriterRunning(s: System) {
    s.writer.Some? && s.writer.value in s.calls && s.calls[s.writer.value].phase.Running?
  }

  /** The maps: settled unless a writer is half way, and every body on course. */
  ghost predicate MemOk(s: System, base: Catalog) {
    && (!WriterRunning(s) ==> Settled(s.mem, base))
    && (forall id :: id in s.calls && s.calls[id].phase.Running? ==>
          BodyOk(s.mem, base, s.calls[id].cmd, s.calls[id].phase.local))
  }

  /** The linearization so far: one entry for each call whose answer is fixed. */
  ghost predicate LinOk(s: System, lin: seq<Entry>) {
    Legal(lin) && RecordsAll(s.calls, lin)
  }

  ghost predicate RecordsAll(calls: map<Id, CallState>, lin: seq<Entry>) {
    && OncePerCall(lin)
    && (forall k :: 0 <= k < |lin| ==> Records(calls, lin[k]))
    && (forall id :: id in calls && Decided(calls[id].phase) ==> Covered(lin, id))
  }

  predicate Covered(lin: seq<Entry>, id: Id) {
    exists k :: 0 <= k < |lin| && lin[k].id == id
  }

  predicate Records(calls: map<Id, CallState>, e: Entry) {
    && e.id in calls && calls[e.id].cmd == e.cmd
    && Decided(calls[e.id].phase) && calls[e.id].phase.reply == e.reply
  }

  ghost predicate HistoryOk(s: System) {
    Tells(s.history, s.calls)
  }

  ghost predicate Tells(history: seq<Event>, calls: map<Id, CallState>) {
    && (forall e :: e in history ==> EventOk(calls, e))
    && (forall id :: id in calls ==> Called(id, calls[id].cmd) in history)
  }

  predicate EventOk(calls: map<Id, CallState>, e: Event) {
    && e.id in calls
    && match e
       case Called(id, cmd) => calls[id].cmd == cmd
       case Replied(id, reply) => calls[id].phase == Returned(reply)
  }

  ghost predicate Inv(s: System, lin: seq<Entry>) {
    && !s.crashed
    && LockOk(s)
    && MemOk(s, Base(lin))
    && LinOk(s, lin)
    && HistoryOk(s)
    && KeepsRealTime(s.history, lin)
  }

  // --- What every step keeps ---

  lemma BaseOneMore(lin: seq<Entry>, e: Entry)
    ensures Base(lin + [e]) == Step(Base(lin), Call(e.cmd, e.now)).0
    ensures forall k :: 0 <= k <= |lin| ==> Base((lin + [e])[..k]) == Base(lin[..k])
  {
    hide Step;
    assert CallsOf(lin + [e]) == CallsOf(lin) + [Call(e.cmd, e.now)];
    assert (CallsOf(lin) + [Call(e.cmd, e.now)])[..|lin|] == CallsOf(lin);
    forall k | 0 <= k <= |lin| ensures Base((lin + [e])[..k]) == Base(lin[..k]) {
      assert (lin + [e])[..k] == lin[..k];
    }
  }

  lemma LegalOneMore(lin: seq<Entry>, e: Entry)
    requires Legal(lin) && Step(Base(lin), Call(e.cmd, e.now)).1 == e.reply
    ensures Legal(lin + [e])
  {
    hide Step, Base;
    var lin' := lin + [e];
    BaseOneMore(lin, e);
    assert lin[..|lin|] == lin;
    forall k | 0 <= k < |lin'|
      ensures Step(Base(lin'[..k]), Call(lin'[k].cmd, lin'[k].now)).1 == lin'[k].reply
    {
      assert k < |lin| ==> lin'[k] == lin[k];
    }
  }

  lemma RecordsOneMore(calls: map<Id, CallState>, lin: seq<Entry>, id: Id, phase: Phase, now: Time)
    requires RecordsAll(calls, lin)
    requires id in calls && !Decided(calls[id].phase) && Decided(phase)
    ensures RecordsAll(calls[id := CallState(calls[id].cmd, phase)], lin + [Entry(id, calls[id].cmd, now, phase.reply)])
  {
    var calls' := calls[id := CallState(calls[id].cmd, phase)];
    var lin' := lin + [Entry(id, calls[id].cmd, now, phase.reply)];
    forall k | 0 <= k < |lin'| ensures Records(calls', lin'[k]) {
      assert k < |lin| ==> Records(calls, lin[k]);
    }
    forall other | other in calls' && Decided(calls'[other].phase) ensures Covered(lin', other) {
      if other == id {
        assert lin'[|lin|].id == id;
      } else {
        assert Covered(lin, other);
        var k :| 0 <= k < |lin| && lin[k].id == other;
        assert lin'[k].id == other;
      }
    }
    forall p, q | 0 <= p < q < |lin'| ensures lin'[p].id != lin'[q].id {
      assert Records(calls, lin[p]);
    }
  }

  /** A call that has not returned and does not now: no event speaks of it. */
  lemma PhaseKeepsTelling(history: seq<Event>, calls: map<Id, CallState>, id: Id, phase: Phase)
    requires Tells(history, calls) && id in calls && !calls[id].phase.Returned?
    ensures Tells(history, calls[id := CallState(calls[id].cmd, phase)])
  {
    forall e | e in history ensures EventOk(calls[id := CallState(calls[id].cmd, phase)], e) {
      assert EventOk(calls, e);
    }
  }

  lemma UnreturnedIsNotBefore(history: seq<Event>, calls: map<Id, CallState>, id: Id, other: Id)
    requires Tells(history, calls) && id in calls && !calls[id].phase.Returned?
    ensures !Before(history, id, other)
  {
    forall i | 0 <= i < |history| && history[i].Replied? ensures history[i].id != id {
      assert EventOk(calls, history[i]);
    }
  }

  /** Fixing the answer of a call extends the linearization at its end. */
  lemma Commit(s: System, lin: seq<Entry>, id: Id, phase: Phase, now: Time)
    requires LinOk(s, lin) && HistoryOk(s) && KeepsRealTime(s.history, lin)
    requires id in s.calls && !Decided(s.calls[id].phase) && Decided(phase)
    requires !phase.Returned?
    requires Step(Base(lin), Call(s.calls[id].cmd, now)).1 == phase.reply
    ensures var s', lin' := SetPhase(s, id, phase), lin + [Entry(id, s.calls[id].cmd, now, phase.reply)];
            LinOk(s', lin') && HistoryOk(s') && KeepsRealTime(s.history, lin')
  {
    hide Step, Base, Tells, RecordsAll, Legal;
    var e := Entry(id, s.calls[id].cmd, now, phase.reply);
    LegalOneMore(lin, e);
    RecordsOneMore(s.calls, lin, id, phase, now);
    PhaseKeepsTelling(s.history, s.calls, id, phase);
    RealTimeOneMore(s, lin, e);
    assert s.calls[id].(phase := phase) == CallState(s.calls[id].cmd, phase);
  }

  lemma RealTimeOneMore(s: System, lin: seq<Entry>, e: Entry)
    requires HistoryOk(s) && KeepsRealTime(s.history, lin)
    requires e.id in s.calls && !s.calls[e.id].phase.Returned?
    ensures KeepsRealTime(s.history, lin + [e])
  {
    hide Before, Tells;
    var lin' := lin + [e];
    forall p, q | 0 <= p < q < |lin'| ensures !Before(s.history, lin'[q].id, lin'[p].id) {
      UnreturnedIsNotBefore(s.history, s.calls, e.id, lin'[p].id);
      assert q < |lin| ==> lin'[q] == lin[q] && lin'[p] == lin[p];
    }
  }

  lemma BeforeOneMore(history: seq<Event>, e: Event, first: Id, second: Id)
    ensures Before(history + [e], first, second) ==>
              Before(history, first, second) || (e.Called? && e.id == second)
  {
    var longer := history + [e];
    if Before(longer, first, second) {
      var i, j :| 0 <= i < j < |longer| && longer[i].Replied? && longer[i].id == first &&
                  longer[j].Called? && longer[j].id == second;
      if j < |history| {
        assert history[i] == longer[i] && history[j] == longer[j];
      }
    }
  }

  /** An event at the end of the history comes before no call in it; and a call
      that has only begun has no place in the linearization yet. */
  lemma EventKeepsRealTime(history: seq<Event>, lin: seq<Entry>, e: Event)
    requires KeepsRealTime(history, lin)
    requires e.Called? ==> !Covered(lin, e.id)
    ensures KeepsRealTime(history + [e], lin)
  {
    forall p, q | 0 <= p < q < |lin| ensures !Before(history + [e], lin[q].id, lin[p].id) {
      BeforeOneMore(history, e, lin[q].id, lin[p].id);
      assert e.Called? && lin[p].id == e.id ==> Covered(lin, e.id);
    }
  }

  /** The phase of an undecided call, or of none, is no entry's business. */
  lemma UndecidedKeepsRecords(calls: map<Id, CallState>, lin: seq<Entry>, id: Id, c: CallState)
    requires RecordsAll(calls, lin)
    requires if id in calls then c.cmd == calls[id].cmd && Decided(calls[id].phase) == Decided(c.phase) &&
                                 (Decided(c.phase) ==> c.phase.reply == calls[id].phase.reply)
             else !Decided(c.phase)
    ensures RecordsAll(calls[id := c], lin)
    ensures id !in calls ==> !Covered(lin, id)
  {
    forall k | 0 <= k < |lin| ensures Records(calls[id := c], lin[k]) {
      assert Records(calls, lin[k]);
    }
    if Covered(lin, id) {
      var k :| 0 <= k < |lin| && lin[k].id == id;
      assert Records(calls, lin[k]);
    }
  }

  lemma InvokeKeepsMem(s: System, base: Catalog, a: Action, s': System)
    requires LockOk(s) && MemOk(s, base) && a.Invoke? && Perform(s, a) == Some(s')
    ensures LockOk(s') && MemOk(s', base)
  {
    hide BodyOk, Settled;
  }

  lemma InvokeKeepsTelling(history: seq<Event>, calls: map<Id, CallState>, id: Id, cmd: Command)
    requires Tells(history, calls) && id !in calls
    ensures Tells(history + [Called(id, cmd)], calls[id := CallState(cmd, Invoked)])
  {
    forall e | e in history + [Called(id, cmd)] ensures EventOk(calls[id := CallState(cmd, Invoked)], e) {
      assert e == Called(id, cmd) || EventOk(calls, e);
    }
  }

  lemma KeepsInvoke(s: System, lin: seq<Entry>, a: Action, s': System)
    requires Inv(s, lin) && a.Invoke? && Perform(s, a) == Some(s')
    ensures Inv(s', lin)
  {
    hide Step, Base, LockOk, MemOk, Legal, RecordsAll, KeepsRealTime, Covered, Tells;
    InvokeKeepsMem(s, Base(lin), a, s');
    UndecidedKeepsRecords(s.calls, lin, a.id, CallState(a.cmd, Invoked));
    EventKeepsRealTime(s.history, lin, Called(a.id, a.cmd));
    InvokeKeepsTelling(s.history, s.calls, a.id, a.cmd);
  }

  lemma KeepsReturn(s: System, lin: seq<Entry>, a: Action, s': System)
    requires Inv(s, lin) && a.Return? && Perform(s, a) == Some(s')
    ensures Inv(s', lin)
  {
    hide Step, Base, BodyOk, Settled, Legal, RecordsAll, KeepsRealTime, Covered, Tells;
    var reply := s.calls[a.id].phase.reply;
    UndecidedKeepsRecords(s.calls, lin, a.id, CallState(s.calls[a.id].cmd, Returned(reply)));
    EventKeepsRealTime(s.history, lin, Replied(a.id, reply));
    ReturnKeepsTelling(s.history, s.calls, a.id, reply);
    assert s'.calls == s.calls[a.id := CallState(s.calls[a.id].cmd, Returned(reply))];
  }

  lemma ReturnKeepsTelling(history: seq<Event>, calls: map<Id, CallState>, id: Id, reply: Reply)
    requires Tells(history, calls) && id in calls && !calls[id].phase.Returned?
    ensures Tells(history + [Replied(id, reply)], calls[id := CallState(calls[id].cmd, Returned(reply))])
  {
    PhaseKeepsTelling(history, calls, id, Returned(reply));
  }

  /** Taking or releasing the lock moves no data and fixes no answer. */
  lemma KeepsLocking(s: System, lin: seq<Entry>, a: Action, s': System)
    requires Inv(s, lin) && (a.Acquire? || a.Release?) && Perform(s, a) == Some(s')
    ensures Inv(s', lin)
  {
    hide Step, Base, Legal, Coherent, Flat, RecordsAll, Tells, KeepsRealTime;
    var c := s.calls[a.id];
    var phase := if a.Acquire? then Running(Begin) else Released(c.phase.reply);
    assert s'.calls == s.calls[a.id := CallState(c.cmd, phase)];
    UndecidedKeepsRecords(s.calls, lin, a.id, CallState(c.cmd, phase));
    PhaseKeepsTelling(s.history, s.calls, a.id, phase);
    LockingKeepsMem(s, Base(lin), a, s');
  }

  lemma LockingKeepsMem(s: System, base: Catalog, a: Action, s': System)
    requires !s.crashed && LockOk(s) && MemOk(s, base)
    requires (a.Acquire? || a.Release?) && Perform(s, a) == Some(s')
    ensures LockOk(s') && MemOk(s', base)
  {
    hide Coherent, Flat, Body;
    if a.Acquire? {
      assert !WriterRunning(s) && BodyOk(s.mem, base, s.calls[a.id].cmd, Begin);
    }
    hide BodyOk, Settled;
  }

  lemma CtasStep(c: Catalog, call: Call)
    requires IsCtas(call.cmd)
    ensures Step(c, call) == (c, CTAS_REFUSED)
  {
  }

  lemma KeepsRefuse(s: System, lin: seq<Entry>, a: Action, s': System) returns (lin': seq<Entry>)
    requires Inv(s, lin) && a.Refuse? && Perform(s, a) == Some(s')
    ensures Inv(s', lin')
  {
    hide Step, Base, BodyOk, Settled, Legal, RecordsAll, Tells, KeepsRealTime;
    var cmd := s.calls[a.id].cmd;
    CtasStep(Base(lin), Call(cmd, 0));
    Commit(s, lin, a.id, Released(CTAS_REFUSED), 0);
    BaseOneMore(lin, Entry(a.id, cmd, 0, CTAS_REFUSED));
    lin' := lin + [Entry(a.id, cmd, 0, CTAS_REFUSED)];
  }

  lemma KeepsWork(s: System, lin: seq<Entry>, a: Action, s': System) returns (lin': seq<Entry>)
    requires Inv(s, lin) && a.Work? && Perform(s, a) == Some(s')
    ensures Inv(s', lin')
  {
    hide Step, Base, BodyOk, Settled, Body, Legal, RecordsAll, Tells, KeepsRealTime;
    var cmd, local := s.calls[a.id].cmd, s.calls[a.id].phase.local;
    var effect := Body(s.mem, cmd, local, a.choice);
    BodyStep(s.mem, Base(lin), cmd, local, a.choice);
    match effect
    case Blocked =>
      lin' := lin;
    case Panics =>
      lin' := lin;
    case Goes(mem, next) =>
      lin' := lin;
      MovesKeepRest(s, lin, a.id, Running(next));
      RunningKeepsMem(s, lin, a.id, mem, next);
    case Finishes(mem, reply) =>
      Commit(s, lin, a.id, Answered(reply), CommitTime(local));
      BaseOneMore(lin, Entry(a.id, cmd, CommitTime(local), reply));
      lin' := lin + [Entry(a.id, cmd, CommitTime(local), reply)];
      FinishingKeepsMem(s, lin, a.id, mem, reply);
  }

  lemma MovesKeepRest(s: System, lin: seq<Entry>, id: Id, phase: Phase)
    requires Inv(s, lin) && id in s.calls && s.calls[id].phase.Running? && phase.Running?
    ensures var s' := SetPhase(s, id, phase); LockOk(s') && LinOk(s', lin) && HistoryOk(s')
  {
    hide Base, Legal, BodyOk, Settled, RecordsAll, Tells;
    UndecidedKeepsRecords(s.calls, lin, id, CallState(s.calls[id].cmd, phase));
    PhaseKeepsTelling(s.history, s.calls, id, phase);
    assert s.calls[id].(phase := phase) == CallState(s.calls[id].cmd, phase);
  }

  lemma RunningKeepsMem(s: System, lin: seq<Entry>, id: Id, mem: Mem, next: Local)
    requires LockOk(s) && MemOk(s, Base(lin))
    requires id in s.calls && s.calls[id].phase.Running?
    requires BodyOk(mem, Base(lin), s.calls[id].cmd, next)
    requires !Writes(s.calls[id].cmd) ==> mem == s.mem
    ensures MemOk(SetPhase(s, id, Running(next)).(mem := mem), Base(lin))
  {
    hide Step, Base, BodyOk, Settled;
  }

  lemma FinishingKeepsMem(s: System, lin: seq<Entry>, id: Id, mem: Mem, reply: Reply)
    requires LockOk(s) && MemOk(s, Base(lin))
    requires id in s.calls && s.calls[id].phase.Running?
    requires GoodEffect(s.mem, Base(lin), s.calls[id].cmd, s.calls[id].phase.local, Finishes(mem, reply))
    ensures var s' := SetPhase(s, id, Answered(reply)).(mem := mem);
            var now := CommitTime(s.calls[id].phase.local);
            LockOk(s') && MemOk(s', Step(Base(lin), Call(s.calls[id].cmd, now)).0)
  {
    hide Step, Base, BodyOk, Flat, Coherent;
    var cmd, now := s.calls[id].cmd, CommitTime(s.calls[id].phase.local);
    if !Writes(cmd) {
      ReadsChangeNothing(Base(lin), Call(cmd, now));
    }
  }

  lemma ReadsChangeNothing(c: Catalog, call: Call)
    requires !Writes(call.cmd)
    ensures Step(c, call).0 == c
  {
  }

  lemma {:induction false} ReachedHasLinearization(run: seq<Action>) returns (lin: seq<Entry>)
    requires Reach(run).Some?
    ensures Inv(Reach(run).value, lin)
  {
    if |run| == 0 {
      lin := [];
      assert Flat(EMPTY_MEM) == EMPTY;
    } else {
      hide Step, Base, Legal, BodyOk, Settled, Inv, Perform;
      var s, a := Reach(run[..|run| - 1]).value, run[|run| - 1];
      var s' := Reach(run).value;
      lin := ReachedHasLinearization(run[..|run| - 1]);
      match a
      case Invoke(_, _) => KeepsInvoke(s, lin, a, s');
      case Refuse(_) => lin := KeepsRefuse(s, lin, a, s');
      case Acquire(_) => KeepsLocking(s, lin, a, s');
      case Work(_, _) => lin := KeepsWork(s, lin, a, s');
      case Release(_) => KeepsLocking(s, lin, a, s');
      case Return(_) => KeepsReturn(s, lin, a, s');
    }
  }

  // --- The results ---

  lemma ReachOneMore(run: seq<Action>, a: Action)
    requires Reach(run).Some?
    ensures Reach(run + [a]) == Perform(Reach(run).value, a)
  {
    hide Perform;
    assert (run + [a])[..|run|] == run;
  }

  /** Whatever the interleaving, the calls that have answered can be put in one
      order, keeping real time, in which the flat catalog gives every one of
      them the answer it got. */
  lemma Linearizable(run: seq<Action>)
    requires Reach(run).Some?
    ensures exists lin :: IsLinearization(Reach(run).value.history, lin)
  {
    var lin := ReachedHasLinearization(run);
    var s := Reach(run).value;
    hide Step, Base, Legal, LockOk, MemOk, Perform, Reach;
    forall k | 0 <= k < |lin| ensures Called(lin[k].id, lin[k].cmd) in s.history {
      assert Records(s.calls, lin[k]);
    }
    forall e | e in s.history && e.Replied?
      ensures exists k :: 0 <= k < |lin| && lin[k].id == e.id && lin[k].reply == e.reply
    {
      assert EventOk(s.calls, e) && Covered(lin, e.id);
      var k :| 0 <= k < |lin| && lin[k].id == e.id;
      assert Records(s.calls, lin[k]);
    }
    assert IsLinearization(s.history, lin);
  }

  /** No body ever writes to a nil map or loses the entry it is walking to, and
      while a body that writes is running no other body is. */
  lemma NoPanicNoRace(run: seq<Action>, one: Id, other: Id)
    requires Reach(run).Some?
    ensures var s := Reach(run).value;
            !s.crashed &&
            (one in s.calls && other in s.calls && one != other &&
             s.calls[one].phase.Running? && s.calls[other].phase.Running? ==>
               !Writes(s.calls[one].cmd) && !Writes(s.calls[other].cmd))
  {
    var lin := ReachedHasLinearization(run);
  }

  /** Once nobody is inside, the two maps are in step again. */
  lemma QuietMeansCoherent(run: seq<Action>)
    requires Reach(run).Some? && Reach(run).value.writer.None?
    ensures Coherent(Reach(run).value.mem)
  {
    var lin := ReachedHasLinearization(run);
  }

  // --- No call is left waiting for nothing ---

  lemma BodyCanStep(m: Mem, base: Catalog, cmd: Command, local: Local) returns (choice: Choice)
    requires BodyOk(m, base, cmd, local)
    ensures !Body(m, cmd, local, choice).Blocked?
  {
    choice := Choice("", 0, [], []);
    match local
    case WalkDatasets(rest, out) =>
      if rest != {} {
        var pick :| pick in rest;
        choice := choice.(pick := pick);
      } else {
        Ordering.SortBySorts(out, DatasetKey);
        choice := choice.(datasets := Ordering.SortBy(out, DatasetKey));
      }
    case WalkTables(rest, out) =>
      if rest != {} {
        var pick :| pick in rest;
        choice := choice.(pick := pick);
      } else {
        Ordering.SortBySorts(out, InfoKey);
        choice := choice.(tables := Ordering.SortBy(out, InfoKey));
      }
    case _ =>
  }

  lemma InsideCanMove(s: System, lin: seq<Entry>, id: Id) returns (a: Action)
    requires Inv(s, lin) && id in s.calls && Inside(s.calls[id].phase)
    ensures !a.Invoke? && Perform(s, a).Some?
  {
    hide LinOk, HistoryOk, KeepsRealTime, Base, BodyOk, Settled, Body;
    if s.calls[id].phase.Running? {
      var choice := BodyCanStep(s.mem, Base(lin), s.calls[id].cmd, s.calls[id].phase.local);
      a := Work(id, choice);
    } else {
      a := Release(id);
    }
  }

  lemma CanMove(s: System, lin: seq<Entry>, id: Id) returns (a: Action)
    requires Inv(s, lin) && id in s.calls && !s.calls[id].phase.Returned?
    ensures !a.Invoke? && Perform(s, a).Some?
  {
    hide MemOk, LinOk, HistoryOk, KeepsRealTime, Body;
    if Inside(s.calls[id].phase) {
      a := InsideCanMove(s, lin, id);
    } else if s.calls[id].phase.Released? {
      a := Return(id);
    } else if IsCtas(s.calls[id].cmd) {
      a := Refuse(id);
    } else if s.writer.Some? {
      a := InsideCanMove(s, lin, s.writer.value);
    } else if Writes(s.calls[id].cmd) && s.readers != {} {
      var reader :| reader in s.readers;
      a := InsideCanMove(s, lin, reader);
    } else {
      a := Acquire(id);
    }
  }

  /** No deadlock: while any call has not returned, some call can move. */
  lemma SomeCallCanMove(run: seq<Action>, id: Id) returns (a: Action)
    requires Reach(run).Some?
    requires id in Reach(run).value.calls && !Reach(run).value.calls[id].phase.Returned?
    ensures !a.Invoke? && Perform(Reach(run).value, a).Some?
  {
    hide Inv, Perform;
    var lin := ReachedHasLinearization(run);
    a := CanMove(Reach(run).value, lin, id);
  }
}
