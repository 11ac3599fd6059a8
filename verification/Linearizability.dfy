/** Any number of callers inside the in-memory backend at once.  A body runs in
    a few steps, cut wherever it has done a part of its writes or is walking a
    map, between taking and releasing the RWMutex; the CTAS refusal alone never
    takes the lock.  Every interleaving is then explained by one sequential run
    of the flat catalog. */
module Linearizability {
  import opened Wrappers
  import opened Errors
  import opened FlatCatalog
  import opened MemBackend
  import Ordering

  type Id = nat

  /** How far the body of a call has come, and what it holds in locals. */
  datatype Local =
    | Begin
    | WalkDatasets(rest: set<string>, datasets: seq<Dataset>)
    | WalkTables(rest: set<string>, tables: seq<TableInfo>)
    | DatasetStored(d: Dataset)  // CreateDataset, between its two writes
    | DatasetDeleted             // DropDataset, between its two deletes
    | DatasetSeen                // CreateTable, between its two checks
    | TableMissing(now: Time)    // CreateTable, before its insert
    | TableSeen                  // DropTable, before its delete

  datatype Phase =
    | Invoked
    | Running(local: Local)   // holds the lock
    | Answered(reply: Reply)  // body done, deferred unlock still to run
    | Released(reply: Reply)
    | Returned(reply: Reply)

  datatype CallState = CallState(cmd: Command, phase: Phase)

  /** What the outside sees, in the order it happens. */
  datatype Event =
    | Called(id: Id, cmd: Command)
    | Replied(id: Id, reply: Reply)

  datatype System = System(
    mem: Mem,
    writer: Option<Id>,
    readers: set<Id>,
    calls: map<Id, CallState>,
    history: seq<Event>,
    crashed: bool)

  const START := System(EMPTY_MEM, None, {}, map[], [], false)

  /** What a step leaves to chance: which key a map walk meets next, what the
      clock reads, and where an unstable sort puts equal keys. */
  datatype Choice = Choice(pick: string, now: Time, datasets: seq<Dataset>, tables: seq<TableInfo>)

  datatype Action =
    | Invoke(id: Id, cmd: Command)
    | Refuse(id: Id)
    | Acquire(id: Id)
    | Work(id: Id, choice: Choice)
    | Release(id: Id)
    | Return(id: Id)

  predicate Writes(cmd: Command) {
    cmd.CreateDataset? || cmd.DropDataset? || cmd.CreateTable? || cmd.DropTable?
  }

  predicate IsCtas(cmd: Command) {
    cmd.CreateTable? && cmd.tableOptions.asSelect != ""
  }

  const CTAS_REFUSED := Failed(New(Unsupported, "CreateTable", "CTAS needs a query engine"))

  // --- One step of a body ---

  datatype Effect =
    | Blocked                               // the choice does not fit
    | Panics                                // a write to a nil map, or a walk that lost its entry
    | Goes(mem: Mem, local: Local)
    | Finishes(mem: Mem, reply: Reply)

  function Inner(m: Mem, dataset: string): map<string, Table> {
    if dataset in m.tables then m.tables[dataset] else map[]
  }

  function BodyListDatasets(m: Mem, local: Local, choice: Choice): Effect {
    match local
    case Begin => Goes(m, WalkDatasets(m.datasets.Keys, []))
    case WalkDatasets(rest, out) =>
      if rest == {} then
        if multiset(choice.datasets) == multiset(out) && Ordering.SortedBy(choice.datasets, DatasetKey)
        then Finishes(m, Datasets(choice.datasets, ""))
        else Blocked
      else if choice.pick !in rest then Blocked
      else if choice.pick !in m.datasets then Panics
      else Goes(m, WalkDatasets(rest - {choice.pick}, out + [m.datasets[choice.pick]]))
    case _ => Blocked
  }

  function BodyListTables(m: Mem, dataset: string, local: Local, choice: Choice): Effect {
    match local
    case Begin =>
      if dataset !in m.datasets
      then Finishes(m, Failed(New(NotFound, "ListTables", "dataset not found: " + dataset)))
      else Goes(m, WalkTables(Inner(m, dataset).Keys, []))
    case WalkTables(rest, out) =>
      if rest == {} then
        if multiset(choice.tables) == multiset(out) && Ordering.SortedBy(choice.tables, InfoKey)
        then Finishes(m, Tables(choice.tables, ""))
        else Blocked
      else if choice.pick !in rest then Blocked
      else if choice.pick !in Inner(m, dataset) then Panics
      else Goes(m, WalkTables(rest - {choice.pick}, out + [Inner(m, dataset)[choice.pick].schema.info]))
    case _ => Blocked
  }

  function BodyGetTable(m: Mem, ref: TableRef): Effect {
    match Find(m.tables, ref)
    case Some(t) => Finishes(m, Schema(t.schema))
    case None => Finishes(m, Failed(New(NotFound, "GetTable", "table not found: " + ref.dataset + "." + ref.table)))
  }

  function BodyCreateDataset(m: Mem, name: string, opts: DatasetOptions, local: Local): Effect {
    match local
    case Begin =>
      if name !in m.datasets then
        var d := Dataset(name, opts.location, opts.description, opts.labels);
        Goes(m.(datasets := m.datasets[name := d]), DatasetStored(d))
      else if opts.ifNotExists then Finishes(m, Namespace(m.datasets[name]))
      else Finishes(m, Failed(New(AlreadyExists, "CreateDataset", "dataset exists: " + name)))
    case DatasetStored(d) => Finishes(m.(tables := m.tables[name := map[]]), Namespace(d))
    case _ => Blocked
  }

  function BodyDropDataset(m: Mem, name: string, cascade: bool, ifExists: bool, local: Local): Effect {
    match local
    case Begin =>
      if name !in m.datasets then
        Finishes(m, if ifExists then Done else Failed(New(NotFound, "DropDataset", "dataset not found: " + name)))
      else if |Inner(m, name)| > 0 && !cascade then
        Finishes(m, Failed(New(PreconditionFailed, "DropDataset", "dataset not empty: " + name)))
      else
        Goes(m.(datasets := m.datasets - {name}), DatasetDeleted)
    case DatasetDeleted => Finishes(m.(tables := m.tables - {name}), Done)
    case _ => Blocked
  }

  function BodyCreateTable(m: Mem, ref: TableRef, opts: TableOptions, local: Local, choice: Choice): Effect {
    match local
    case Begin =>
      if ref.dataset !in m.datasets
      then Finishes(m, Failed(New(NotFound, "CreateTable", "dataset not found: " + ref.dataset)))
      else Goes(m, DatasetSeen)
    case DatasetSeen =>
      (match Find(m.tables, ref)
       case None => Goes(m, TableMissing(choice.now))
       case Some(t) =>
         if opts.ifNotExists then Finishes(m, Schema(t.schema))
         else Finishes(m, Failed(New(AlreadyExists, "CreateTable", "table exists: " + ref.table))))
    case TableMissing(now) =>
      if ref.dataset !in m.tables then Panics
      else
        var s := NewTable(ref, opts, now);
        Finishes(m.(tables := m.tables[ref.dataset := m.tables[ref.dataset][ref.table := Table(s, now)]]), Schema(s))
    case _ => Blocked
  }

  function BodyDropTable(m: Mem, ref: TableRef, ifExists: bool, local: Local): Effect {
    match local
    case Begin =>
      if Find(m.tables, ref).Some? then Goes(m, TableSeen)
      else if ifExists then Finishes(m, Done)
      else Finishes(m, Failed(New(NotFound, "DropTable", "table not found: " + ref.table)))
    case TableSeen =>
      if ref.dataset !in m.tables then Finishes(m, Done)
      else Finishes(m.(tables := m.tables[ref.dataset := m.tables[ref.dataset] - {ref.table}]), Done)
    case _ => Blocked
  }

  function Body(m: Mem, cmd: Command, local: Local, choice: Choice): Effect {
    match cmd
    case ListDatasets(_, _) => BodyListDatasets(m, local, choice)
    case ListTables(dataset, _, _) => BodyListTables(m, dataset, local, choice)
    case GetTable(ref) => BodyGetTable(m, ref)
    case CreateDataset(name, opts) => BodyCreateDataset(m, name, opts, local)
    case DropDataset(name, cascade, ifExists) => BodyDropDataset(m, name, cascade, ifExists, local)
    case CreateTable(ref, opts) => BodyCreateTable(m, ref, opts, local, choice)
    case DropTable(ref, ifExists) => BodyDropTable(m, ref, ifExists, local)
  }

  // --- Steps of the whole system ---

  function SetPhase(s: System, id: Id, phase: Phase): System
    requires id in s.calls
  {
    s.(calls := s.calls[id := s.calls[id].(phase := phase)])
  }

  /** The system after one action, when that action is possible. */
  function Perform(s: System, a: Action): Option<System> {
    if s.crashed then None
    else if a.Invoke? then
      if a.id in s.calls then None
      else Some(s.(calls := s.calls[a.id := CallState(a.cmd, Invoked)], history := s.history + [Called(a.id, a.cmd)]))
    else if a.id !in s.calls then None
    else
      var cmd, phase := s.calls[a.id].cmd, s.calls[a.id].phase;
      match a
      case Invoke(_, _) => None
      case Refuse(id) =>
        if phase.Invoked? && IsCtas(cmd) then Some(SetPhase(s, id, Released(CTAS_REFUSED))) else None
      case Acquire(id) =>
        if !phase.Invoked? || IsCtas(cmd) || s.writer.Some? then None
        else if !Writes(cmd) then Some(SetPhase(s, id, Running(Begin)).(readers := s.readers + {id}))
        else if s.readers == {} then Some(SetPhase(s, id, Running(Begin)).(writer := Some(id)))
        else None
      case Work(id, choice) =>
        if !phase.Running? then None
        else (match Body(s.mem, cmd, phase.local, choice)
              case Blocked => None
              case Panics => Some(s.(crashed := true))
              case Goes(mem, local) => Some(SetPhase(s, id, Running(local)).(mem := mem))
              case Finishes(mem, reply) => Some(SetPhase(s, id, Answered(reply)).(mem := mem)))
      case Release(id) =>
        if !phase.Answered? then None
        else if Writes(cmd) then Some(SetPhase(s, id, Released(phase.reply)).(writer := None))
        else Some(SetPhase(s, id, Released(phase.reply)).(readers := s.readers - {id}))
      case Return(id) =>
        if !phase.Released? then None
        else Some(SetPhase(s, id, Returned(phase.reply)).(history := s.history + [Replied(id, phase.reply)]))
  }

  /** The system after a run of actions from the empty backend. */
  function Reach(run: seq<Action>): Option<System> {
    if |run| == 0 then Some(START)
    else
      match Reach(run[..|run| - 1])
      case None => None
      case Some(s) => Perform(s, run[|run| - 1])
  }

  // --- Linearizations ---

  /** One call of a sequential run, with the answer it got there. */
  datatype Entry = Entry(id: Id, cmd: Command, now: Time, reply: Reply)

  function CallsOf(lin: seq<Entry>): seq<Call> {
    seq(|lin|, i requires 0 <= i < |lin| => Call(lin[i].cmd, lin[i].now))
  }

  ghost function Base(lin: seq<Entry>): Catalog {
    After(CallsOf(lin))
  }

  /** Each entry's answer is the one the flat catalog gives at its place. */
  ghost predicate Legal(lin: seq<Entry>) {
    forall k :: 0 <= k < |lin| ==> Step(Base(lin[..k]), Call(lin[k].cmd, lin[k].now)).1 == lin[k].reply
  }

  predicate Before(history: seq<Event>, first: Id, second: Id) {
    exists i, j :: 0 <= i < j < |history| && history[i].Replied? && history[i].id == first &&
                   history[j].Called? && history[j].id == second
  }

  /** Calls that returned before another began come first. */
  ghost predicate KeepsRealTime(history: seq<Event>, lin: seq<Entry>) {
    forall p, q :: 0 <= p < q < |lin| ==> !Before(history, lin[q].id, lin[p].id)
  }

  ghost predicate OncePerCall(lin: seq<Entry>) {
    forall p, q :: 0 <= p < q < |lin| ==> lin[p].id != lin[q].id
  }

  ghost predicate IsLinearization(history: seq<Event>, lin: seq<Entry>) {
    && OncePerCall(lin)
    && Legal(lin)
    && KeepsRealTime(history, lin)
    && (forall k :: 0 <= k < |lin| ==> Called(lin[k].id, lin[k].cmd) in history)
    && (forall e :: e in history && e.Replied? ==>
          exists k :: 0 <= k < |lin| && lin[k].id == e.id && lin[k].reply == e.reply)
  }
}
