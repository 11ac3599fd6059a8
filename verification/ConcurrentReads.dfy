/** What concurrent readers can see, in terms of the calls and answers alone. */
module ConcurrentReads {
  import opened FlatCatalog
  import opened Linearizability
  import opened LinearizabilityProof
  import CatalogRuns

  /** A call of this history would have made this schema. */
  predicate Made(
      history: seq<Event>, create: Id, opts: TableOptions, now: Time, ref: TableRef, schema: TableSchema) {
    Called(create, CreateTable(ref, opts)) in history && schema == NewTable(ref, opts, now)
  }

  /** A drop of the table or its dataset that ran its whole course after the one
      call had returned and before the other began. */
  ghost predicate RemovedBetween(history: seq<Event>, create: Id, read: Id, ref: TableRef) {
    exists drop: Id, cmd: Command ::
      && CatalogRuns.Removes(cmd, ref) && Called(drop, cmd) in history && Replied(drop, Done) in history
      && Before(history, create, drop) && Before(history, drop, read)
  }

  /** The create a read can have seen: not begun only after the read had returned,
      and not undone in between. */
  ghost predicate Explains(history: seq<Event>, read: Id, ref: TableRef, schema: TableSchema) {
    exists create, opts, now ::
      && Made(history, create, opts, now, ref, schema)
      && !Before(history, read, create) && !RemovedBetween(history, create, read, ref)
  }

  /** A removal a read can have seen, of a table that was there before: neither
      returned before the create began, nor begun after the read had returned. */
  ghost predicate ExplainsAbsence(history: seq<Event>, create: Id, read: Id, ref: TableRef) {
    exists drop: Id, cmd: Command ::
      && CatalogRuns.Removes(cmd, ref) && Called(drop, cmd) in history
      && !Before(history, drop, create) && !Before(history, read, drop)
  }

  predicate Answered(history: seq<Event>, id: Id, cmd: Command, reply: Reply) {
    Called(id, cmd) in history && Replied(id, reply) in history
  }

  // --- Places in the linearization ---

  lemma PlaceOf(s: System, lin: seq<Entry>, id: Id, cmd: Command, reply: Reply) returns (k: nat)
    requires Inv(s, lin) && Answered(s.history, id, cmd, reply)
    ensures k < |lin| && lin[k].id == id && lin[k].cmd == cmd && lin[k].reply == reply
  {
    hide LockOk, MemOk, Legal, OncePerCall, Before;
    assert EventOk(s.calls, Called(id, cmd)) && EventOk(s.calls, Replied(id, reply));
    assert Covered(lin, id);
    k :| 0 <= k < |lin| && lin[k].id == id;
    assert Records(s.calls, lin[k]);
  }

  lemma EntryWasCalled(s: System, lin: seq<Entry>, k: nat)
    requires Inv(s, lin) && k < |lin|
    ensures Called(lin[k].id, lin[k].cmd) in s.history
  {
    hide LockOk, MemOk, Legal, OncePerCall, KeepsRealTime;
    assert Records(s.calls, lin[k]);
  }

  /** A call that returned before another began has the earlier place. */
  lemma PlacesKeepTime(history: seq<Event>, lin: seq<Entry>, p: nat, q: nat)
    requires KeepsRealTime(history, lin) && p < |lin| && q < |lin| && p != q
    requires Before(history, lin[p].id, lin[q].id)
    ensures p < q
  {
    hide Before;
  }

  lemma BaseAt(lin: seq<Entry>, k: nat)
    requires k < |lin| && Legal(lin)
    ensures Base(lin[..k + 1]) == Step(Base(lin[..k]), Call(lin[k].cmd, lin[k].now)).0
    ensures Step(Base(lin[..k]), Call(lin[k].cmd, lin[k].now)).1 == lin[k].reply
  {
    hide Step, Base;
    BaseOneMore(lin[..k], lin[k]);
    assert lin[..k + 1] == lin[..k] + [lin[k]];
  }

  // --- What a catalog holds, and why ---

  /** A removal that is answered with Done leaves no table, had there been one or
      not. */
  lemma DoneMeansGone(c: Catalog, call: Call, ref: TableRef)
    requires Sound(c) && CatalogRuns.Removes(call.cmd, ref) && Step(c, call).1 == Done
    ensures ref !in Step(c, call).0.tables
  {
    hide ListedDatasets, ListedTables;
  }

  lemma LiveThroughout(calls: seq<Call>, i: nat, n: nat, ref: TableRef)
    requires CatalogRuns.LiveCreate(calls, i, ref) && i < n <= |calls|
    ensures ref in After(calls[..n]).tables
  {
    hide Step, After, CatalogRuns.CreatesAt, CatalogRuns.DropsAt;
    forall j: nat | j < n
      ensures CatalogRuns.CreatesAt(calls[..n], j, ref) == CatalogRuns.CreatesAt(calls, j, ref)
      ensures CatalogRuns.DropsAt(calls[..n], j, ref) == CatalogRuns.DropsAt(calls, j, ref)
    {
      CatalogRuns.PrefixAgrees(calls, n, j, ref);
    }
    assert CatalogRuns.LiveCreate(calls[..n], i, ref);
    var at := CatalogRuns.LiveCreateOf(calls[..n], ref);
  }

  /** A table that was there and is not there any more was removed on the way. */
  lemma {:induction false} VanishesAt(calls: seq<Call>, i: nat, ref: TableRef) returns (j: nat)
    requires i < |calls| && ref in After(calls[..i + 1]).tables && ref !in After(calls).tables
    ensures i < j < |calls| && CatalogRuns.DropsAt(calls, j, ref)
    decreases |calls|
  {
    hide Step, After, CatalogRuns.CreatesAt, CatalogRuns.DropsAt;
    var last := |calls| - 1;
    assert calls[..last + 1] == calls;
    if ref in After(calls[..last]).tables {
      CatalogRuns.LastCallOnTable(calls, ref);
      j := last;
    } else {
      assert calls[..last][..i + 1] == calls[..i + 1];
      j := VanishesAt(calls[..last], i, ref);
      CatalogRuns.PrefixAgrees(calls, last, j, ref);
    }
  }

  lemma PresentIsExplained(s: System, lin: seq<Entry>, k: nat, ref: TableRef)
    requires Inv(s, lin) && k < |lin| && !CatalogRuns.Removes(lin[k].cmd, ref)
    requires ref in Base(lin[..k]).tables
    ensures Explains(s.history, lin[k].id, ref, Base(lin[..k]).tables[ref])
  {
    hide Inv, Step, After, Before, CatalogRuns.Removes, CatalogRuns.LiveCreate, Made;
    var calls := CallsOf(lin[..k]);
    var at := CatalogRuns.LiveCreateOf(calls, ref);
    var i := at.value;
    LiveCreateIsCreate(calls, i, ref);
    EntryWasCalled(s, lin, i);
    var create, opts, now := lin[i].id, lin[i].cmd.tableOptions, lin[i].now;
    assert Made(s.history, create, opts, now, ref, Base(lin[..k]).tables[ref]) by { MadeBy(s.history, lin[i], ref); }
    NotBackwards(s, lin, i, k);
    NotRemovedBetween(s, lin, i, k, ref);
  }

  lemma MadeBy(history: seq<Event>, e: Entry, ref: TableRef)
    requires e.cmd.CreateTable? && e.cmd.ref == ref && Called(e.id, e.cmd) in history
    ensures Made(history, e.id, e.cmd.tableOptions, e.now, ref, NewTable(ref, e.cmd.tableOptions, e.now))
  {
  }

  lemma NotBackwards(s: System, lin: seq<Entry>, i: nat, k: nat)
    requires Inv(s, lin) && i < k < |lin|
    ensures !Before(s.history, lin[k].id, lin[i].id)
  {
    hide LockOk, MemOk, LinOk, HistoryOk, Before;
  }

  lemma DropEndsLife(lin: seq<Entry>, i: nat, j: nat, k: nat, ref: TableRef)
    requires Legal(lin) && i < j < k <= |lin|
    requires CatalogRuns.Removes(lin[j].cmd, ref) && lin[j].reply == Done
    ensures !CatalogRuns.LiveCreate(CallsOf(lin[..k]), i, ref)
  {
    hide Step, After, Legal, CatalogRuns.LiveCreate, CatalogRuns.Removes;
    BaseAt(lin, j);
    AfterIsSound(CallsOf(lin[..j]));
    DoneMeansGone(Base(lin[..j]), Call(lin[j].cmd, lin[j].now), ref);
    assert CallsOf(lin[..k])[..j + 1] == CallsOf(lin[..j + 1]);
    if CatalogRuns.LiveCreate(CallsOf(lin[..k]), i, ref) {
      LiveThroughout(CallsOf(lin[..k]), i, j + 1, ref);
    }
  }

  lemma RemovalHasPlace(s: System, lin: seq<Entry>, i: nat, k: nat, ref: TableRef) returns (j: nat)
    requires Inv(s, lin) && i < k < |lin| && RemovedBetween(s.history, lin[i].id, lin[k].id, ref)
    requires !CatalogRuns.Removes(lin[i].cmd, ref) && !CatalogRuns.Removes(lin[k].cmd, ref)
    ensures i < j < k && CatalogRuns.Removes(lin[j].cmd, ref) && lin[j].reply == Done
  {
    LegalOf(s, lin);
    hide Inv, Before, Legal, KeepsRealTime, CatalogRuns.Removes;
    var drop: Id, cmd: Command :|
      && CatalogRuns.Removes(cmd, ref) && Called(drop, cmd) in s.history && Replied(drop, Done) in s.history
      && Before(s.history, lin[i].id, drop) && Before(s.history, drop, lin[k].id);
    j := PlaceOf(s, lin, drop, cmd, Done);
    PlacesKeepTime(s.history, lin, i, j);
    PlacesKeepTime(s.history, lin, j, k);
  }

  lemma NotRemovedBetween(s: System, lin: seq<Entry>, i: nat, k: nat, ref: TableRef)
    requires Inv(s, lin) && i < k < |lin| && !CatalogRuns.Removes(lin[k].cmd, ref)
    requires CatalogRuns.LiveCreate(CallsOf(lin[..k]), i, ref)
    ensures !RemovedBetween(s.history, lin[i].id, lin[k].id, ref)
  {
    LiveCreateIsCreate(CallsOf(lin[..k]), i, ref);
    LegalOf(s, lin);
    assert !CatalogRuns.Removes(lin[i].cmd, ref);
    hide Inv, Legal, KeepsRealTime, RemovedBetween, CatalogRuns.LiveCreate, CatalogRuns.Removes;
    if RemovedBetween(s.history, lin[i].id, lin[k].id, ref) {
      var j := RemovalHasPlace(s, lin, i, k, ref);
      DropEndsLife(lin, i, j, k, ref);
    }
  }

  lemma LiveCreateIsCreate(calls: seq<Call>, i: nat, ref: TableRef)
    requires CatalogRuns.LiveCreate(calls, i, ref)
    ensures i < |calls| && calls[i].cmd == CreateTable(ref, calls[i].cmd.tableOptions)
  {
    hide Step;
  }

  lemma AbsentIsExplained(s: System, lin: seq<Entry>, i: nat, k: nat, ref: TableRef)
    requires Inv(s, lin) && i < k < |lin|
    requires ref in Base(lin[..i + 1]).tables && ref !in Base(lin[..k]).tables
    ensures ExplainsAbsence(s.history, lin[i].id, lin[k].id, ref)
  {
    hide Inv, Step, After, Before;
    var calls := CallsOf(lin[..k]);
    assert calls[..i + 1] == CallsOf(lin[..i + 1]);
    var j := VanishesAt(calls, i, ref);
    EntryWasCalled(s, lin, j);
    NotBackwards(s, lin, i, j);
    NotBackwards(s, lin, j, k);
    assert CatalogRuns.Removes(lin[j].cmd, ref);
  }

  // --- The results ---

  /** However many callers interleave, a GetTable that answers with a schema answers
      with one that some CreateTable of that very table made; that create did not
      begin only after the read had returned, and no drop of the table or its
      dataset ran its course between the two. */
  lemma ReadsSeeACreate(run: seq<Action>, read: Id, ref: TableRef, schema: TableSchema)
    requires Reach(run).Some?
    requires Answered(Reach(run).value.history, read, GetTable(ref), Schema(schema))
    ensures Explains(Reach(run).value.history, read, ref, schema)
  {
    hide Reach, Inv, Step, Answered, Explains;
    var s := Reach(run).value;
    var lin := ReachedHasLinearization(run);
    var k := PlaceOf(s, lin, read, GetTable(ref), Schema(schema));
    LegalOf(s, lin);
    BaseAt(lin, k);
    CatalogRuns.GetTableAnswers(Base(lin[..k]), ref, lin[k].now);
    PresentIsExplained(s, lin, k, ref);
  }

  /** And so is every line of a listing. */
  lemma ListingsSeeCreates(run: seq<Action>, read: Id, cmd: Command, reply: Reply, info: TableInfo)
    requires Reach(run).Some?
    requires cmd.ListTables? && reply.Tables? && info in reply.tables
    requires Answered(Reach(run).value.history, read, cmd, reply)
    ensures info.ref.dataset == cmd.dataset
    ensures exists schema: TableSchema ::
              schema.info == info && Explains(Reach(run).value.history, read, info.ref, schema)
  {
    hide Reach, Inv, Step, Answered, Explains, ListedTables;
    var s := Reach(run).value;
    var lin := ReachedHasLinearization(run);
    var k := PlaceOf(s, lin, read, cmd, reply);
    LegalOf(s, lin);
    BaseAt(lin, k);
    var c := Base(lin[..k]);
    AfterIsSound(CallsOf(lin[..k]));
    CatalogRuns.ListTablesAnswers(c, cmd, lin[k].now);
    CatalogRuns.ListedMembers(c, cmd.dataset, info);
    PresentIsExplained(s, lin, k, info.ref);
    assert c.tables[info.ref].info == info;
  }

  lemma LegalOf(s: System, lin: seq<Entry>)
    requires Inv(s, lin)
    ensures Legal(lin) && KeepsRealTime(s.history, lin)
  {
  }

  /** The reads that tell of one table, and those of them that miss it. */
  predicate Misses(cmd: Command, reply: Reply, ref: TableRef) {
    || (cmd == GetTable(ref) && reply.Failed?)
    || (cmd.ListTables? && cmd.dataset == ref.dataset &&
        (reply.Failed? || (reply.Tables? && forall info :: info in reply.tables ==> info.ref != ref)))
  }

  /** A read that misses a table which a create had answered with before it began
      was outrun by some drop of the table or its dataset: one that did not return
      before that create began, nor begin after the read had returned. */
  lemma MissesSeeADrop(
      run: seq<Action>, create: Id, made: Command, schema: TableSchema, read: Id, cmd: Command, reply: Reply)
    requires Reach(run).Some? && made.CreateTable? && Misses(cmd, reply, made.ref)
    requires Answered(Reach(run).value.history, create, made, Schema(schema))
    requires Answered(Reach(run).value.history, read, cmd, reply)
    requires Before(Reach(run).value.history, create, read)
    ensures ExplainsAbsence(Reach(run).value.history, create, read, made.ref)
  {
    hide Reach, Inv, Step, Answered, Before, Legal, KeepsRealTime, ExplainsAbsence;
    var s := Reach(run).value;
    var lin := ReachedHasLinearization(run);
    var i := PlaceOf(s, lin, create, made, Schema(schema));
    var k := PlaceOf(s, lin, read, cmd, reply);
    LegalOf(s, lin);
    PlacesKeepTime(s.history, lin, i, k);
    BaseAt(lin, i);
    BaseAt(lin, k);
    CreateLeavesTable(Base(lin[..i]), Call(made, lin[i].now));
    AfterIsSound(CallsOf(lin[..k]));
    MissMeansAbsent(Base(lin[..k]), Call(cmd, lin[k].now), made.ref);
    AbsentIsExplained(s, lin, i, k, made.ref);
  }

  lemma CreateLeavesTable(c: Catalog, call: Call)
    requires call.cmd.CreateTable? && Step(c, call).1.Schema?
    ensures call.cmd.ref in Step(c, call).0.tables
  {
  }

  lemma MissMeansAbsent(c: Catalog, call: Call, ref: TableRef)
    requires Sound(c) && Misses(call.cmd, Step(c, call).1, ref)
    ensures ref !in c.tables
  {
    hide Step, ListedTables;
    if ref in c.tables {
      if call.cmd.ListTables? {
        CatalogRuns.ListTablesAnswers(c, call.cmd, call.now);
        CatalogRuns.ListedMembers(c, call.cmd.dataset, c.tables[ref].info);
      } else {
        CatalogRuns.GetTableAnswers(c, ref, call.now);
      }
      assert false;
    }
  }
}
