/** What a read can return after any history of catalog calls. */
module CatalogRuns {
  import opened Wrappers
  import opened Errors
  import opened FlatCatalog
  import Ordering

  /** Call `i` of the history changed the catalog. */
  ghost predicate Effective(calls: seq<Call>, i: nat)
    requires i < |calls|
  {
    After(calls[..i + 1]) != After(calls[..i])
  }

  ghost predicate CreatesAt(calls: seq<Call>, i: nat, ref: TableRef) {
    i < |calls| && calls[i].cmd.CreateTable? && calls[i].cmd.ref == ref && Effective(calls, i)
  }

  ghost predicate DropsAt(calls: seq<Call>, i: nat, ref: TableRef) {
    i < |calls| && Removes(calls[i].cmd, ref) && Effective(calls, i)
  }

  /** Call `i` created the table and nothing since removed it or its dataset. */
  ghost predicate LiveCreate(calls: seq<Call>, i: nat, ref: TableRef) {
    CreatesAt(calls, i, ref) && forall j :: i < j < |calls| ==> !DropsAt(calls, j, ref)
  }

  lemma PrefixAgrees(calls: seq<Call>, n: nat, i: nat, ref: TableRef)
    requires i < n <= |calls|
    ensures CreatesAt(calls[..n], i, ref) == CreatesAt(calls, i, ref)
    ensures DropsAt(calls[..n], i, ref) == DropsAt(calls, i, ref)
  {
    hide After;
    assert calls[..n][..i + 1] == calls[..i + 1];
    assert calls[..n][..i] == calls[..i];
  }

  /** The call names this table, or the dataset it is in, for removal. */
  predicate Removes(cmd: Command, ref: TableRef) {
    (cmd.DropTable? && cmd.ref == ref) || (cmd.DropDataset? && cmd.name == ref.dataset)
  }

  /** What one call does to one table. */
  lemma StepOnTable(c: Catalog, call: Call, ref: TableRef)
    requires Sound(c)
    ensures var after := Step(c, call).0;
            if after != c && call.cmd.CreateTable? && call.cmd.ref == ref then
              ref !in c.tables && ref in after.tables &&
              after.tables[ref] == NewTable(ref, call.cmd.tableOptions, call.now)
            else if after != c && Removes(call.cmd, ref) then
              ref !in after.tables
            else
              (ref in after.tables <==> ref in c.tables) && (ref in after.tables ==> after.tables[ref] == c.tables[ref])
  {
    hide ListedDatasets, ListedTables, New;
    var after := Step(c, call).0;
    match call.cmd
    case ListDatasets(_, _) =>
    case ListTables(_, _, _) =>
    case GetTable(_) =>
    case CreateDataset(_, _) =>
    case DropDataset(name, _, _) =>
      if after != c {
        assert after.tables == c.tables - RefsIn(c, name);
      }
    case CreateTable(_, _) =>
    case DropTable(_, _) =>
  }

  /** What the last call of a history did to one table. */
  lemma LastCallOnTable(calls: seq<Call>, ref: TableRef)
    requires |calls| > 0
    ensures var last := |calls| - 1;
            var before, after := After(calls[..last]).tables, After(calls).tables;
            if CreatesAt(calls, last, ref) then
              ref !in before && ref in after &&
              after[ref] == NewTable(ref, calls[last].cmd.tableOptions, calls[last].now)
            else if DropsAt(calls, last, ref) then
              ref !in after
            else
              (ref in after <==> ref in before) && (ref in after ==> after[ref] == before[ref])
  {
    var last := |calls| - 1;
    assert calls[..last + 1] == calls;
    AfterIsSound(calls[..last]);
    StepOnTable(After(calls[..last]), calls[last], ref);
  }

  lemma GetTableAnswers(c: Catalog, ref: TableRef, now: Time)
    ensures Step(c, Call(GetTable(ref), now)).1 ==
            if ref in c.tables then Schema(c.tables[ref])
            else Failed(New(NotFound, "GetTable", "table not found: " + ref.dataset + "." + ref.table))
  {
  }

  /** The live create of a table, when it has one. */
  lemma {:induction false} LiveCreateOf(calls: seq<Call>, ref: TableRef) returns (at: Option<nat>)
    ensures at.None? ==> ref !in After(calls).tables && forall i: nat :: !LiveCreate(calls, i, ref)
    ensures at.Some? ==> LiveCreate(calls, at.value, ref)
    ensures at.Some? ==> forall i: nat :: LiveCreate(calls, i, ref) ==> i == at.value
    ensures at.Some? ==> ref in After(calls).tables
    ensures at.Some? ==>
              After(calls).tables[ref] == NewTable(ref, calls[at.value].cmd.tableOptions, calls[at.value].now)
  {
    hide Step;
    if |calls| == 0 {
      at := None;
    } else {
      var last := |calls| - 1;
      at := LiveCreateOf(calls[..last], ref);
      LastCallOnTable(calls, ref);
      forall i: nat | i < last
        ensures LiveCreate(calls, i, ref) <==> LiveCreate(calls[..last], i, ref) && !DropsAt(calls, last, ref)
      {
        LiveCreateByPrefix(calls, i, ref);
      }
      if CreatesAt(calls, last, ref) {
        at := Some(last);
      } else if DropsAt(calls, last, ref) {
        at := None;
      }
    }
  }

  /** GetTable succeeds exactly when the history holds an effective create of
      that table with no later effective drop of it or its dataset, and it
      answers with that create's schema. */
  lemma GetTableReadsLiveCreate(calls: seq<Call>, ref: TableRef, now: Time)
    ensures Step(After(calls), Call(GetTable(ref), now)).1.Schema? <==> exists i: nat :: LiveCreate(calls, i, ref)
    ensures forall i: nat :: LiveCreate(calls, i, ref) ==>
              Step(After(calls), Call(GetTable(ref), now)).1 ==
              Schema(NewTable(ref, calls[i].cmd.tableOptions, calls[i].now))
  {
    hide Step;
    GetTableAnswers(After(calls), ref, now);
    var at := LiveCreateOf(calls, ref);
  }

  lemma LiveCreateByPrefix(calls: seq<Call>, i: nat, ref: TableRef)
    requires i < |calls| - 1
    ensures LiveCreate(calls, i, ref) <==>
            LiveCreate(calls[..|calls| - 1], i, ref) && !DropsAt(calls, |calls| - 1, ref)
  {
    hide Step, After;
    var last := |calls| - 1;
    forall j: nat | j < last
      ensures CreatesAt(calls[..last], j, ref) == CreatesAt(calls, j, ref)
      ensures DropsAt(calls[..last], j, ref) == DropsAt(calls, j, ref)
    {
      PrefixAgrees(calls, last, j, ref);
    }
  }

  lemma ListedMembers(c: Catalog, dataset: string, info: TableInfo)
    requires Sound(c)
    ensures info in ListedTables(c, dataset) <==>
            info.ref.dataset == dataset && info.ref in c.tables && c.tables[info.ref].info == info
  {
    var names, listed := Ordering.Enumerate(TableNames(c, dataset)), ListedTables(c, dataset);
    if info in listed {
      var i :| 0 <= i < |listed| && listed[i] == info;
      assert names[i] in Ordering.Elements(names);
      assert info == c.tables[TableRef(dataset, names[i])].info;
    }
    if info.ref.dataset == dataset && info.ref in c.tables && c.tables[info.ref].info == info {
      assert info.ref.table in Ordering.Elements(names);
      var i :| 0 <= i < |names| && names[i] == info.ref.table;
      assert listed[i] == info;
    }
  }

  lemma ListTablesAnswers(c: Catalog, cmd: Command, now: Time)
    requires cmd.ListTables?
    ensures Step(c, Call(cmd, now)).1 ==
            if cmd.dataset in c.datasets then Tables(ListedTables(c, cmd.dataset), "")
            else Failed(New(NotFound, "ListTables", "dataset not found: " + cmd.dataset))
  {
  }

  /** What call `i` put into the listing of a dataset. */
  ghost predicate Puts(calls: seq<Call>, i: nat, dataset: string, info: TableInfo) {
    && info.ref.dataset == dataset && LiveCreate(calls, i, info.ref)
    && info == NewTable(info.ref, calls[i].cmd.tableOptions, calls[i].now).info
  }

  /** A listing answers with exactly the tables that have a live create, each as
      that create made it; where the dataset is missing none has one. */
  lemma ListTablesReadsLiveCreates(calls: seq<Call>, cmd: Command, now: Time)
    requires cmd.ListTables?
    ensures var reply := Step(After(calls), Call(cmd, now)).1;
            if reply.Tables? then
              forall info :: info in reply.tables <==> exists i: nat :: Puts(calls, i, cmd.dataset, info)
            else
              forall i: nat, ref: TableRef :: ref.dataset == cmd.dataset ==> !LiveCreate(calls, i, ref)
  {
    hide Step, ListedTables, LiveCreate, New;
    var c := After(calls);
    AfterIsSound(calls);
    ListTablesAnswers(c, cmd, now);
    if cmd.dataset in c.datasets {
      forall info ensures info in ListedTables(c, cmd.dataset) <==> exists i: nat :: Puts(calls, i, cmd.dataset, info) {
        ListedMembers(c, cmd.dataset, info);
        var at := LiveCreateOf(calls, info.ref);
        if at.Some? && info.ref.dataset == cmd.dataset && c.tables[info.ref].info == info {
          assert Puts(calls, at.value, cmd.dataset, info);
        }
      }
    } else {
      forall i: nat, ref: TableRef | ref.dataset == cmd.dataset ensures !LiveCreate(calls, i, ref) {
        var at := LiveCreateOf(calls, ref);
      }
    }
  }

  /** Dropping a table, or its dataset with cascade, is final: whatever follows,
      datasets made anew under the same name included, the table stays absent
      until an effective create of that very table. */
  lemma DroppedStaysDropped(calls: seq<Call>, drop: nat, ref: TableRef, now: Time)
    requires DropsAt(calls, drop, ref)
    requires forall j: nat :: drop < j ==> !CreatesAt(calls, j, ref)
    ensures Step(After(calls), Call(GetTable(ref), now)).1 ==
            Failed(New(NotFound, "GetTable", "table not found: " + ref.dataset + "." + ref.table))
  {
    GetTableAnswers(After(calls), ref, now);
    var at := LiveCreateOf(calls, ref);
    assert !CreatesAt(calls, drop, ref);
  }

  // --- Conservation ---

  /** Effective table creates. */
  ghost function Created(calls: seq<Call>): nat {
    if |calls| == 0 then 0
    else
      var last := |calls| - 1;
      Created(calls[..last]) + if calls[last].cmd.CreateTable? && Effective(calls, last) then 1 else 0
  }

  /** Effective table drops. */
  ghost function Dropped(calls: seq<Call>): nat {
    if |calls| == 0 then 0
    else
      var last := |calls| - 1;
      Dropped(calls[..last]) + if calls[last].cmd.DropTable? && Effective(calls, last) then 1 else 0
  }

  /** Tables that went with a dataset dropped by cascade. */
  ghost function Cascaded(calls: seq<Call>): nat {
    if |calls| == 0 then 0
    else
      var last := |calls| - 1;
      Cascaded(calls[..last]) +
      if calls[last].cmd.DropDataset? && calls[last].cmd.cascade
      then |RefsIn(After(calls[..last]), calls[last].cmd.name)|
      else 0
  }

  lemma SizeWithout<K, V>(m: map<K, V>, gone: set<K>)
    requires gone <= m.Keys
    ensures |m - gone| == |m| - |gone|
  {
    assert (m - gone).Keys == m.Keys - gone;
    assert |m.Keys - gone| == |m.Keys| - |gone|;
  }

  lemma SizeWith<K, V>(m: map<K, V>, k: K, v: V)
    requires k !in m
    ensures |m[k := v]| == |m| + 1
  {
    assert m[k := v].Keys == m.Keys + {k};
  }

  /** The change in the number of tables that one call brings about. */
  ghost function Gain(c: Catalog, call: Call): int {
    if call.cmd.CreateTable? && Step(c, call).0 != c then 1
    else if call.cmd.DropTable? && Step(c, call).0 != c then -1
    else if call.cmd.DropDataset? && call.cmd.cascade then -|RefsIn(c, call.cmd.name)|
    else 0
  }

  lemma DropDatasetGain(c: Catalog, call: Call)
    requires Sound(c) && call.cmd.DropDataset?
    ensures |Step(c, call).0.tables| == |c.tables| + Gain(c, call)
  {
    hide ListedDatasets, ListedTables, New;
    var name, after := call.cmd.name, Step(c, call).0;
    assert RefsIn(c, name) <= c.tables.Keys;
    SizeWithout(c.tables, RefsIn(c, name));
    if name !in c.datasets {
      assert after == c && RefsIn(c, name) == {};
    } else if RefsIn(c, name) != {} && !call.cmd.cascade {
      assert after == c;
    } else {
      assert after.tables == c.tables - RefsIn(c, name);
    }
    hide Step, RefsIn;
  }

  lemma TableGain(c: Catalog, call: Call)
    requires call.cmd.CreateTable? || call.cmd.DropTable?
    ensures |Step(c, call).0.tables| == |c.tables| + Gain(c, call)
  {
    hide ListedDatasets, ListedTables, New;
    var ref, after := call.cmd.ref, Step(c, call).0;
    if after == c {
    } else if call.cmd.CreateTable? {
      assert after.tables == c.tables[ref := NewTable(ref, call.cmd.tableOptions, call.now)];
      SizeWith(c.tables, ref, NewTable(ref, call.cmd.tableOptions, call.now));
    } else {
      assert after.tables == c.tables - {ref};
      SizeWithout(c.tables, {ref});
    }
    hide Step;
  }

  lemma OtherGain(c: Catalog, call: Call)
    requires !call.cmd.CreateTable? && !call.cmd.DropTable? && !call.cmd.DropDataset?
    ensures |Step(c, call).0.tables| == |c.tables| + Gain(c, call)
  {
  }

  /** Tables are neither lost nor duplicated: the ones stored are those created
      less those dropped less those cascaded away.  A drop without cascade takes
      no table with it, so it does not appear. */
  lemma {:induction false} TablesAreConserved(calls: seq<Call>)
    ensures |After(calls).tables| == Created(calls) - Dropped(calls) - Cascaded(calls)
  {
    hide Step;
    if |calls| == 0 {
    } else {
      var last := |calls| - 1;
      var before := After(calls[..last]);
      TablesAreConserved(calls[..last]);
      assert calls[..last + 1] == calls;
      AfterIsSound(calls[..last]);
      match calls[last].cmd
      case DropDataset(_, _, _) => DropDatasetGain(before, calls[last]);
      case CreateTable(_, _) => TableGain(before, calls[last]);
      case DropTable(_, _) => TableGain(before, calls[last]);
      case _ => OtherGain(before, calls[last]);
    }
  }
}
