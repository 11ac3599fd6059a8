/** The in-memory backend: two maps kept in step, mutated in place by the create
    and drop methods, proved against the flat catalog. */
module MemBackend {
  import opened Wrappers
  import opened Errors
  import opened FlatCatalog
  import Ordering

  datatype Table = Table(schema: TableSchema, created: Time)

  /** The two maps of the backend: dataset name to dataset, and dataset name to
      its tables by name. */
  datatype Mem = Mem(datasets: map<string, Dataset>, tables: map<string, map<string, Table>>)

  const EMPTY_MEM := Mem(map[], map[])

  /** Reading the nested map as Go does: a missing inner map reads as empty. */
  function Find(tables: map<string, map<string, Table>>, ref: TableRef): (found: Option<Table>) {
    if ref.dataset in tables && ref.table in tables[ref.dataset]
    then Some(tables[ref.dataset][ref.table])
    else None
  }

  function Refs(m: Mem): set<TableRef> {
    set dataset, table | dataset in m.tables && table in m.tables[dataset] :: TableRef(dataset, table)
  }

  ghost function Flat(m: Mem): Catalog {
    Catalog(m.datasets, map ref | ref in Refs(m) :: m.tables[ref.dataset][ref.table].schema)
  }

  /** The representation invariant. */
  ghost predicate Coherent(m: Mem) {
    && m.datasets.Keys == m.tables.Keys
    && (forall name :: name in m.datasets ==> m.datasets[name].name == name)
    && (forall ref :: Find(m.tables, ref).Some? ==> FiledUnder(Find(m.tables, ref).value, ref))
  }

  /** A table sits under the names it carries itself. */
  predicate FiledUnder(t: Table, ref: TableRef) {
    t.schema.info.ref == ref && t.created == t.schema.info.created
  }

  lemma FindIsFlat(m: Mem, ref: TableRef)
    ensures Find(m.tables, ref).Some? <==> ref in Flat(m).tables
    ensures Find(m.tables, ref).Some? ==> Find(m.tables, ref).value.schema == Flat(m).tables[ref]
  {
    assert ref in Refs(m) <==> ref.dataset in m.tables && ref.table in m.tables[ref.dataset];
  }

  /** To know the flat tables it is enough to know what every lookup finds. */
  lemma FlatByLookup(m: Mem, tables: map<TableRef, TableSchema>)
    requires forall ref :: Find(m.tables, ref).Some? <==> ref in tables
    requires forall ref :: ref in tables ==> Find(m.tables, ref).value.schema == tables[ref]
    ensures Flat(m).tables == tables
  {
    hide Find;
    forall ref ensures ref in Flat(m).tables <==> ref in tables {
      FindIsFlat(m, ref);
    }
    assert Flat(m).tables.Keys == tables.Keys;
    forall ref | ref in tables ensures Flat(m).tables[ref] == tables[ref] {
      FindIsFlat(m, ref);
    }
  }

  function WithDataset(m: Mem, name: string, d: Dataset): Mem {
    Mem(m.datasets[name := d], m.tables[name := map[]])
  }

  function WithoutDataset(m: Mem, name: string): Mem {
    Mem(m.datasets - {name}, m.tables - {name})
  }

  function WithTable(m: Mem, ref: TableRef, t: Table): Mem
    requires ref.dataset in m.tables
  {
    m.(tables := m.tables[ref.dataset := m.tables[ref.dataset][ref.table := t]])
  }

  function WithoutTable(m: Mem, ref: TableRef): Mem
    requires ref.dataset in m.tables
  {
    m.(tables := m.tables[ref.dataset := m.tables[ref.dataset] - {ref.table}])
  }

  lemma AddDataset(m: Mem, name: string, d: Dataset)
    requires Coherent(m) && name !in m.datasets && d.name == name
    ensures Coherent(WithDataset(m, name, d))
    ensures Flat(WithDataset(m, name, d)) == Catalog(m.datasets[name := d], Flat(m).tables)
  {
    var m' := WithDataset(m, name, d);
    assert name !in m.tables;
    forall ref ensures Find(m'.tables, ref) == Find(m.tables, ref) {
    }
    forall ref
      ensures Find(m.tables, ref).Some? <==> ref in Flat(m).tables
      ensures Find(m.tables, ref).Some? ==> Find(m.tables, ref).value.schema == Flat(m).tables[ref]
    {
      FindIsFlat(m, ref);
    }
    hide Find, Flat;
    FlatByLookup(m', Flat(m).tables);
    FlatDatasets(m');
  }

  lemma FlatDatasets(m: Mem)
    ensures Flat(m) == Catalog(m.datasets, Flat(m).tables)
  {
  }

  /** All flat lookups at once. */
  lemma FlatFinds(m: Mem)
    ensures forall ref :: Find(m.tables, ref).Some? <==> ref in Flat(m).tables
    ensures forall ref :: ref in Flat(m).tables ==> Find(m.tables, ref).value.schema == Flat(m).tables[ref]
  {
    forall ref
      ensures Find(m.tables, ref).Some? <==> ref in Flat(m).tables
      ensures ref in Flat(m).tables ==> Find(m.tables, ref).value.schema == Flat(m).tables[ref]
    {
      FindIsFlat(m, ref);
    }
  }

  lemma RemoveDataset(m: Mem, name: string)
    requires Coherent(m) && name in m.datasets
    ensures Coherent(WithoutDataset(m, name))
    ensures Flat(WithoutDataset(m, name)) == Catalog(m.datasets - {name}, Flat(m).tables - RefsIn(Flat(m), name))
  {
    var m' := WithoutDataset(m, name);
    forall ref ensures Find(m'.tables, ref) == if ref.dataset == name then None else Find(m.tables, ref) {
    }
    FlatFinds(m);
    FlatDatasets(m');
    hide Find, Flat;
    FlatByLookup(m', Flat(m).tables - RefsIn(Flat(m), name));
  }

  lemma DropStep(m: Mem, name: string, cascade: bool, ifExists: bool, now: Time)
    requires Coherent(m) && name in m.datasets
    ensures Coherent(WithoutDataset(m, name))
    ensures Step(Flat(m), Call(Command.DropDataset(name, cascade, ifExists), now)) ==
            if |m.tables[name]| > 0 && !cascade
            then (Flat(m), Failed(New(PreconditionFailed, "DropDataset", "dataset not empty: " + name)))
            else (Flat(WithoutDataset(m, name)), Done)
  {
    FlatDatasets(m);
    EmptyDataset(m, name);
    RemoveDataset(m, name);
    hide Flat, Coherent, ListedDatasets, ListedTables, New;
  }

  lemma EmptyDataset(m: Mem, name: string)
    requires name in m.tables
    ensures |m.tables[name]| > 0 <==> RefsIn(Flat(m), name) != {}
  {
    if |m.tables[name]| > 0 {
      var table :| table in m.tables[name].Keys;
      assert TableRef(name, table) in RefsIn(Flat(m), name);
    }
    if RefsIn(Flat(m), name) != {} {
      var ref :| ref in RefsIn(Flat(m), name);
      assert ref.table in m.tables[name].Keys;
    }
  }

  lemma AddTable(m: Mem, ref: TableRef, t: Table)
    requires Coherent(m) && ref.dataset in m.tables && ref.table !in m.tables[ref.dataset]
    requires FiledUnder(t, ref)
    ensures Coherent(WithTable(m, ref, t))
    ensures Flat(WithTable(m, ref, t)) == Catalog(m.datasets, Flat(m).tables[ref := t.schema])
  {
    var m' := WithTable(m, ref, t);
    assert m'.tables.Keys == m.tables.Keys;
    forall r ensures Find(m'.tables, r) == if r == ref then Some(t) else Find(m.tables, r) {
    }
    FlatFinds(m);
    FlatDatasets(m');
    hide Find, Flat;
    FlatByLookup(m', Flat(m).tables[ref := t.schema]);
  }

  lemma RemoveTable(m: Mem, ref: TableRef)
    requires Coherent(m) && ref.dataset in m.tables && ref.table in m.tables[ref.dataset]
    ensures Coherent(WithoutTable(m, ref))
    ensures Flat(WithoutTable(m, ref)) == Catalog(m.datasets, Flat(m).tables - {ref})
  {
    var m' := WithoutTable(m, ref);
    assert m'.tables.Keys == m.tables.Keys;
    forall r ensures Find(m'.tables, r) == if r == ref then None else Find(m.tables, r) {
    }
    FlatFinds(m);
    FlatDatasets(m');
    hide Find, Flat;
    FlatByLookup(m', Flat(m).tables - {ref});
  }

  function DatasetKey(d: Dataset): string { d.name }

  function InfoKey(info: TableInfo): string { info.ref.table }

  /** A walk over the datasets in any order, sorted by name in any way, is the
      canonical listing. */
  lemma DatasetListing(m: Mem, walked: seq<Dataset>, sorted: seq<Dataset>)
    requires Coherent(m)
    requires Ordering.Distinct(Ordering.KeysOf(walked, DatasetKey))
    requires Ordering.Elements(Ordering.KeysOf(walked, DatasetKey)) == m.datasets.Keys
    requires forall i :: 0 <= i < |walked| ==> walked[i].name in m.datasets && walked[i] == m.datasets[walked[i].name]
    requires multiset(sorted) == multiset(walked)
    requires Ordering.SortedBy(sorted, DatasetKey)
    ensures sorted == ListedDatasets(Flat(m))
  {
    Ordering.SortedListingIsCanonical(walked, sorted, DatasetKey);
    var names := Ordering.Enumerate(m.datasets.Keys);
    forall i | 0 <= i < |sorted| ensures sorted[i] == ListedDatasets(Flat(m))[i] {
      assert sorted[i] in multiset(walked);
      assert Ordering.KeysOf(sorted, DatasetKey)[i] == names[i];
    }
  }

  /** The same for the tables of one dataset. */
  lemma TableListing(m: Mem, dataset: string, walked: seq<TableInfo>, sorted: seq<TableInfo>)
    requires Coherent(m) && dataset in m.tables
    requires Ordering.Distinct(Ordering.KeysOf(walked, InfoKey))
    requires Ordering.Elements(Ordering.KeysOf(walked, InfoKey)) == m.tables[dataset].Keys
    requires forall i :: 0 <= i < |walked| ==>
               walked[i].ref.table in m.tables[dataset] &&
               walked[i] == m.tables[dataset][walked[i].ref.table].schema.info
    requires multiset(sorted) == multiset(walked)
    requires Ordering.SortedBy(sorted, InfoKey)
    ensures sorted == ListedTables(Flat(m), dataset)
  {
    Ordering.SortedListingIsCanonical(walked, sorted, InfoKey);
    NamesInDataset(m, dataset);
    var names := Ordering.Enumerate(TableNames(Flat(m), dataset));
    forall i | 0 <= i < |sorted| ensures sorted[i] == ListedTables(Flat(m), dataset)[i] {
      assert sorted[i] in multiset(walked);
      assert Ordering.KeysOf(sorted, InfoKey)[i] == names[i];
      FindIsFlat(m, TableRef(dataset, names[i]));
    }
  }

  lemma NamesInDataset(m: Mem, dataset: string)
    requires dataset in m.tables
    ensures TableNames(Flat(m), dataset) == m.tables[dataset].Keys
  {
    FlatFinds(m);
    forall name | name in m.tables[dataset] ensures name in TableNames(Flat(m), dataset) {
      assert Find(m.tables, TableRef(dataset, name)).Some?;
    }
  }

  /** The Go backend, one call at a time. */
  class Backend {
    var datasets: map<string, Dataset>
    var tables: map<string, map<string, Table>>

    function State(): Mem
      reads this
    {
      Mem(datasets, tables)
    }

    ghost predicate Valid()
      reads this
    {
      Coherent(State())
    }

    ghost function Contents(): Catalog
      reads this
    {
      Flat(State())
    }

    constructor ()
      ensures Valid() && Contents() == EMPTY
    {
      datasets := map[];
      tables := map[];
    }

    method ListDatasets(pageToken: string, limit: int) returns (reply: Reply)
      requires Valid()
      ensures reply.Datasets?
      ensures (Contents(), reply) == Step(Contents(), Call(Command.ListDatasets(pageToken, limit), 0))
    {
      var out: seq<Dataset> := [];
      var rest := datasets.Keys;
      while rest != {}
        invariant rest <= datasets.Keys
        invariant Ordering.Elements(Ordering.KeysOf(out, DatasetKey)) == datasets.Keys - rest
        invariant Ordering.Distinct(Ordering.KeysOf(out, DatasetKey))
        invariant forall i :: 0 <= i < |out| ==> out[i].name in datasets && out[i] == datasets[out[i].name]
        decreases rest
      {
        var name :| name in rest;
        Appended(out, datasets[name], DatasetKey);
        out := out + [datasets[name]];
        rest := rest - {name};
      }
      var sorted := Ordering.SortSlice(out, DatasetKey);
      DatasetListing(State(), out, sorted);
      reply := Datasets(sorted, "");
    }

    method ListTables(dataset: string, pageToken: string, limit: int) returns (reply: Reply)
      requires Valid()
      ensures reply.Tables? || reply.Failed?
      ensures (Contents(), reply) == Step(Contents(), Call(Command.ListTables(dataset, pageToken, limit), 0))
    {
      if dataset !in datasets {
        return Failed(New(NotFound, "ListTables", "dataset not found: " + dataset));
      }
      var tabs := tables[dataset];
      var out: seq<TableInfo> := [];
      var rest := tabs.Keys;
      while rest != {}
        invariant rest <= tabs.Keys
        invariant Ordering.Elements(Ordering.KeysOf(out, InfoKey)) == tabs.Keys - rest
        invariant Ordering.Distinct(Ordering.KeysOf(out, InfoKey))
        invariant forall i :: 0 <= i < |out| ==>
                            out[i].ref.table in tabs && out[i] == tabs[out[i].ref.table].schema.info
        decreases rest
      {
        var name :| name in rest;
        assert Find(tables, TableRef(dataset, name)) == Some(tabs[name]);
        Appended(out, tabs[name].schema.info, InfoKey);
        out := out + [tabs[name].schema.info];
        rest := rest - {name};
      }
      var sorted := Ordering.SortSlice(out, InfoKey);
      TableListing(State(), dataset, out, sorted);
      reply := Tables(sorted, "");
    }

    method GetTable(ref: TableRef) returns (reply: Reply)
      requires Valid()
      ensures reply.Schema? || reply.Failed?
      ensures (Contents(), reply) == Step(Contents(), Call(Command.GetTable(ref), 0))
    {
      FindIsFlat(State(), ref);
      match Find(tables, ref)
      case None =>
        reply := Failed(New(NotFound, "GetTable", "table not found: " + ref.dataset + "." + ref.table));
      case Some(t) =>
        reply := Schema(t.schema);
    }

    method CreateDataset(name: string, opts: DatasetOptions) returns (reply: Reply)
      requires Valid()
      modifies this
      ensures Valid()
      ensures reply.Namespace? || reply.Failed?
      ensures (Contents(), reply) == Step(old(Contents()), Call(Command.CreateDataset(name, opts), 0))
    {
      if name in datasets {
        if opts.ifNotExists {
          return Namespace(datasets[name]);
        }
        return Failed(New(AlreadyExists, "CreateDataset", "dataset exists: " + name));
      }
      var d := Dataset(name, opts.location, opts.description, opts.labels);
      AddDataset(State(), name, d);
      datasets := datasets[name := d];
      tables := tables[name := map[]];
      reply := Namespace(d);
    }

    method DropDataset(name: string, cascade: bool, ifExists: bool) returns (reply: Reply)
      requires Valid()
      modifies this
      ensures Valid()
      ensures reply.Done? || reply.Failed?
      ensures (Contents(), reply) == Step(old(Contents()), Call(Command.DropDataset(name, cascade, ifExists), 0))
    {
      if name !in datasets {
        if ifExists {
          return Done;
        }
        return Failed(New(NotFound, "DropDataset", "dataset not found: " + name));
      }
      DropStep(State(), name, cascade, ifExists, 0);
      if |tables[name]| > 0 && !cascade {
        return Failed(New(PreconditionFailed, "DropDataset", "dataset not empty: " + name));
      }
      datasets := datasets - {name};
      tables := tables - {name};
      assert State() == WithoutDataset(old(State()), name);
      reply := Done;
    }

    /** The insert at the end indexes the outer map: that this is well defined
        is the absence of Go's write to a nil inner map. */
    method CreateTable(ref: TableRef, opts: TableOptions, now: Time) returns (reply: Reply)
      requires Valid()
      modifies this
      ensures Valid()
      ensures reply.Schema? || reply.Failed?
      ensures (Contents(), reply) == Step(old(Contents()), Call(Command.CreateTable(ref, opts), now))
    {
      if opts.asSelect != "" {
        return Failed(New(Unsupported, "CreateTable", "CTAS needs a query engine"));
      }
      if ref.dataset !in datasets {
        return Failed(New(NotFound, "CreateTable", "dataset not found: " + ref.dataset));
      }
      FindIsFlat(State(), ref);
      var existing := Find(tables, ref);
      if existing.Some? {
        if opts.ifNotExists {
          return Schema(existing.value.schema);
        }
        return Failed(New(AlreadyExists, "CreateTable", "table exists: " + ref.table));
      }
      var s := TableSchema(TableInfo(ref, KIND_TABLE, 0, 0, now, now), opts.columns, opts.partitionBy, opts.clusterBy);
      AddTable(State(), ref, Table(s, now));
      tables := tables[ref.dataset := tables[ref.dataset][ref.table := Table(s, now)]];
      reply := Schema(s);
    }

    method DropTable(ref: TableRef, ifExists: bool) returns (reply: Reply)
      requires Valid()
      modifies this
      ensures Valid()
      ensures reply.Done? || reply.Failed?
      ensures (Contents(), reply) == Step(old(Contents()), Call(Command.DropTable(ref, ifExists), 0))
    {
      FindIsFlat(State(), ref);
      if Find(tables, ref).None? {
        if ifExists {
          return Done;
        }
        return Failed(New(NotFound, "DropTable", "table not found: " + ref.table));
      }
      RemoveTable(State(), ref);
      tables := tables[ref.dataset := tables[ref.dataset] - {ref.table}];
      reply := Done;
    }
  }

  lemma Appended<T>(out: seq<T>, x: T, key: T -> string)
    requires Ordering.Distinct(Ordering.KeysOf(out, key))
    requires key(x) !in Ordering.Elements(Ordering.KeysOf(out, key))
    ensures Ordering.Distinct(Ordering.KeysOf(out + [x], key))
    ensures Ordering.Elements(Ordering.KeysOf(out + [x], key)) ==
            Ordering.Elements(Ordering.KeysOf(out, key)) + {key(x)}
  {
    assert Ordering.KeysOf(out + [x], key) == Ordering.KeysOf(out, key) + [key(x)];
    assert forall i :: 0 <= i < |out| ==> Ordering.KeysOf(out, key)[i] in Ordering.Elements(Ordering.KeysOf(out, key));
  }
}
