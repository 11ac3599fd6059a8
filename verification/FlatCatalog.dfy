/** The warehouse catalog as a client sees it: namespaces, tables keyed by
    (dataset, table), and one sequential answer to each catalog call. */
module FlatCatalog {
  import opened Errors
  import Ordering

  /** An instant, in nanoseconds since the Unix epoch. */
  type Time = int

  /** Declared column types are 0 (unknown) to 15; Go's type admits any int. */
  type ColumnType = int

  const TYPE_UNKNOWN: ColumnType := 0
  const TYPE_GEOGRAPHY: ColumnType := 15

  const KIND_UNSPECIFIED := 0
  const KIND_TABLE := 1
  const KIND_EXTERNAL := 4

  datatype Column = Column(
    name: string,
    columnType: ColumnType,
    nullable: bool,
    nativeType: string,
    precision: int,
    scale: int,
    description: string,
    fields: seq<Column>)

  datatype TableRef = TableRef(dataset: string, table: string)

  datatype TableInfo = TableInfo(
    ref: TableRef,
    kind: int,
    numRows: int,
    numBytes: int,
    created: Time,
    modified: Time)

  datatype TableSchema = TableSchema(
    info: TableInfo,
    columns: seq<Column>,
    partitionBy: seq<string>,
    clusterBy: seq<string>)

  datatype Dataset = Dataset(name: string, location: string, description: string, labels: map<string, string>)

  datatype DatasetOptions = DatasetOptions(
    location: string,
    description: string,
    labels: map<string, string>,
    ifNotExists: bool)

  datatype TableOptions = TableOptions(
    columns: seq<Column>,
    partitionBy: seq<string>,
    clusterBy: seq<string>,
    ifNotExists: bool,
    asSelect: string)

  datatype Command =
    | ListDatasets(pageToken: string, limit: int)
    | ListTables(dataset: string, pageToken: string, limit: int)
    | GetTable(ref: TableRef)
    | CreateDataset(name: string, datasetOptions: DatasetOptions)
    | DropDataset(name: string, cascade: bool, ifExists: bool)
    | CreateTable(ref: TableRef, tableOptions: TableOptions)
    | DropTable(ref: TableRef, ifExists: bool)

  /** A call and what the clock reads while it runs. */
  datatype Call = Call(cmd: Command, now: Time)

  datatype Reply =
    | Datasets(datasets: seq<Dataset>, nextPageToken: string)
    | Tables(tables: seq<TableInfo>, nextPageToken: string)
    | Schema(schema: TableSchema)
    | Namespace(dataset: Dataset)
    | Done
    | Failed(err: Err)

  /** The flat catalog. */
  datatype Catalog = Catalog(datasets: map<string, Dataset>, tables: map<TableRef, TableSchema>)

  const EMPTY := Catalog(map[], map[])

  function RefsIn(c: Catalog, dataset: string): set<TableRef> {
    set ref | ref in c.tables && ref.dataset == dataset
  }

  function TableNames(c: Catalog, dataset: string): set<string> {
    set ref | ref in c.tables && ref.dataset == dataset :: ref.table
  }

  function NewDataset(name: string, opts: DatasetOptions): Dataset {
    Dataset(name, opts.location, opts.description, opts.labels)
  }

  function NewTable(ref: TableRef, opts: TableOptions, now: Time): TableSchema {
    TableSchema(TableInfo(ref, KIND_TABLE, 0, 0, now, now), opts.columns, opts.partitionBy, opts.clusterBy)
  }

  ghost function ListedDatasets(c: Catalog): seq<Dataset> {
    var names := Ordering.Enumerate(c.datasets.Keys);
    seq(|names|, i requires 0 <= i < |names| =>
      assert names[i] in Ordering.Elements(names);
      c.datasets[names[i]])
  }

  ghost function ListedTables(c: Catalog, dataset: string): seq<TableInfo> {
    var names := Ordering.Enumerate(TableNames(c, dataset));
    seq(|names|, i requires 0 <= i < |names| =>
      assert names[i] in Ordering.Elements(names);
      c.tables[TableRef(dataset, names[i])].info)
  }

  /** What one call does to the flat catalog, and what it answers.  A call that
      fails changes nothing. */
  ghost function Step(c: Catalog, call: Call): (result: (Catalog, Reply))
    ensures result.1.Failed? ==> result.0 == c
  {
    match call.cmd
    case ListDatasets(_, _) =>
      (c, Datasets(ListedDatasets(c), ""))
    case ListTables(dataset, _, _) =>
      if dataset !in c.datasets then
        (c, Failed(New(NotFound, "ListTables", "dataset not found: " + dataset)))
      else
        (c, Tables(ListedTables(c, dataset), ""))
    case GetTable(ref) =>
      if ref in c.tables then
        (c, Schema(c.tables[ref]))
      else
        (c, Failed(New(NotFound, "GetTable", "table not found: " + ref.dataset + "." + ref.table)))
    case CreateDataset(name, opts) =>
      if name !in c.datasets then
        (c.(datasets := c.datasets[name := NewDataset(name, opts)]), Namespace(NewDataset(name, opts)))
      else if opts.ifNotExists then
        (c, Namespace(c.datasets[name]))
      else
        (c, Failed(New(AlreadyExists, "CreateDataset", "dataset exists: " + name)))
    case DropDataset(name, cascade, ifExists) =>
      if name !in c.datasets then
        (c, if ifExists then Done else Failed(New(NotFound, "DropDataset", "dataset not found: " + name)))
      else if RefsIn(c, name) != {} && !cascade then
        (c, Failed(New(PreconditionFailed, "DropDataset", "dataset not empty: " + name)))
      else
        (Catalog(c.datasets - {name}, c.tables - RefsIn(c, name)), Done)
    case CreateTable(ref, opts) =>
      if opts.asSelect != "" then
        (c, Failed(New(Unsupported, "CreateTable", "CTAS needs a query engine")))
      else if ref.dataset !in c.datasets then
        (c, Failed(New(NotFound, "CreateTable", "dataset not found: " + ref.dataset)))
      else if ref !in c.tables then
        (c.(tables := c.tables[ref := NewTable(ref, opts, call.now)]), Schema(NewTable(ref, opts, call.now)))
      else if opts.ifNotExists then
        (c, Schema(c.tables[ref]))
      else
        (c, Failed(New(AlreadyExists, "CreateTable", "table exists: " + ref.table)))
    case DropTable(ref, ifExists) =>
      if ref in c.tables then
        (c.(tables := c.tables - {ref}), Done)
      else
        (c, if ifExists then Done else Failed(New(NotFound, "DropTable", "table not found: " + ref.table)))
  }

  ghost function After(calls: seq<Call>): Catalog {
    if |calls| == 0 then EMPTY
    else Step(After(calls[..|calls| - 1]), calls[|calls| - 1]).0
  }

  /** Every entry sits under its own name and every table in a live dataset. */
  ghost predicate Sound(c: Catalog) {
    && (forall name :: name in c.datasets ==> c.datasets[name].name == name)
    && (forall ref :: ref in c.tables ==> ref.dataset in c.datasets && c.tables[ref].info.ref == ref)
  }

  lemma StepKeepsSound(c: Catalog, call: Call)
    requires Sound(c)
    ensures Sound(Step(c, call).0)
  {
    hide ListedDatasets, ListedTables, New;
    match call.cmd
    case ListDatasets(_, _) =>
    case ListTables(_, _, _) =>
    case GetTable(_) =>
    case CreateDataset(_, _) =>
    case DropDataset(_, _, _) =>
    case CreateTable(_, _) =>
    case DropTable(_, _) =>
  }

  lemma {:induction false} AfterIsSound(calls: seq<Call>)
    ensures Sound(After(calls))
  {
    hide Step, Sound;
    if |calls| == 0 {
      EmptyIsSound();
    } else {
      AfterIsSound(calls[..|calls| - 1]);
      StepKeepsSound(After(calls[..|calls| - 1]), calls[|calls| - 1]);
    }
  }

  lemma EmptyIsSound()
    ensures Sound(EMPTY)
  {
  }
}
