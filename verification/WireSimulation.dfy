/** The catalog as the wire contract describes it, and the proof that the server
    over the in-memory backend cannot be told from it. */
module WireSimulation {
  import opened Wrappers
  import opened Errors
  import opened FlatCatalog
  import opened Columns
  import opened WireServer
  import Ordering

  /** Namespaces by name and normalized schemas by table. */
  datatype WireCatalog = WireCatalog(datasets: map<string, WireDataset>, tables: map<TableRef, WireSchema>)

  const NOTHING := WireCatalog(map[], map[])

  function TablesOf(w: WireCatalog, dataset: string): set<string> {
    set ref | ref in w.tables && ref.dataset == dataset :: ref.table
  }

  /** A refusal with the text a client reads: operation, class, detail. */
  function Refuse(code: GrpcCode, op: string, className: string, detail: string): Response {
    Refused(Status(code, op + ": " + className + ": " + detail))
  }

  function Absent(tolerated: bool, op: string, detail: string): Response {
    if tolerated then DropResult else Refuse(GrpcNotFound, op, "NotFound", detail)
  }

  ghost function WireListTables(w: WireCatalog, dataset: string): Response {
    if dataset !in w.datasets then Refuse(GrpcNotFound, "ListTables", "NotFound", "dataset not found: " + dataset)
    else
      var names := Ordering.Enumerate(TablesOf(w, dataset));
      ListTablesResult(seq(|names|, i requires 0 <= i < |names| =>
        assert names[i] in Ordering.Elements(names);
        w.tables[TableRef(dataset, names[i])].info), "")
  }

  ghost function WireListDatasets(w: WireCatalog): Response {
    var names := Ordering.Enumerate(w.datasets.Keys);
    ListDatasetsResult(seq(|names|, i requires 0 <= i < |names| =>
      assert names[i] in Ordering.Elements(names);
      w.datasets[names[i]]), "")
  }

  function WireCreateTable(w: WireCatalog, ref: TableRef, req: Request, now: Time): (WireCatalog, Response)
    requires req.CreateTableRequest?
  {
    if req.asSelect != "" then
      (w, Refuse(GrpcUnimplemented, "CreateTable", "Unsupported", "CTAS needs a query engine"))
    else if ref.dataset !in w.datasets then
      (w, Refuse(GrpcNotFound, "CreateTable", "NotFound", "dataset not found: " + ref.dataset))
    else if ref in w.tables then
      (w, if req.ifNotExists then SchemaResult(w.tables[ref])
          else Refuse(GrpcAlreadyExists, "CreateTable", "AlreadyExists", "table exists: " + ref.table))
    else
      var ms := UnixMs(now);
      var s := WireSchema(WireInfo(ref, KIND_TABLE, 0, 0, ms, ms),
                          NormalizeAll(req.columns), req.partitionBy, req.clusterBy);
      (w.(tables := w.tables[ref := s]), SchemaResult(s))
  }

  function WireCreateDataset(w: WireCatalog, req: Request): (WireCatalog, Response)
    requires req.CreateDatasetRequest?
  {
    if req.name in w.datasets then
      (w, if req.ifNotExists then DatasetResult(w.datasets[req.name])
          else Refuse(GrpcAlreadyExists, "CreateDataset", "AlreadyExists", "dataset exists: " + req.name))
    else
      var d := WireDataset(req.name, req.location, req.description, req.labels);
      (w.(datasets := w.datasets[req.name := d]), DatasetResult(d))
  }

  function WireDropDataset(w: WireCatalog, name: string, cascade: bool, ifExists: bool): (WireCatalog, Response) {
    if name !in w.datasets then
      (w, Absent(ifExists, "DropDataset", "dataset not found: " + name))
    else if TablesOf(w, name) != {} && !cascade then
      (w, Refuse(GrpcFailedPrecondition, "DropDataset", "PreconditionFailed", "dataset not empty: " + name))
    else
      (DatasetGone(w, name), DropResult)
  }

  function DatasetGone(w: WireCatalog, name: string): WireCatalog {
    WireCatalog(w.datasets - {name}, map ref | ref in w.tables && ref.dataset != name :: w.tables[ref])
  }

  /** The table a request names: naming none is naming the one with empty names. */
  function Named(ref: Option<TableRef>): TableRef {
    if ref.Some? then ref.value else TableRef("", "")
  }

  /** One request against the wire contract: no backend type appears. */
  ghost function WireStep(w: WireCatalog, req: Request, now: Time): (WireCatalog, Response) {
    match req
    case ListDatasetsRequest(_, _) => (w, WireListDatasets(w))
    case ListTablesRequest(dataset, _, _) => (w, WireListTables(w, dataset))
    case GetTableRequest(r) =>
      var ref := Named(r);
      (w, if ref in w.tables then SchemaResult(w.tables[ref])
          else Refuse(GrpcNotFound, "GetTable", "NotFound", "table not found: " + ref.dataset + "." + ref.table))
    case CreateDatasetRequest(_, _, _, _, _) => WireCreateDataset(w, req)
    case DropDatasetRequest(name, cascade, ifExists) => WireDropDataset(w, name, cascade, ifExists)
    case CreateTableRequest(r, _, _, _, _, _) => WireCreateTable(w, Named(r), req, now)
    case DropTableRequest(r, ifExists) =>
      var ref := Named(r);
      if ref in w.tables then (w.(tables := w.tables - {ref}), DropResult)
      else (w, Absent(ifExists, "DropTable", "table not found: " + ref.table))
  }

  /** How the backend's catalog looks from the wire. */
  function View(c: Catalog): WireCatalog {
    WireCatalog(map name | name in c.datasets :: DatasetOut(c.datasets[name]),
                map ref | ref in c.tables :: TableSchemaOut(c.tables[ref]))
  }

  lemma StatusOf(code: Code, op: string, msg: string)
    ensures ToStatus(New(code, op, msg)) == Status(ToGrpc(code), op + ": " + CodeName(code) + ": " + msg)
  {
    assert Text(New(code, op, msg)) == op + ": " + CodeName(code) + ": " + Text(Plain(msg));
  }

  ghost predicate Simulates(c: Catalog, req: Request, now: Time) {
    var (next, resp) := Serve(c, req, now);
    WireStep(View(c), req, now) == (View(next), resp)
  }

  lemma TablesOfView(c: Catalog, dataset: string)
    ensures TablesOf(View(c), dataset) == TableNames(c, dataset)
    ensures TablesOf(View(c), dataset) == {} <==> RefsIn(c, dataset) == {}
  {
    forall ref | ref in RefsIn(c, dataset) ensures ref.table in TablesOf(View(c), dataset) {
      assert ref in View(c).tables;
    }
    if TablesOf(View(c), dataset) != {} {
      var name :| name in TablesOf(View(c), dataset);
      assert TableRef(dataset, name) in RefsIn(c, dataset);
    }
  }

  lemma ListDatasetsSimulates(c: Catalog, req: Request, now: Time)
    requires req.ListDatasetsRequest?
    ensures Simulates(c, req, now)
  {
    assert View(c).datasets.Keys == c.datasets.Keys;
    var wire, served := WireListDatasets(View(c)), Serve(c, req, now).1;
    forall i | 0 <= i < |wire.datasets| ensures wire.datasets[i] == served.datasets[i] {
      assert Ordering.Enumerate(c.datasets.Keys)[i] in Ordering.Elements(Ordering.Enumerate(c.datasets.Keys));
    }
    assert wire.datasets == served.datasets;
  }

  lemma ListTablesSimulates(c: Catalog, req: Request, now: Time)
    requires req.ListTablesRequest?
    ensures Simulates(c, req, now)
  {
    TablesOfView(c, req.dataset);
    if req.dataset !in c.datasets {
      StatusOf(NotFound, "ListTables", "dataset not found: " + req.dataset);
    } else {
      var wire, served := WireListTables(View(c), req.dataset), Serve(c, req, now).1;
      forall i | 0 <= i < |wire.tables| ensures wire.tables[i] == served.tables[i] {
        var names := Ordering.Enumerate(TableNames(c, req.dataset));
        assert names[i] in Ordering.Elements(names);
      }
      assert wire.tables == served.tables;
    }
  }

  lemma GetTableSimulates(c: Catalog, req: Request, now: Time)
    requires req.GetTableRequest?
    ensures Simulates(c, req, now)
  {
    var ref := TableRefIn(req.ref);
    StatusOf(NotFound, "GetTable", "table not found: " + ref.dataset + "." + ref.table);
  }

  lemma CreateDatasetSimulates(c: Catalog, req: Request, now: Time)
    requires req.CreateDatasetRequest?
    ensures Simulates(c, req, now)
  {
    hide ListedDatasets, ListedTables, WireListDatasets, WireListTables, ToStatus, ColumnsOut;
    StatusOf(AlreadyExists, "CreateDataset", "dataset exists: " + req.name);
    var next := Serve(c, req, now).0;
    assert View(next).tables == View(c).tables;
    if req.name !in c.datasets {
      assert View(next).datasets == View(c).datasets[req.name := DatasetOut(next.datasets[req.name])];
    }
  }

  lemma DropDatasetSimulates(c: Catalog, req: Request, now: Time)
    requires req.DropDatasetRequest?
    ensures Simulates(c, req, now)
  {
    hide ListedDatasets, ListedTables, WireListDatasets, WireListTables, ToStatus, ColumnsOut;
    TablesOfView(c, req.name);
    StatusOf(NotFound, "DropDataset", "dataset not found: " + req.name);
    StatusOf(PreconditionFailed, "DropDataset", "dataset not empty: " + req.name);
    ViewWithoutDataset(c, req.name);
    hide View;
  }

  lemma ViewWithoutDataset(c: Catalog, name: string)
    ensures View(Catalog(c.datasets - {name}, c.tables - RefsIn(c, name))) == DatasetGone(View(c), name)
    ensures View(c).datasets.Keys == c.datasets.Keys
  {
    var next, gone := View(Catalog(c.datasets - {name}, c.tables - RefsIn(c, name))), DatasetGone(View(c), name);
    assert next.datasets == gone.datasets;
    assert next.tables == gone.tables;
  }

  lemma ViewWithTable(c: Catalog, ref: TableRef, s: TableSchema)
    ensures View(c.(tables := c.tables[ref := s])) == View(c).(tables := View(c).tables[ref := TableSchemaOut(s)])
    ensures View(c).datasets.Keys == c.datasets.Keys && View(c).tables.Keys == c.tables.Keys
    ensures ref in c.tables ==> View(c).tables[ref] == TableSchemaOut(c.tables[ref])
  {
    assert View(c.(tables := c.tables[ref := s])).tables == View(c).tables[ref := TableSchemaOut(s)];
  }

  lemma CreateTableSimulates(c: Catalog, req: Request, now: Time)
    requires req.CreateTableRequest?
    ensures Simulates(c, req, now)
  {
    hide ListedDatasets, ListedTables, WireListDatasets, WireListTables, ToStatus, ColumnsOut, ColumnsIn, NormalizeAll;
    var ref := TableRefIn(req.ref);
    StatusOf(Unsupported, "CreateTable", "CTAS needs a query engine");
    StatusOf(NotFound, "CreateTable", "dataset not found: " + ref.dataset);
    StatusOf(AlreadyExists, "CreateTable", "table exists: " + ref.table);
    AllInThenOutNormalizes(req.columns);
    ViewWithTable(c, ref, NewTable(ref, CommandIn(req).tableOptions, now));
    hide View;
  }

  lemma DropTableSimulates(c: Catalog, req: Request, now: Time)
    requires req.DropTableRequest?
    ensures Simulates(c, req, now)
  {
    hide ListedDatasets, ListedTables, WireListDatasets, WireListTables, ToStatus, ColumnsOut;
    var ref := TableRefIn(req.ref);
    StatusOf(NotFound, "DropTable", "table not found: " + ref.table);
    var next := Serve(c, req, now).0;
    assert View(next).datasets == View(c).datasets;
    assert ref in c.tables ==> View(next).tables == View(c).tables - {ref};
  }

  /** One request: the same answer, and catalogs that still look the same. */
  lemma StepSimulates(c: Catalog, req: Request, now: Time)
    ensures Simulates(c, req, now)
  {
    hide Simulates;
    match req
    case ListDatasetsRequest(_, _) => ListDatasetsSimulates(c, req, now);
    case ListTablesRequest(_, _, _) => ListTablesSimulates(c, req, now);
    case GetTableRequest(_) => GetTableSimulates(c, req, now);
    case CreateDatasetRequest(_, _, _, _, _) => CreateDatasetSimulates(c, req, now);
    case DropDatasetRequest(_, _, _) => DropDatasetSimulates(c, req, now);
    case CreateTableRequest(_, _, _, _, _, _) => CreateTableSimulates(c, req, now);
    case DropTableRequest(_, _) => DropTableSimulates(c, req, now);
  }

  /** A request and what the clock reads while it is served. */
  datatype Arrival = Arrival(req: Request, now: Time)

  /** The server over an empty backend, through a run of requests. */
  ghost function Served(run: seq<Arrival>): (Catalog, seq<Response>) {
    if |run| == 0 then (EMPTY, [])
    else
      var last := run[|run| - 1];
      var (c, answers) := Served(run[..|run| - 1]);
      var (next, resp) := Serve(c, last.req, last.now);
      (next, answers + [resp])
  }

  /** The wire contract through the same run. */
  ghost function Specified(run: seq<Arrival>): (WireCatalog, seq<Response>) {
    if |run| == 0 then (NOTHING, [])
    else
      var last := run[|run| - 1];
      var (w, answers) := Specified(run[..|run| - 1]);
      var (next, resp) := WireStep(w, last.req, last.now);
      (next, answers + [resp])
  }

  /** Over every run of catalog RPCs the server answers, messages and status
      codes alike, exactly as the wire contract says. */
  lemma {:induction false} ServerMeetsContract(run: seq<Arrival>)
    ensures Served(run).1 == Specified(run).1
    ensures View(Served(run).0) == Specified(run).0
  {
    hide Serve, WireStep;
    if |run| == 0 {
    } else {
      var last := run[|run| - 1];
      ServerMeetsContract(run[..|run| - 1]);
      StepSimulates(Served(run[..|run| - 1]).0, last.req, last.now);
    }
  }

  // --- Requests in their own words ---

  /** A table is created under the very names the request gives, in that dataset and
      no other, and the client is told of it under them. */
  lemma CreateGoesByItsName(c: Catalog, req: Request, now: Time, dataset: string, table: string)
    requires req.CreateTableRequest? && req.ref == Some(TableRef(dataset, table)) && req.asSelect == ""
    ensures var (next, resp) := Serve(c, req, now);
            && next.datasets == c.datasets
            && if dataset in c.datasets && TableRef(dataset, table) !in c.tables then
                 && resp.SchemaResult? && resp.schema.info.ref == TableRef(dataset, table)
                 && next.tables.Keys == c.tables.Keys + {TableRef(dataset, table)}
                 && next.tables - {TableRef(dataset, table)} == c.tables
               else
                 && next == c
                 && (resp.SchemaResult? <==> dataset in c.datasets && req.ifNotExists)
                 && (dataset !in c.datasets ==> resp.Refused? && resp.status.code == GrpcNotFound)
                 && (dataset in c.datasets && !req.ifNotExists ==>
                       resp.Refused? && resp.status.code == GrpcAlreadyExists)
  {
    hide ListedDatasets, ListedTables, ColumnsOut, ColumnsIn;
    StatusOf(NotFound, "CreateTable", "dataset not found: " + dataset);
    StatusOf(AlreadyExists, "CreateTable", "table exists: " + table);
  }

  /** Reading a table looks under the names the request gives. */
  lemma GetGoesByItsName(c: Catalog, req: Request, now: Time, dataset: string, table: string)
    requires Sound(c) && req.GetTableRequest? && req.ref == Some(TableRef(dataset, table))
    ensures var (next, resp) := Serve(c, req, now);
            && next == c
            && (resp.SchemaResult? <==> TableRef(dataset, table) in c.tables)
            && (resp.SchemaResult? ==> resp.schema.info.ref == TableRef(dataset, table))
            && (!resp.SchemaResult? ==> resp.Refused? && resp.status.code == GrpcNotFound)
  {
    hide ListedDatasets, ListedTables, ColumnsOut;
    StatusOf(NotFound, "GetTable", "table not found: " + dataset + "." + table);
  }

  /** And dropping takes that table only. */
  lemma DropGoesByItsName(c: Catalog, req: Request, now: Time, dataset: string, table: string)
    requires req.DropTableRequest? && req.ref == Some(TableRef(dataset, table))
    ensures var (next, resp) := Serve(c, req, now);
            && next.datasets == c.datasets && next.tables == c.tables - {TableRef(dataset, table)}
            && (resp.DropResult? <==> TableRef(dataset, table) in c.tables || req.ifExists)
            && (!resp.DropResult? ==> resp.Refused? && resp.status.code == GrpcNotFound)
  {
    hide ListedDatasets, ListedTables, ColumnsOut;
    StatusOf(NotFound, "DropTable", "table not found: " + table);
    if TableRef(dataset, table) !in c.tables {
      assert c.tables - {TableRef(dataset, table)} == c.tables;
    }
  }

  /** A request without a reference is one for the table with empty names. */
  lemma NoNameIsEmptyName(c: Catalog, req: Request, now: Time)
    requires req.GetTableRequest? || req.CreateTableRequest? || req.DropTableRequest?
    requires req.ref == None
    ensures Serve(c, req, now) == Serve(c, req.(ref := Some(TableRef("", ""))), now)
  {
    hide Step, ResponseOut;
  }

  // --- What the contract promises a client ---

  predicate AllNormal(columns: seq<WireColumn>) {
    forall pc :: pc in columns ==> Normal(pc)
  }

  ghost predicate NormalCatalog(w: WireCatalog) {
    forall ref :: ref in w.tables ==> AllNormal(w.tables[ref].columns)
  }

  lemma StepKeepsNormal(w: WireCatalog, req: Request, now: Time)
    requires NormalCatalog(w)
    ensures var (next, resp) := WireStep(w, req, now);
            NormalCatalog(next) && (resp.SchemaResult? ==> AllNormal(resp.schema.columns))
  {
    if req.CreateTableRequest? {
      forall pc | pc in NormalizeAll(req.columns) ensures Normal(pc) {
        var i :| 0 <= i < |req.columns| && pc == Normalize(req.columns[i]);
      }
    }
  }

  lemma {:induction false} ContractIsNormal(run: seq<Arrival>)
    ensures NormalCatalog(Specified(run).0)
    ensures forall resp :: resp in Specified(run).1 && resp.SchemaResult? ==> AllNormal(resp.schema.columns)
  {
    hide WireStep, AllNormal, NormalCatalog;
    if |run| == 0 {
      assert NormalCatalog(NOTHING) by { NothingIsNormal(); }
    } else {
      var last := run[|run| - 1];
      ContractIsNormal(run[..|run| - 1]);
      StepKeepsNormal(Specified(run[..|run| - 1]).0, last.req, last.now);
    }
  }

  lemma NothingIsNormal()
    ensures NormalCatalog(NOTHING)
  {
  }

  /** Whatever enum numbers clients send, no schema the server ever answers with
      holds an unspecified or undeclared column type, at any depth. */
  lemma ClientsSeeDeclaredTypes(run: seq<Arrival>, k: nat)
    requires k < |Served(run).1| && Served(run).1[k].SchemaResult?
    ensures AllNormal(Served(run).1[k].schema.columns)
  {
    hide Serve, WireStep, AllNormal;
    ServerMeetsContract(run);
    ContractIsNormal(run);
  }
}
