/** The catalog RPCs: request conversion, backend call, response conversion and
    status mapping, against a catalog stated in wire terms alone. */
module WireServer {
  import opened Wrappers
  import opened Errors
  import opened FlatCatalog
  import opened Columns
  import M = MemBackend

  datatype WireDataset = WireDataset(name: string, location: string, description: string, labels: map<string, string>)

  datatype WireInfo = WireInfo(
    ref: TableRef,
    kind: int,
    numRows: int,
    numBytes: int,
    createdUnixMs: int,
    modifiedUnixMs: int)

  datatype WireSchema = WireSchema(
    info: WireInfo,
    columns: seq<WireColumn>,
    partitionBy: seq<string>,
    clusterBy: seq<string>)

  /** A request's table reference is a message and may be absent. */
  datatype Request =
    | ListDatasetsRequest(pageToken: string, limit: int)
    | ListTablesRequest(dataset: string, pageToken: string, limit: int)
    | GetTableRequest(ref: Option<TableRef>)
    | CreateDatasetRequest(
        name: string,
        location: string,
        description: string,
        labels: map<string, string>,
        ifNotExists: bool)
    | DropDatasetRequest(name: string, cascade: bool, ifExists: bool)
    | CreateTableRequest(
        ref: Option<TableRef>,
        columns: seq<WireColumn>,
        partitionBy: seq<string>,
        clusterBy: seq<string>,
        ifNotExists: bool,
        asSelect: string)
    | DropTableRequest(ref: Option<TableRef>, ifExists: bool)

  datatype Response =
    | ListDatasetsResult(datasets: seq<WireDataset>, nextPageToken: string)
    | ListTablesResult(tables: seq<WireInfo>, nextPageToken: string)
    | SchemaResult(schema: WireSchema)
    | DatasetResult(dataset: WireDataset)
    | DropResult
    | Refused(status: Status)

  // --- Conversion ---

  /** The getters of an absent message give empty strings. */
  function TableRefIn(ref: Option<TableRef>): TableRef {
    match ref
    case Some(r) => r
    case None => TableRef("", "")
  }

  const TABLE_KIND_TO_PROTO: map<int, int> := map k: int | KIND_UNSPECIFIED <= k <= KIND_EXTERNAL :: k

  function TableKindOut(kind: int): int {
    if kind in TABLE_KIND_TO_PROTO then TABLE_KIND_TO_PROTO[kind] else 0
  }

  function TableInfoOut(t: TableInfo): WireInfo {
    WireInfo(t.ref, TableKindOut(t.kind), t.numRows, t.numBytes, UnixMs(t.created), UnixMs(t.modified))
  }

  function TableSchemaOut(s: TableSchema): WireSchema {
    WireSchema(TableInfoOut(s.info), ColumnsOut(s.columns), s.partitionBy, s.clusterBy)
  }

  function DatasetOut(d: Dataset): WireDataset {
    WireDataset(d.name, d.location, d.description, d.labels)
  }

  /** A schema is told field by field: the same names and numbers, the columns one
      for one, each instant by its millisecond. */
  lemma SchemaIsTold(s: TableSchema)
    ensures var w := TableSchemaOut(s);
            && w.info.ref == s.info.ref && w.info.numRows == s.info.numRows && w.info.numBytes == s.info.numBytes
            && (w.info.kind == if 0 <= s.info.kind <= 4 then s.info.kind else 0)
            && IsMilliOf(w.info.createdUnixMs, s.info.created) && IsMilliOf(w.info.modifiedUnixMs, s.info.modified)
            && w.partitionBy == s.partitionBy && w.clusterBy == s.clusterBy
            && |w.columns| == |s.columns|
            && forall i :: 0 <= i < |s.columns| ==>
                 SameColumn(s.columns[i], w.columns[i]) && SameTypes(s.columns[i], w.columns[i])
  {
    forall i | 0 <= i < |s.columns|
      ensures SameColumn(s.columns[i], TableSchemaOut(s).columns[i])
      ensures SameTypes(s.columns[i], TableSchemaOut(s).columns[i])
    {
      OutKeepsColumn(s.columns[i]);
    }
  }

  lemma DatasetIsTold(d: Dataset)
    ensures var w := DatasetOut(d);
            w.name == d.name && w.location == d.location && w.description == d.description && w.labels == d.labels
  {
  }

  function CommandIn(req: Request): Command {
    match req
    case ListDatasetsRequest(token, limit) => ListDatasets(token, limit)
    case ListTablesRequest(dataset, token, limit) => ListTables(dataset, token, limit)
    case GetTableRequest(ref) => GetTable(TableRefIn(ref))
    case CreateDatasetRequest(name, location, description, labels, ifNotExists) =>
      CreateDataset(name, DatasetOptions(location, description, labels, ifNotExists))
    case DropDatasetRequest(name, cascade, ifExists) => DropDataset(name, cascade, ifExists)
    case CreateTableRequest(ref, columns, partitionBy, clusterBy, ifNotExists, asSelect) =>
      CreateTable(TableRefIn(ref), TableOptions(ColumnsIn(columns), partitionBy, clusterBy, ifNotExists, asSelect))
    case DropTableRequest(ref, ifExists) => DropTable(TableRefIn(ref), ifExists)
  }

  function ResponseOut(reply: Reply): Response {
    match reply
    case Datasets(datasets, token) =>
      ListDatasetsResult(seq(|datasets|, i requires 0 <= i < |datasets| => DatasetOut(datasets[i])), token)
    case Tables(tables, token) =>
      ListTablesResult(seq(|tables|, i requires 0 <= i < |tables| => TableInfoOut(tables[i])), token)
    case Schema(schema) => SchemaResult(TableSchemaOut(schema))
    case Namespace(dataset) => DatasetResult(DatasetOut(dataset))
    case Done => DropResult
    case Failed(err) => Refused(ToStatus(err))
  }

  /** What the handlers below do to the backend's contents, and answer. */
  ghost function Serve(c: Catalog, req: Request, now: Time): (Catalog, Response) {
    var (next, reply) := Step(c, Call(CommandIn(req), now));
    (next, ResponseOut(reply))
  }

  /** The Go server over the in-memory backend. */
  class Server {
    const be: M.Backend

    constructor (be: M.Backend)
      ensures this.be == be
    {
      this.be := be;
    }

    method ListDatasets(pageToken: string, limit: int) returns (resp: Response)
      requires be.Valid()
      ensures (be.Contents(), resp) == Serve(be.Contents(), ListDatasetsRequest(pageToken, limit), 0)
    {
      hide Step, ToStatus, ColumnsOut, ColumnsIn;
      var reply := be.ListDatasets(pageToken, limit);
      var out: seq<WireDataset> := [];
      for i := 0 to |reply.datasets|
        invariant |out| == i && forall k :: 0 <= k < i ==> out[k] == DatasetOut(reply.datasets[k])
      {
        out := out + [DatasetOut(reply.datasets[i])];
      }
      assert out == ResponseOut(reply).datasets;
      resp := ListDatasetsResult(out, reply.nextPageToken);
    }

    method ListTables(dataset: string, pageToken: string, limit: int) returns (resp: Response)
      requires be.Valid()
      ensures (be.Contents(), resp) == Serve(be.Contents(), ListTablesRequest(dataset, pageToken, limit), 0)
    {
      hide Step, ToStatus, ColumnsOut, ColumnsIn;
      var reply := be.ListTables(dataset, pageToken, limit);
      if reply.Failed? {
        return Refused(ToStatus(reply.err));
      }
      var out: seq<WireInfo> := [];
      for i := 0 to |reply.tables|
        invariant |out| == i && forall k :: 0 <= k < i ==> out[k] == TableInfoOut(reply.tables[k])
      {
        out := out + [TableInfoOut(reply.tables[i])];
      }
      assert out == ResponseOut(reply).tables;
      resp := ListTablesResult(out, reply.nextPageToken);
    }

    method GetTable(ref: Option<TableRef>) returns (resp: Response)
      requires be.Valid()
      ensures (be.Contents(), resp) == Serve(be.Contents(), GetTableRequest(ref), 0)
    {
      hide Step, ToStatus, ColumnsOut, ColumnsIn;
      var reply := be.GetTable(TableRefIn(ref));
      resp := Answer(reply);
    }

    method CreateDataset(
        name: string, location: string, description: string, labels: map<string, string>, ifNotExists: bool)
        returns (resp: Response)
      requires be.Valid()
      modifies be
      ensures be.Valid()
      ensures (be.Contents(), resp) ==
              Serve(old(be.Contents()), CreateDatasetRequest(name, location, description, labels, ifNotExists), 0)
    {
      hide Step, ToStatus, ColumnsOut, ColumnsIn;
      var reply := be.CreateDataset(name, DatasetOptions(location, description, labels, ifNotExists));
      resp := Answer(reply);
    }

    method DropDataset(name: string, cascade: bool, ifExists: bool) returns (resp: Response)
      requires be.Valid()
      modifies be
      ensures be.Valid()
      ensures (be.Contents(), resp) == Serve(old(be.Contents()), DropDatasetRequest(name, cascade, ifExists), 0)
    {
      hide Step, ToStatus, ColumnsOut, ColumnsIn;
      var reply := be.DropDataset(name, cascade, ifExists);
      resp := Answer(reply);
    }

    method CreateTable(
        ref: Option<TableRef>, columns: seq<WireColumn>, partitionBy: seq<string>, clusterBy: seq<string>,
        ifNotExists: bool, asSelect: string, now: Time)
        returns (resp: Response)
      requires be.Valid()
      modifies be
      ensures be.Valid()
      ensures (be.Contents(), resp) ==
              Serve(old(be.Contents()),
                    CreateTableRequest(ref, columns, partitionBy, clusterBy, ifNotExists, asSelect), now)
    {
      hide Step, ToStatus, ColumnsOut, ColumnsIn;
      hide ResponseOut, TableRefIn;
      var cols := TranslateAllIn(columns);
      var opts := TableOptions(cols, partitionBy, clusterBy, ifNotExists, asSelect);
      var reply := be.CreateTable(TableRefIn(ref), opts, now);
      resp := Answer(reply);
    }

    method DropTable(ref: Option<TableRef>, ifExists: bool) returns (resp: Response)
      requires be.Valid()
      modifies be
      ensures be.Valid()
      ensures (be.Contents(), resp) == Serve(old(be.Contents()), DropTableRequest(ref, ifExists), 0)
    {
      hide Step, ToStatus, ColumnsOut, ColumnsIn;
      var reply := be.DropTable(TableRefIn(ref), ifExists);
      resp := Answer(reply);
    }

    /** The tail of the unary handlers: an error becomes a status, a value its
        message. */
    method Answer(reply: Reply) returns (resp: Response)
      requires !reply.Datasets? && !reply.Tables?
      ensures resp == ResponseOut(reply)
    {
      match reply
      case Failed(err) => resp := Refused(ToStatus(err));
      case Done => resp := DropResult;
      case Namespace(d) => resp := DatasetResult(DatasetOut(d));
      case Schema(s) =>
        var columns := TranslateAllOut(s.columns);
        resp := SchemaResult(WireSchema(TableInfoOut(s.info), columns, s.partitionBy, s.clusterBy));
    }
  }
}
