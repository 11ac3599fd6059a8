/** The two streaming RPCs.  Readers, senders and incoming streams follow a
    script, one entry for each thing that can happen to them; theorems hold for
    every script. */
module Streams {
  import opened Wrappers
  import opened Errors
  import opened FlatCatalog
  import opened Columns
  import opened WireServer

  newtype byte = x: int | 0 <= x < 256

  type Bytes = seq<byte>

  datatype JobStats = JobStats(
    bytesScanned: int,
    bytesBilled: int,
    rowsProduced: int,
    rowsAffected: int,
    slotMillis: int,
    cacheHit: bool)

  datatype Job = Job(id: string, state: int, stats: JobStats, error: string, created: Time, started: Time, ended: Time)

  datatype WireJob = WireJob(
    id: string,
    state: int,
    stats: JobStats,
    error: string,
    createdUnixMs: int,
    startedUnixMs: int,
    endedUnixMs: int)

  /** Go counts states from PENDING at 0, the wire from PENDING at 1. */
  const JOB_STATE_TO_PROTO: map<int, int> := map s: int | 0 <= s <= 4 :: s + 1

  function JobStateOut(state: int): int {
    if state in JOB_STATE_TO_PROTO then JOB_STATE_TO_PROTO[state] else 0
  }

  /** A client tells the five states apart, in their order, and reads anything
      else as unspecified. */
  lemma JobStatesKeepOrder(state: int, later: int)
    ensures JobStateOut(state) == 0 <==> state < 0 || state > 4
    ensures 0 <= state < later <= 4 ==> 1 <= JobStateOut(state) < JobStateOut(later) <= 5
  {
  }

  function JobOut(j: Job): WireJob {
    WireJob(j.id, JobStateOut(j.state), j.stats, j.error, UnixMs(j.created), UnixMs(j.started), UnixMs(j.ended))
  }

  /** The job a client is told of: the backend's own numbers under the same names,
      each instant by its millisecond. */
  lemma JobIsTold(j: Job)
    ensures var w := JobOut(j);
            && w.id == j.id && w.error == j.error && w.stats == j.stats
            && (0 <= j.state <= 4 ==> w.state == j.state + 1)
            && IsMilliOf(w.createdUnixMs, j.created)
            && IsMilliOf(w.startedUnixMs, j.started)
            && IsMilliOf(w.endedUnixMs, j.ended)
  {
  }

  // --- Query ---

  datatype Frame =
    | Header(job: WireJob, schema: seq<WireColumn>, arrowSchema: Bytes)
    | ArrowBatch(batch: Bytes)

  datatype Read = Got(batch: Bytes) | Failing(err: Err)

  /** The n-th thing a reader gives; past its script it is at its end. */
  function ReadAt(script: seq<Read>, n: nat): Read {
    if n < |script| then script[n] else Failing(Eof)
  }

  /** The batches before the first failure. */
  function Batches(script: seq<Read>): seq<Bytes> {
    if |script| == 0 || script[0].Failing? then [] else [script[0].batch] + Batches(script[1..])
  }

  /** That first failure. */
  function Ending(script: seq<Read>): Err {
    if |script| == 0 then Eof
    else if script[0].Failing? then script[0].err
    else Ending(script[1..])
  }

  function Frames(batches: seq<Bytes>): seq<Frame> {
    seq(|batches|, i requires 0 <= i < |batches| => ArrowBatch(batches[i]))
  }

  /** A backend's result cursor.  It is read only while open and closed once. */
  class BatchReader {
    const script: seq<Read>
    var pos: nat
    var closed: bool

    constructor (script: seq<Read>)
      ensures this.script == script && pos == 0 && !closed
    {
      this.script := script;
      pos := 0;
      closed := false;
    }

    method Next() returns (r: Read)
      requires !closed
      modifies this`pos
      ensures r == ReadAt(script, old(pos)) && pos == old(pos) + 1
    {
      r := if pos < |script| then script[pos] else Failing(Eof);
      pos := pos + 1;
    }

    method Close()
      requires !closed
      modifies this`closed
      ensures closed
    {
      closed := true;
    }
  }

  /** The response stream: it takes `room` frames and refuses every later one. */
  class QueryStream {
    var sent: seq<Frame>
    const room: nat
    const refusal: Err

    constructor (room: nat, refusal: Err)
      ensures sent == [] && this.room == room && this.refusal == refusal
    {
      sent := [];
      this.room := room;
      this.refusal := refusal;
    }

    method Send(f: Frame) returns (err: Option<Err>)
      modifies this
      ensures if |old(sent)| < room
              then err == None && sent == old(sent) + [f]
              else err == Some(refusal) && sent == old(sent)
    {
      if |sent| < room {
        sent := sent + [f];
        err := None;
      } else {
        err := Some(refusal);
      }
    }
  }

  datatype QueryResult = QueryResult(job: Job, schema: seq<Column>, arrowSchema: Bytes, batches: BatchReader?)

  function HeaderOf(res: QueryResult): Frame {
    Header(JobOut(res.job), ColumnsOut(res.schema), res.arrowSchema)
  }

  function AsError(err: Err): Err {
    OfStatus(ToStatus(err))
  }

  /** Everything a result has to say: a header, then each batch before its end. */
  function Whole(header: Frame, script: seq<Read>): seq<Frame> {
    [header] + Frames(Batches(script))
  }

  /** As much of it as the stream takes. */
  function Taken(whole: seq<Frame>, room: nat): seq<Frame> {
    if room < |whole| then whole[..room] else whole
  }

  /** What the RPC returns once its frames are out: nothing at end of stream. */
  function Outcome(script: seq<Read>): Option<Err> {
    if IsEof(Ending(script)) then None else Some(AsError(Ending(script)))
  }

  /** The header is the result's: its job, its columns one for one, its schema. */
  lemma HeaderTellsResult(res: QueryResult)
    ensures var header := HeaderOf(res);
            && header.Header? && header.job == JobOut(res.job) && header.arrowSchema == res.arrowSchema
            && |header.schema| == |res.schema|
            && forall i :: 0 <= i < |res.schema| ==>
                 SameColumn(res.schema[i], header.schema[i]) && SameTypes(res.schema[i], header.schema[i])
  {
    forall i | 0 <= i < |res.schema|
      ensures SameColumn(res.schema[i], HeaderOf(res).schema[i]) && SameTypes(res.schema[i], HeaderOf(res).schema[i])
    {
      OutKeepsColumn(res.schema[i]);
    }
  }

  /** A failure reaches the client as a status whose code tells its class and whose
      message is its text; only the end of stream does not. */
  lemma FailureIsTold(script: seq<Read>)
    ensures var ending := Ending(script);
            Eof !in Chain(ending) ==>
              && Outcome(script).Some? && Outcome(script).value.OfStatus?
              && ClassOf(Outcome(script).value.status.code) == Some(CodeOf(ending))
              && Outcome(script).value.status.message == Text(ending)
  {
    EofSomewhereInChain(Ending(script));
    StatusRecoversCode(Ending(script), ToStatus(Ending(script)).code);
  }

  lemma {:induction false} BatchesAndEnding(script: seq<Read>)
    ensures |Batches(script)| <= |script|
    ensures forall i :: 0 <= i < |Batches(script)| ==> script[i] == Got(Batches(script)[i])
    ensures ReadAt(script, |Batches(script)|) == Failing(Ending(script))
  {
    if |script| == 0 || script[0].Failing? {
    } else {
      BatchesAndEnding(script[1..]);
      forall i | 0 <= i < |Batches(script)| ensures script[i] == Got(Batches(script)[i]) {
        assert i > 0 ==> script[1..][i - 1] == script[i];
      }
      assert ReadAt(script[1..], |Batches(script[1..])|) == ReadAt(script, |Batches(script)|);
    }
  }

  /** Query.  Frames go out in order, as many as the stream takes; nil is
      returned exactly when the header went out and either there was no reader
      or all batches to end of stream did; the reader ends up closed. */
  method Query(outcome: Result<QueryResult, Err>, stream: QueryStream) returns (ret: Option<Err>)
    requires stream.sent == []
    requires outcome.Success? && outcome.value.batches != null ==>
               outcome.value.batches.pos == 0 && !outcome.value.batches.closed
    modifies stream
    modifies if outcome.Success? && outcome.value.batches != null then {outcome.value.batches} else {}
    ensures outcome.Failure? ==> stream.sent == [] && ret == Some(AsError(outcome.error))
    ensures outcome.Success? && outcome.value.batches == null ==>
              && stream.sent == Taken([HeaderOf(outcome.value)], stream.room)
              && ret == if stream.room < 1 then Some(stream.refusal) else None
    ensures outcome.Success? && outcome.value.batches != null ==>
              var script := outcome.value.batches.script;
              var whole := Whole(HeaderOf(outcome.value), script);
              && stream.sent == Taken(whole, stream.room)
              && ret == (if stream.room < |whole| then Some(stream.refusal) else Outcome(script))
              && outcome.value.batches.closed
  {
    match outcome
    case Failure(err) =>
      ret := Some(AsError(err));
    case Success(res) =>
      ret := Deliver(res, stream);
      // The deferred Close, set up before the header is sent.
      if res.batches != null {
        res.batches.Close();
      }
  }

  /** One turn of the loop: the n-th read is the next batch, or what ended them. */
  lemma TurnOfLoop(header: Frame, script: seq<Read>, n: nat)
    requires n <= |Batches(script)|
    ensures var whole := Whole(header, script);
            && |whole| == |Batches(script)| + 1 && whole[..1] == [header]
            && if n < |Batches(script)| then
                 && ReadAt(script, n) == Got(Batches(script)[n])
                 && whole[..n + 2] == whole[..n + 1] + [ArrowBatch(Batches(script)[n])]
               else
                 ReadAt(script, n) == Failing(Ending(script)) && whole[..n + 1] == whole
  {
    BatchesAndEnding(script);
    var whole := Whole(header, script);
    if n < |Batches(script)| {
      assert whole[n + 1] == ArrowBatch(Batches(script)[n]);
    } else {
      assert whole[..n + 1] == whole;
    }
  }

  method Deliver(res: QueryResult, stream: QueryStream) returns (ret: Option<Err>)
    requires stream.sent == []
    requires res.batches != null ==> res.batches.pos == 0 && !res.batches.closed
    modifies stream
    modifies if res.batches != null then {res.batches} else {}
    ensures res.batches == null ==>
              && stream.sent == Taken([HeaderOf(res)], stream.room)
              && ret == if stream.room < 1 then Some(stream.refusal) else None
    ensures res.batches != null ==>
              var whole := Whole(HeaderOf(res), res.batches.script);
              && stream.sent == Taken(whole, stream.room)
              && ret == (if stream.room < |whole| then Some(stream.refusal) else Outcome(res.batches.script))
              && !res.batches.closed
  {
    hide JobOut, ColumnsOut, ToStatus, IsEof, Whole, Batches, Ending, ReadAt;
    var columns := TranslateAllOut(res.schema);
    var header := Header(JobOut(res.job), columns, res.arrowSchema);
    ret := stream.Send(header);
    if res.batches == null {
      return;
    }
    var reader := res.batches;
    TurnOfLoop(header, reader.script, 0);
    if ret.Some? {
      return;
    }
    ret := DeliverBatches(header, reader, stream);
  }

  /** The loop of Query, the header having gone out. */
  method DeliverBatches(header: Frame, reader: BatchReader, stream: QueryStream) returns (ret: Option<Err>)
    requires reader.pos == 0 && !reader.closed
    requires stream.sent == [header] && stream.room >= 1
    modifies stream, reader
    ensures var whole := Whole(header, reader.script);
            && stream.sent == Taken(whole, stream.room)
            && ret == (if stream.room < |whole| then Some(stream.refusal) else Outcome(reader.script))
            && !reader.closed
  {
    hide ToStatus, IsEof, Whole, Batches, Ending, ReadAt;
    ghost var whole := Whole(header, reader.script);
    TurnOfLoop(header, reader.script, 0);
    while true
      invariant reader.pos <= |Batches(reader.script)| && !reader.closed
      invariant stream.sent == whole[..reader.pos + 1] && |stream.sent| <= stream.room
      decreases |whole| - reader.pos
    {
      TurnOfLoop(header, reader.script, reader.pos);
      var read := reader.Next();
      if read.Failing? {
        return if IsEof(read.err) then None else Some(AsError(read.err));
      }
      ret := stream.Send(ArrowBatch(read.batch));
      if ret.Some? {
        return;
      }
    }
  }

  // --- InsertRows ---

  datatype Incoming =
    | InsertHeader(table: Option<TableRef>, arrowSchema: Bytes)
    | InsertBatch(batch: Bytes)
    | NoKind

  datatype Recv = Message(msg: Incoming) | Broken(err: Err)

  function RecvAt(script: seq<Recv>, n: nat): Recv {
    if n < |script| then script[n] else Broken(Eof)
  }

  const NOT_A_BATCH := OfStatus(Status(GrpcInvalidArgument, "InsertRows: expected an arrow_batch after the header"))
  const NOT_A_HEADER := OfStatus(Status(GrpcInvalidArgument, "InsertRows: first message must be the header"))

  /** One incoming message as the backend's reader passes it on. */
  function PassedOn(recv: Recv): Read {
    match recv
    case Broken(err) => Failing(if IsEof(err) then Eof else err)
    case Message(InsertBatch(batch)) => Got(batch)
    case Message(_) => Failing(NOT_A_BATCH)
  }

  /** What a message may be passed on as: its batch, the bare end of stream for an
      error with that anywhere in it, any other error untouched, and a client error
      for whatever is no batch. */
  ghost predicate PassesOn(recv: Recv, read: Read) {
    match recv
    case Broken(err) => read == Failing(if Eof in Chain(err) then Eof else err)
    case Message(InsertBatch(batch)) => read == Got(batch)
    case Message(_) => read.Failing? && read.err.OfStatus? && read.err.status.code == GrpcInvalidArgument
  }

  lemma PassedOnPassesOn(recv: Recv)
    ensures PassesOn(recv, PassedOn(recv))
  {
    if recv.Broken? {
      EofSomewhereInChain(recv.err);
    }
  }

  function AllPassedOn(script: seq<Recv>): seq<Read> {
    seq(|script|, i requires 0 <= i < |script| => PassedOn(script[i]))
  }

  /** The first `n` things a backend reads off the messages after the header. */
  function FirstReads(script: seq<Recv>, n: nat): seq<Read> {
    seq(n, i requires 0 <= i < n => PassedOn(RecvAt(script, i)))
  }

  datatype RowError = RowError(rowIndex: int, error: string)

  datatype InsertResult = InsertResult(rowsInserted: int, errors: seq<RowError>)

  /** The request stream with its one response; `closing` is what sending that
      response fails with, if it does. */
  class InsertStream {
    const script: seq<Recv>
    var pos: nat
    const closing: Option<Err>
    var response: Option<InsertResult>

    constructor (script: seq<Recv>, closing: Option<Err>)
      ensures this.script == script && this.closing == closing && pos == 0 && response == None
    {
      this.script := script;
      this.closing := closing;
      pos := 0;
      response := None;
    }

    method Receive() returns (r: Recv)
      modifies this`pos
      ensures r == RecvAt(script, old(pos)) && pos == old(pos) + 1
    {
      r := if pos < |script| then script[pos] else Broken(Eof);
      pos := pos + 1;
    }

    method SendAndClose(res: InsertResult) returns (err: Option<Err>)
      requires response == None
      modifies this`response
      ensures err == closing && response == if closing == None then Some(res) else None
    {
      if closing == None {
        response := Some(res);
      }
      err := closing;
    }
  }

  /** streamBatchReader: each Next pulls one message off the stream. */
  class StreamBatchReader {
    const stream: InsertStream

    constructor (stream: InsertStream)
      ensures this.stream == stream
    {
      this.stream := stream;
    }

    method Next() returns (r: Read)
      modifies stream`pos
      ensures r == PassedOn(RecvAt(stream.script, old(stream.pos))) && stream.pos == old(stream.pos) + 1
      ensures PassesOn(RecvAt(stream.script, old(stream.pos)), r)
    {
      var recv := stream.Receive();
      PassedOnPassesOn(recv);
      match recv
      case Broken(err) => r := Failing(if IsEof(err) then Eof else err);
      case Message(msg) =>
        if msg.InsertBatch? {
          r := Got(msg.batch);
        } else {
          r := Failing(NOT_A_BATCH);
        }
    }
  }

  /** A backend's ingest: after each read it decides, from all it has read,
      whether to read again, past a failure too; then it answers from its reads.
      `limit` is any number of reads it does not exceed. */
  datatype Ingest = Ingest(
    limit: nat,
    wants: seq<Read> -> bool,
    answer: (TableRef, Bytes, seq<Read>) -> Result<InsertResult, Err>)

  /** How often such a backend reads, when it has read `done` times. */
  function ReadCount(backend: Ingest, script: seq<Recv>, done: nat): (count: nat)
    requires done <= backend.limit
    ensures done <= count <= backend.limit
    ensures forall k :: done <= k < count ==> backend.wants(FirstReads(script, k))
    ensures count == backend.limit || !backend.wants(FirstReads(script, count))
    decreases backend.limit - done
  {
    if done == backend.limit || !backend.wants(FirstReads(script, done)) then done
    else ReadCount(backend, script, done + 1)
  }

  function AllReads(backend: Ingest, script: seq<Recv>): seq<Read> {
    FirstReads(script, ReadCount(backend, script, 0))
  }

  method Drain(backend: Ingest, reader: StreamBatchReader) returns (given: seq<Read>)
    requires reader.stream.pos <= |reader.stream.script|
    modifies reader.stream`pos
    ensures given == AllReads(backend, reader.stream.script[old(reader.stream.pos)..])
  {
    ghost var start := reader.stream.pos;
    ghost var script := reader.stream.script[start..];
    given := [];
    while |given| < backend.limit && backend.wants(given)
      invariant |given| <= backend.limit && given == FirstReads(script, |given|)
      invariant ReadCount(backend, script, |given|) == ReadCount(backend, script, 0)
      invariant reader.stream.pos == start + |given|
      decreases backend.limit - |given|
    {
      ghost var n := |given|;
      var r := reader.Next();
      assert r == PassedOn(RecvAt(script, n));
      given := given + [r];
    }
  }

  /** InsertRows.  The backend reads what follows the header, message by message;
      its answer is the response, which may fail to go out, or a status. */
  method InsertRows(stream: InsertStream, backend: Ingest) returns (ret: Option<Err>)
    requires stream.pos == 0 && stream.response == None
    modifies stream
    ensures match RecvAt(stream.script, 0)
            case Broken(err) => ret == Some(err) && stream.response == None
            case Message(InsertHeader(table, schema)) =>
              var ref := if table.Some? then table.value else TableRef("", "");
              (match backend.answer(ref, schema, AllReads(backend, stream.script[1..]))
               case Success(res) =>
                 ret == stream.closing && stream.response == if stream.closing == None then Some(res) else None
               case Failure(err) => ret == Some(AsError(err)) && stream.response == None)
            case Message(_) =>
              && ret == Some(NOT_A_HEADER) && stream.response == None
              && NOT_A_HEADER.status.code == GrpcInvalidArgument
  {
    var first := stream.Receive();
    if first.Broken? {
      return Some(first.err);
    }
    if !first.msg.InsertHeader? {
      return Some(NOT_A_HEADER);
    }
    var reader := new StreamBatchReader(stream);
    var given := Drain(backend, reader);
    var answer := backend.answer(TableRefIn(first.msg.table), first.msg.arrowSchema, given);
    match answer
    case Failure(err) =>
      ret := Some(AsError(err));
    case Success(res) =>
      var errors: seq<RowError> := [];
      for i := 0 to |res.errors|
        invariant errors == res.errors[..i]
      {
        errors := errors + [RowError(res.errors[i].rowIndex, res.errors[i].error)];
      }
      assert errors == res.errors;
      ret := stream.SendAndClose(InsertResult(res.rowsInserted, errors));
  }

  /** Message by message: what a backend reads is what the client sent, and past the
      client's last message it reads the end of stream. */
  lemma ReadsAreMessages(script: seq<Recv>, n: nat, i: nat)
    requires i < n
    ensures var read := FirstReads(script, n)[i];
            && (i < |script| ==> PassesOn(script[i], read))
            && (i >= |script| ==> read == Failing(Eof))
            && (read.Got? <==> i < |script| && script[i].Message? && script[i].msg.InsertBatch?)
            && (forall batch :: read == Got(batch) <==> i < |script| && script[i] == Message(InsertBatch(batch)))
  {
    PassedOnPassesOn(RecvAt(script, i));
    hide PassedOn;
    EofIsItsChain();
  }

  lemma EofIsItsChain()
    ensures Chain(Eof) == [Eof]
  {
  }

  /** How many messages come before the first that is no batch. */
  function Leading(script: seq<Recv>): nat {
    if |script| > 0 && script[0].Message? && script[0].msg.InsertBatch? then 1 + Leading(script[1..]) else 0
  }

  lemma {:induction false} LeadingAreBatches(script: seq<Recv>)
    ensures Leading(script) <= |script|
    ensures forall i :: 0 <= i < Leading(script) ==> script[i].Message? && script[i].msg.InsertBatch?
    ensures Leading(script) < |script| ==>
              !(script[Leading(script)].Message? && script[Leading(script)].msg.InsertBatch?)
  {
    if |script| > 0 && script[0].Message? && script[0].msg.InsertBatch? {
      LeadingAreBatches(script[1..]);
      forall i | 0 <= i < Leading(script) ensures script[i].Message? && script[i].msg.InsertBatch? {
        assert i > 0 ==> script[i] == script[1..][i - 1];
      }
    } else {
    }
  }

  /** However often a backend reads, it gets the batches that follow the header, in
      order, and after them the failure that the first other message stands for. */
  lemma ReadsFollowBatches(script: seq<Recv>, n: nat)
    ensures var count, given := Leading(script), FirstReads(script, n);
            && count <= |script|
            && (forall i :: 0 <= i < n && i < count ==>
                  given[i].Got? && script[i] == Message(InsertBatch(given[i].batch)))
            && (n > count ==> given[count].Failing?)
            && (n > count && count < |script| ==> PassesOn(script[count], given[count]))
            && (n > count && count == |script| ==> given[count] == Failing(Eof))
            && |Batches(given)| == (if n <= count then n else count)
            && (forall i :: 0 <= i < |Batches(given)| ==> script[i] == Message(InsertBatch(Batches(given)[i])))
  {
    var count, given := Leading(script), FirstReads(script, n);
    LeadingAreBatches(script);
    forall i | 0 <= i < n
      ensures i < count ==> given[i] == Got(script[i].msg.batch)
      ensures i < count ==> given[i].Got? && script[i] == Message(InsertBatch(given[i].batch))
      ensures i == count ==> given[i].Failing?
    {
      ReadsAreMessages(script, n, i);
    }
    if n > count {
      ReadsAreMessages(script, n, count);
    }
    var length := if n <= count then n else count;
    BatchesOfReads(given, seq(length, i requires 0 <= i < length => script[i].msg.batch));
  }

  /** Reads that are these batches and then nothing, or a failure. */
  lemma {:induction false} BatchesOfReads(given: seq<Read>, batches: seq<Bytes>)
    requires |batches| <= |given| && forall i :: 0 <= i < |batches| ==> given[i] == Got(batches[i])
    requires |batches| < |given| ==> given[|batches|].Failing?
    ensures Batches(given) == batches
  {
    if |batches| == 0 {
    } else {
      BatchesOfReads(given[1..], batches[1..]);
      assert batches == [batches[0]] + batches[1..];
    }
  }

  // --- From one stream to the other ---

  /** A client that turns the frames of a query into the messages of an insert. */
  function Piped(table: Option<TableRef>, frames: seq<Frame>): seq<Recv> {
    seq(|frames|, i requires 0 <= i < |frames| =>
      match frames[i]
      case Header(_, _, schema) => Message(InsertHeader(table, schema))
      case ArrowBatch(batch) => Message(InsertBatch(batch)))
  }

  /** How many batches fit behind the header in a stream's room. */
  function Delivered(batches: seq<Bytes>, room: nat): seq<Bytes>
    requires room >= 1
  {
    if room - 1 < |batches| then batches[..room - 1] else batches
  }

  /** What went out of a query goes into an insert: the backend gets the very
      batches the query's reader produced, as many as the query's stream took,
      then end of stream for as long as it asks. */
  lemma PipeThrough(res: QueryResult, script: seq<Read>, room: nat, table: Option<TableRef>, n: nat)
    requires room >= 1
    ensures var messages := Piped(table, Taken(Whole(HeaderOf(res), script), room));
            var batches := Delivered(Batches(script), room);
            && messages[0] == Message(InsertHeader(table, res.arrowSchema))
            && forall i :: 0 <= i < n ==>
                 FirstReads(messages[1..], n)[i] == if i < |batches| then Got(batches[i]) else Failing(Eof)
  {
    var messages := Piped(table, Taken(Whole(HeaderOf(res), script), room));
    var batches := Delivered(Batches(script), room);
    forall i | 0 <= i < |batches| ensures messages[1..][i] == Message(InsertBatch(batches[i])) {
      assert messages[1..][i] == messages[i + 1];
    }
  }

  /** A client whose stream turns bad is told so only if the backend wraps the
      reader's error: handed on bare it reads as an internal failure. */
  lemma BareStreamErrorIsInternal(op: string)
    ensures ToStatus(NOT_A_BATCH).code == GrpcInternal
    ensures ToStatus(Wrap(InvalidArgument, op, Some(NOT_A_BATCH))).code == GrpcInvalidArgument
  {
  }

  /** A reader's failure that merely wraps io.EOF ends the query as if it were
      the end: nil is returned for exactly the failures with EOF in their chain. */
  lemma NilForAnyEofInChain(script: seq<Read>)
    ensures Outcome(script) == None <==> Eof in Chain(Ending(script))
  {
    EofSomewhereInChain(Ending(script));
  }
}
