/** The normalized error model and its collapse onto gRPC statuses. */
module Errors {
  import opened Wrappers

  /** The backend-independent error classes. */
  datatype Code =
    | Internal
    | NotFound
    | AlreadyExists
    | PreconditionFailed
    | Unsupported
    | PermissionDenied
    | Throttled
    | InvalidArgument

  /** The gRPC codes this server produces or reacts to. */
  datatype GrpcCode =
    | GrpcNotFound
    | GrpcAlreadyExists
    | GrpcFailedPrecondition
    | GrpcUnimplemented
    | GrpcPermissionDenied
    | GrpcResourceExhausted
    | GrpcInvalidArgument
    | GrpcInternal
    | GrpcUnauthenticated
    | GrpcUnavailable
    | GrpcDeadlineExceeded

  datatype Status = Status(code: GrpcCode, message: string)

  /** A Go error value: what its Unwrap method gives decides its shape. */
  datatype Err =
    | Coded(code: Code, op: string, cause: Option<Err>)  // *serr.Error
    | Eof                                                // io.EOF
    | Plain(text: string)                                // no Unwrap
    | OfStatus(status: Status)                           // a gRPC status error
    | Wrapped(prefix: string, inner: Err)                // fmt.Errorf("...: %w", inner)
    | Joined(parts: seq<Err>)                            // errors.Join

  function New(code: Code, op: string, msg: string): Err {
    Coded(code, op, Some(Plain(msg)))
  }

  function Wrap(code: Code, op: string, cause: Option<Err>): Err {
    Coded(code, op, cause)
  }

  function CodeName(code: Code): string {
    match code
    case NotFound => "NotFound"
    case AlreadyExists => "AlreadyExists"
    case PreconditionFailed => "PreconditionFailed"
    case Unsupported => "Unsupported"
    case PermissionDenied => "PermissionDenied"
    case Throttled => "Throttled"
    case InvalidArgument => "InvalidArgument"
    case Internal => "Internal"
  }

  function StatusText(status: Status): (text: string) {
    "rpc error: code = " + GrpcName(status.code) + " desc = " + status.message
  }

  function GrpcName(code: GrpcCode): string {
    match code
    case GrpcNotFound => "NotFound"
    case GrpcAlreadyExists => "AlreadyExists"
    case GrpcFailedPrecondition => "FailedPrecondition"
    case GrpcUnimplemented => "Unimplemented"
    case GrpcPermissionDenied => "PermissionDenied"
    case GrpcResourceExhausted => "ResourceExhausted"
    case GrpcInvalidArgument => "InvalidArgument"
    case GrpcInternal => "Internal"
    case GrpcUnauthenticated => "Unauthenticated"
    case GrpcUnavailable => "Unavailable"
    case GrpcDeadlineExceeded => "DeadlineExceeded"
  }

  /** The error's own text, the message a status carries. */
  function Text(err: Err): string {
    match err
    case Coded(code, op, None) => op + ": " + CodeName(code)
    case Coded(code, op, Some(cause)) => op + ": " + CodeName(code) + ": " + Text(cause)
    case Eof => "EOF"
    case Plain(text) => text
    case OfStatus(status) => StatusText(status)
    case Wrapped(prefix, inner) => prefix + ": " + Text(inner)
    case Joined(parts) => JoinTexts(parts)
  }

  function JoinTexts(parts: seq<Err>): string {
    if |parts| == 0 then ""
    else if |parts| == 1 then Text(parts[0])
    else Text(parts[0]) + "\n" + JoinTexts(parts[1..])
  }

  /** errors.As for *serr.Error: the first match of a depth-first walk. */
  function As(err: Err): Option<Code> {
    match err
    case Coded(code, _, _) => Some(code)
    case Wrapped(_, inner) => As(inner)
    case Joined(parts) => AsAny(parts)
    case Eof => None
    case Plain(_) => None
    case OfStatus(_) => None
  }

  function AsAny(parts: seq<Err>): Option<Code> {
    if |parts| == 0 then None
    else
      var first := As(parts[0]);
      if first.Some? then first else AsAny(parts[1..])
  }

  function CodeOf(err: Err): Code {
    match As(err)
    case Some(code) => code
    case None => Internal
  }

  /** errors.Is(err, io.EOF): the end-of-stream mark anywhere below err. */
  predicate IsEof(err: Err) {
    match err
    case Eof => true
    case Coded(_, _, Some(cause)) => IsEof(cause)
    case Wrapped(_, inner) => IsEof(inner)
    case Joined(parts) => exists i :: 0 <= i < |parts| && IsEof(parts[i])
    case Coded(_, _, None) => false
    case Plain(_) => false
    case OfStatus(_) => false
  }

  function ToGrpc(code: Code): GrpcCode {
    match code
    case NotFound => GrpcNotFound
    case AlreadyExists => GrpcAlreadyExists
    case PreconditionFailed => GrpcFailedPrecondition
    case Unsupported => GrpcUnimplemented
    case PermissionDenied => GrpcPermissionDenied
    case Throttled => GrpcResourceExhausted
    case InvalidArgument => GrpcInvalidArgument
    case Internal => GrpcInternal
  }

  function ToStatus(err: Err): Status {
    Status(ToGrpc(CodeOf(err)), Text(err))
  }

  // --- What the collapse keeps ---

  /** Every error value reachable by unwrapping, outermost first, each part of a
      join before the parts after it. */
  function Chain(err: Err): seq<Err> {
    [err] + match err
            case Coded(_, _, Some(cause)) => Chain(cause)
            case Wrapped(_, inner) => Chain(inner)
            case Joined(parts) => Chains(parts)
            case Coded(_, _, None) => []
            case Eof => []
            case Plain(_) => []
            case OfStatus(_) => []
  }

  function Chains(parts: seq<Err>): seq<Err> {
    if |parts| == 0 then [] else Chain(parts[0]) + Chains(parts[1..])
  }

  ghost predicate FirstCoded(chain: seq<Err>, at: nat) {
    at < |chain| && chain[at].Coded? && forall k :: 0 <= k < at ==> !chain[k].Coded?
  }

  ghost predicate NoneCoded(chain: seq<Err>) {
    forall k :: 0 <= k < |chain| ==> !chain[k].Coded?
  }

  ghost predicate Reads(chain: seq<Err>, found: Option<Code>) {
    match found
    case None => NoneCoded(chain)
    case Some(code) => exists at: nat :: FirstCoded(chain, at) && chain[at].code == code
  }

  lemma ReadsConcat(a: seq<Err>, b: seq<Err>, found: Option<Code>)
    requires (Reads(a, found) && found.Some?) || (NoneCoded(a) && Reads(b, found))
    ensures Reads(a + b, found)
  {
    if Reads(a, found) && found.Some? {
      var at: nat :| FirstCoded(a, at) && a[at].code == found.value;
      assert FirstCoded(a + b, at) && (a + b)[at] == a[at];
    } else if found.Some? {
      var at: nat :| FirstCoded(b, at) && b[at].code == found.value;
      assert FirstCoded(a + b, |a| + at) && (a + b)[|a| + at] == b[at];
    }
  }

  lemma {:induction false} AsReadsFirstCoded(err: Err)
    ensures Reads(Chain(err), As(err))
    decreases err, 1
  {
    match err
    case Coded(code, _, _) =>
      assert FirstCoded(Chain(err), 0);
    case Wrapped(_, inner) =>
      AsReadsFirstCoded(inner);
      ReadsConcat([err], Chain(inner), As(err));
    case Joined(parts) =>
      AsAnyReadsFirstCoded(parts);
      ReadsConcat([err], Chains(parts), As(err));
    case Eof =>
    case Plain(_) =>
    case OfStatus(_) =>
  }

  lemma {:induction false} AsAnyReadsFirstCoded(parts: seq<Err>)
    ensures Reads(Chains(parts), AsAny(parts))
    decreases parts, 0
  {
    if |parts| == 0 {
    } else {
      AsReadsFirstCoded(parts[0]);
      AsAnyReadsFirstCoded(parts[1..]);
      ReadsConcat(Chain(parts[0]), Chains(parts[1..]), AsAny(parts));
    }
  }

  /** Two errors whose first coded link agrees get the same gRPC code, whatever
      else their chains hold; a chain with none is Internal. */
  lemma StatusDependsOnFirstCoded(err: Err)
    ensures NoneCoded(Chain(err)) ==> ToStatus(err).code == GrpcInternal
    ensures forall at: nat :: FirstCoded(Chain(err), at) ==> ToStatus(err).code == ToGrpc(Chain(err)[at].code)
  {
    AsReadsFirstCoded(err);
    forall at: nat | FirstCoded(Chain(err), at) ensures ToStatus(err).code == ToGrpc(Chain(err)[at].code) {
      if As(err).Some? {
        var first: nat :| FirstCoded(Chain(err), first) && Chain(err)[first].code == As(err).value;
        assert first == at;
      } else {
        assert false;
      }
    }
  }

  /** An outer Wrap always wins, and it recovers the class a bare status lost. */
  lemma OuterWrapWins(code: Code, op: string, cause: Option<Err>, prefix: string)
    ensures ToStatus(Wrap(code, op, cause)).code == ToGrpc(code)
    ensures ToStatus(Wrapped(prefix, Wrap(code, op, cause))).code == ToGrpc(code)
  {
    StatusDependsOnFirstCoded(Wrap(code, op, cause));
    StatusDependsOnFirstCoded(Wrapped(prefix, Wrap(code, op, cause)));
  }

  /** The class a client may infer from a status code, as the service's contract
      names them; the transport's own codes tell of none. */
  function ClassOf(status: GrpcCode): Option<Code> {
    match status
    case GrpcNotFound => Some(NotFound)
    case GrpcAlreadyExists => Some(AlreadyExists)
    case GrpcFailedPrecondition => Some(PreconditionFailed)
    case GrpcUnimplemented => Some(Unsupported)
    case GrpcInvalidArgument => Some(InvalidArgument)
    case GrpcPermissionDenied => Some(PermissionDenied)
    case GrpcResourceExhausted => Some(Throttled)
    case GrpcInternal => Some(Internal)
    case GrpcUnauthenticated => None
    case GrpcUnavailable => None
    case GrpcDeadlineExceeded => None
  }

  /** A client recovers the error class from the status code, and no other code
      would have told it that class. */
  lemma StatusRecoversCode(err: Err, status: GrpcCode)
    ensures ToStatus(err).code == status <==> ClassOf(status) == Some(CodeOf(err))
  {
    var code := CodeOf(err);
    assert ToGrpc(code) == status <==> ClassOf(status) == Some(code);
  }

  /** Outside the three classes gRPC names differently, a class and its status code
      bear the same name. */
  lemma NamesAgree(code: Code)
    ensures CodeName(code) == GrpcName(ToGrpc(code)) <==> code !in {PreconditionFailed, Unsupported, Throttled}
    ensures CodeName(PreconditionFailed) == "PreconditionFailed" && CodeName(Unsupported) == "Unsupported"
    ensures CodeName(Throttled) == "Throttled"
  {
  }

  /** One link of a chain, in words. */
  function Label(link: Err): string {
    match link
    case Coded(code, op, _) => op + ": " + CodeName(code)
    case Eof => "EOF"
    case Plain(text) => text
    case OfStatus(status) => StatusText(status)
    case Wrapped(prefix, _) => prefix
    case Joined(_) => ""
  }

  function Colons(links: seq<Err>): string {
    if |links| == 0 then ""
    else if |links| == 1 then Label(links[0])
    else Label(links[0]) + ": " + Colons(links[1..])
  }

  predicate Joins(err: Err) {
    match err
    case Joined(_) => true
    case Coded(_, _, Some(cause)) => Joins(cause)
    case Wrapped(_, inner) => Joins(inner)
    case _ => false
  }

  /** The message a client reads names every link of the chain, outermost first. */
  lemma {:induction false} MessageTellsChain(err: Err)
    requires !Joins(err)
    ensures ToStatus(err).message == Text(err) == Colons(Chain(err))
    decreases err
  {
    match err
    case Coded(code, op, Some(cause)) =>
      MessageTellsChain(cause);
      assert Chain(err)[1..] == Chain(cause) && |Chain(cause)| > 0;
      assert op + ": " + CodeName(code) + ": " + Text(cause) == Label(err) + ": " + Text(cause);
    case Wrapped(_, inner) =>
      MessageTellsChain(inner);
      assert Chain(err)[1..] == Chain(inner) && |Chain(inner)| > 0;
    case Coded(_, _, None) =>
    case Eof =>
    case Plain(_) =>
    case OfStatus(_) =>
  }

  lemma {:induction false} JoinTextsConcat(a: seq<Err>, b: seq<Err>)
    requires |a| > 0 && |b| > 0
    ensures JoinTexts(a + b) == JoinTexts(a) + "\n" + JoinTexts(b)
    decreases |a|
  {
    hide Text;
    assert (a + b)[1..] == a[1..] + b && (a + b)[0] == a[0];
    if |a| == 1 {
      assert a[1..] + b == b;
    } else {
      var rest := JoinTexts(a[1..]);
      JoinTextsConcat(a[1..], b);
      assert Text(a[0]) + "\n" + (rest + "\n" + JoinTexts(b)) == Text(a[0]) + "\n" + rest + "\n" + JoinTexts(b);
    }
  }

  /** A join's text is its parts' texts, line by line and in their order. */
  lemma JoinTellsPartsInOrder(a: seq<Err>, b: seq<Err>)
    requires |a| > 0 && |b| > 0
    ensures Text(Joined(a + b)) == Text(Joined(a)) + "\n" + Text(Joined(b))
    ensures Text(Joined([b[0]])) == Text(b[0])
  {
    JoinTextsConcat(a, b);
  }

  lemma {:induction false} EofSomewhereInChain(err: Err)
    ensures IsEof(err) <==> Eof in Chain(err)
    decreases err, 1
  {
    match err
    case Coded(_, _, Some(cause)) =>
      EofSomewhereInChain(cause);
    case Wrapped(_, inner) =>
      EofSomewhereInChain(inner);
    case Joined(parts) =>
      EofSomewhereInChains(parts);
    case Coded(_, _, None) =>
    case Eof =>
    case Plain(_) =>
    case OfStatus(_) =>
  }

  lemma {:induction false} EofSomewhereInChains(parts: seq<Err>)
    ensures (exists i :: 0 <= i < |parts| && IsEof(parts[i])) <==> Eof in Chains(parts)
    decreases parts, 0
  {
    if |parts| == 0 {
    } else {
      EofSomewhereInChain(parts[0]);
      EofSomewhereInChains(parts[1..]);
      if exists i :: 0 <= i < |parts[1..]| && IsEof(parts[1..][i]) {
        var i :| 0 <= i < |parts[1..]| && IsEof(parts[1..][i]);
        assert IsEof(parts[i + 1]);
      }
    }
  }
}
