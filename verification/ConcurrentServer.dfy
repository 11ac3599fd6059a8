/** Any number of catalog RPCs inside the server at once.  A request is received,
    its handler converts it and calls the backend, whose body runs interleaved
    with all others, and the handler converts the answer into a response; each of
    these may be as late as it likes.  What clients see is still explained by one
    sequential run of the wire contract. */
module ConcurrentServer {
  import opened Wrappers
  import opened FlatCatalog
  import opened Linearizability
  import opened LinearizabilityProof
  import opened WireServer
  import opened WireSimulation

  /** What clients see, in the order it happens. */
  datatype WireEvent =
    | Sent(id: Id, req: Request)
    | Received(id: Id, resp: Response)

  datatype Rpcs = Rpcs(sys: System, requests: map<Id, Request>, responded: set<Id>, wire: seq<WireEvent>)

  const IDLE := Rpcs(START, map[], {}, [])

  datatype RpcAction =
    | Send(id: Id, req: Request)
    | Inside(a: Action)
    | Respond(id: Id)

  function RpcPerform(s: Rpcs, a: RpcAction): Option<Rpcs> {
    match a
    case Send(id, req) =>
      if id in s.requests then None
      else Some(s.(requests := s.requests[id := req], wire := s.wire + [Sent(id, req)]))
    case Inside(b) =>
      if b.Invoke? && !(b.id in s.requests && b.cmd == CommandIn(s.requests[b.id])) then None
      else (match Perform(s.sys, b)
            case None => None
            case Some(sys) => Some(s.(sys := sys)))
    case Respond(id) =>
      if id in s.responded || id !in s.sys.calls || !s.sys.calls[id].phase.Returned? then None
      else Some(s.(responded := s.responded + {id},
                   wire := s.wire + [Received(id, ResponseOut(s.sys.calls[id].phase.reply))]))
  }

  function RpcReach(run: seq<RpcAction>): Option<Rpcs> {
    if |run| == 0 then Some(IDLE)
    else
      match RpcReach(run[..|run| - 1])
      case None => None
      case Some(s) => RpcPerform(s, run[|run| - 1])
  }

  // --- Linearizations, as clients would state them ---

  datatype WireEntry = WireEntry(id: Id, req: Request, now: Time, resp: Response)

  function ArrivalsOf(lin: seq<WireEntry>): seq<Arrival> {
    seq(|lin|, i requires 0 <= i < |lin| => Arrival(lin[i].req, lin[i].now))
  }

  function ResponsesOf(lin: seq<WireEntry>): seq<Response> {
    seq(|lin|, i requires 0 <= i < |lin| => lin[i].resp)
  }

  predicate WireBefore(wire: seq<WireEvent>, first: Id, second: Id) {
    exists i, j :: 0 <= i < j < |wire| && wire[i].Received? && wire[i].id == first &&
                   wire[j].Sent? && wire[j].id == second
  }

  /** Each request once, in an order that keeps real time, in which the wire
      contract answers each with the response its client received. */
  ghost predicate IsWireLinearization(wire: seq<WireEvent>, lin: seq<WireEntry>) {
    && (forall p, q :: 0 <= p < q < |lin| ==> lin[p].id != lin[q].id)
    && Specified(ArrivalsOf(lin)).1 == ResponsesOf(lin)
    && (forall p, q :: 0 <= p < q < |lin| ==> !WireBefore(wire, lin[q].id, lin[p].id))
    && (forall k :: 0 <= k < |lin| ==> Sent(lin[k].id, lin[k].req) in wire)
    && (forall e :: e in wire && e.Received? ==>
          exists k :: 0 <= k < |lin| && lin[k].id == e.id && lin[k].resp == e.resp)
  }

  // --- The backend inside ---

  function InnerRun(run: seq<RpcAction>): seq<Action> {
    if |run| == 0 then []
    else
      var last := run[|run| - 1];
      InnerRun(run[..|run| - 1]) + if last.Inside? then [last.a] else []
  }

  lemma InnerStep(s: Rpcs, a: RpcAction)
    requires RpcPerform(s, a).Some?
    ensures var s' := RpcPerform(s, a).value;
            if a.Inside? then
              && Perform(s.sys, a.a) == Some(s'.sys) && s' == s.(sys := s'.sys)
              && (a.a.Invoke? ==> a.a.id in s.requests && a.a.cmd == CommandIn(s.requests[a.a.id]))
            else
              s'.sys == s.sys
  {
    hide Perform, CommandIn, ResponseOut;
  }

  lemma {:induction false} InnerReach(run: seq<RpcAction>)
    requires RpcReach(run).Some?
    ensures Reach(InnerRun(run)) == Some(RpcReach(run).value.sys)
  {
    hide Perform, RpcPerform, Reach;
    if |run| == 0 {
      assert Reach([]) == Some(START) by { NothingReached(); }
    } else {
      var prefix, last := run[..|run| - 1], run[|run| - 1];
      InnerReach(prefix);
      InnerStep(RpcReach(prefix).value, last);
      if last.Inside? {
        ReachOneMore(InnerRun(prefix), last.a);
      } else {
        assert InnerRun(prefix) + [] == InnerRun(prefix);
      }
    }
  }

  lemma NothingReached()
    ensures Reach([]) == Some(START)
  {
  }

  /** What one step of the backend leaves alone. */
  lemma StepOfBackend(s: System, a: Action, s': System)
    requires Perform(s, a) == Some(s')
    ensures s'.history == s.history || exists e :: s'.history == s.history + [e]
    ensures forall id :: id in s.calls ==> id in s'.calls && s'.calls[id].cmd == s.calls[id].cmd
    ensures forall id :: id in s.calls && s.calls[id].phase.Returned? ==> s'.calls[id] == s.calls[id]
    ensures forall id :: id in s'.calls && id !in s.calls ==>
              a.Invoke? && a.id == id && s'.calls[id] == CallState(a.cmd, Invoked) &&
              s'.history == s.history + [Called(id, a.cmd)]
    ensures forall id :: id in s'.calls && s'.calls[id].phase.Returned? ==>
              (id in s.calls && s.calls[id].phase.Returned?) ||
              s'.history == s.history + [Replied(id, s'.calls[id].phase.reply)]
  {
    hide Body;
  }

  // --- The invariant of the handlers ---

  ghost predicate RequestsOk(s: Rpcs) {
    && (forall id :: id in s.sys.calls ==> id in s.requests && s.sys.calls[id].cmd == CommandIn(s.requests[id]))
    && (forall id :: id in s.requests ==> Sent(id, s.requests[id]) in s.wire)
  }

  predicate WireEventOk(s: Rpcs, e: WireEvent) {
    match e
    case Sent(id, req) => id in s.requests && s.requests[id] == req
    case Received(id, resp) =>
      && id in s.sys.calls && s.sys.calls[id].phase.Returned?
      && resp == ResponseOut(s.sys.calls[id].phase.reply)
  }

  ghost predicate RepliesOk(s: System) {
    forall id :: id in s.calls && s.calls[id].phase.Returned? ==> Replied(id, s.calls[id].phase.reply) in s.history
  }

  /** The order clients see is an order the backend saw. */
  ghost predicate OrderOk(s: Rpcs) {
    forall a, b :: WireBefore(s.wire, a, b) && b in s.sys.calls ==> Before(s.sys.history, a, b)
  }

  ghost predicate RpcInv(s: Rpcs) {
    && RequestsOk(s) && RepliesOk(s.sys) && OrderOk(s)
    && (forall e :: e in s.wire ==> WireEventOk(s, e))
  }

  lemma BeforeGrows(history: seq<Event>, e: Event, first: Id, second: Id)
    requires Before(history, first, second)
    ensures Before(history + [e], first, second)
  {
    var i, j :| 0 <= i < j < |history| && history[i].Replied? && history[i].id == first &&
                history[j].Called? && history[j].id == second;
    assert (history + [e])[i] == history[i] && (history + [e])[j] == history[j];
  }

  lemma RepliedIsBefore(history: seq<Event>, first: Id, reply: Reply, second: Id, cmd: Command)
    requires Replied(first, reply) in history
    ensures Before(history + [Called(second, cmd)], first, second)
  {
    var i :| 0 <= i < |history| && history[i] == Replied(first, reply);
    var longer := history + [Called(second, cmd)];
    assert longer[i] == history[i] && longer[|history|] == Called(second, cmd);
  }

  lemma WireBeforeOneMore(wire: seq<WireEvent>, e: WireEvent, first: Id, second: Id)
    ensures WireBefore(wire + [e], first, second) ==> WireBefore(wire, first, second) || (e.Sent? && e.id == second)
  {
    var longer := wire + [e];
    if WireBefore(longer, first, second) {
      var i, j :| 0 <= i < j < |longer| && longer[i].Received? && longer[i].id == first &&
                  longer[j].Sent? && longer[j].id == second;
      if j < |wire| {
        assert wire[i] == longer[i] && wire[j] == longer[j];
      }
    }
  }

  lemma WireBeforeWasReceived(s: Rpcs, first: Id, second: Id)
    requires (forall e :: e in s.wire ==> WireEventOk(s, e)) && WireBefore(s.wire, first, second)
    ensures first in s.sys.calls && s.sys.calls[first].phase.Returned?
  {
    var i :| 0 <= i < |s.wire| && s.wire[i].Received? && s.wire[i].id == first;
    assert WireEventOk(s, s.wire[i]);
  }

  lemma KeepsSend(s: Rpcs, a: RpcAction, s': Rpcs)
    requires RpcInv(s) && a.Send? && RpcPerform(s, a) == Some(s')
    ensures RpcInv(s')
  {
    hide Before, WireBefore, CommandIn, ResponseOut;
    forall x, y | WireBefore(s'.wire, x, y) && y in s'.sys.calls ensures Before(s'.sys.history, x, y) {
      WireBeforeOneMore(s.wire, Sent(a.id, a.req), x, y);
    }
    forall e | e in s'.wire ensures WireEventOk(s', e) {
      assert e == Sent(a.id, a.req) || WireEventOk(s, e);
    }
  }

  lemma KeepsRespond(s: Rpcs, a: RpcAction, s': Rpcs)
    requires RpcInv(s) && a.Respond? && RpcPerform(s, a) == Some(s')
    ensures RpcInv(s')
  {
    hide Before, WireBefore, CommandIn, ResponseOut;
    var sent := s'.wire[|s.wire|];
    forall x, y | WireBefore(s'.wire, x, y) && y in s'.sys.calls ensures Before(s'.sys.history, x, y) {
      WireBeforeOneMore(s.wire, sent, x, y);
    }
    forall e | e in s'.wire ensures WireEventOk(s', e) {
      assert e == sent || WireEventOk(s, e);
    }
  }

  lemma KeepsInside(s: Rpcs, a: RpcAction, s': Rpcs)
    requires RpcInv(s) && a.Inside? && RpcPerform(s, a) == Some(s')
    ensures RpcInv(s')
  {
    InnerStep(s, a);
    InsideKeepsRequests(s, a, s');
    InsideKeepsReplies(s, a, s');
    hide RpcPerform, RequestsOk, RepliesOk, WireEventOk, WireBefore, Before;
    forall x, y | WireBefore(s'.wire, x, y) && y in s'.sys.calls ensures Before(s'.sys.history, x, y) {
      InsideKeepsOrder(s, a, s', x, y);
    }
    forall e | e in s'.wire ensures WireEventOk(s', e) {
      InsideKeepsWire(s, a, s', e);
    }
  }

  lemma InsideKeepsRequests(s: Rpcs, a: RpcAction, s': Rpcs)
    requires RequestsOk(s) && a.Inside? && RpcPerform(s, a) == Some(s')
    ensures RequestsOk(s')
  {
    InnerStep(s, a);
    StepOfBackend(s.sys, a.a, s'.sys);
    hide RpcPerform, CommandIn, Perform;
  }

  lemma InsideKeepsWire(s: Rpcs, a: RpcAction, s': Rpcs, e: WireEvent)
    requires WireEventOk(s, e) && a.Inside? && RpcPerform(s, a) == Some(s')
    ensures WireEventOk(s', e)
  {
    InnerStep(s, a);
    StepOfBackend(s.sys, a.a, s'.sys);
    hide RpcPerform, CommandIn, ResponseOut, Perform;
  }

  lemma InsideKeepsReplies(s: Rpcs, a: RpcAction, s': Rpcs)
    requires RepliesOk(s.sys) && a.Inside? && RpcPerform(s, a) == Some(s')
    ensures RepliesOk(s'.sys)
  {
    InnerStep(s, a);
    StepOfBackend(s.sys, a.a, s'.sys);
    hide RpcPerform, CommandIn, ResponseOut, Perform;
  }

  lemma InsideKeepsOrder(s: Rpcs, a: RpcAction, s': Rpcs, x: Id, y: Id)
    requires RpcInv(s) && a.Inside? && RpcPerform(s, a) == Some(s')
    requires WireBefore(s'.wire, x, y) && y in s'.sys.calls
    ensures Before(s'.sys.history, x, y)
  {
    InnerStep(s, a);
    StepOfBackend(s.sys, a.a, s'.sys);
    hide RpcPerform, Before, CommandIn, ResponseOut, Perform;
    if y in s.sys.calls {
      if s'.sys.history != s.sys.history {
        var e :| s'.sys.history == s.sys.history + [e];
        BeforeGrows(s.sys.history, e, x, y);
      }
    } else {
      WireBeforeWasReceived(s, x, y);
      RepliedIsBefore(s.sys.history, x, s.sys.calls[x].phase.reply, y, a.a.cmd);
    }
  }

  lemma {:induction false} RpcInvHolds(run: seq<RpcAction>)
    requires RpcReach(run).Some?
    ensures RpcInv(RpcReach(run).value)
  {
    hide RpcPerform, RpcInv;
    if |run| == 0 {
      assert RpcInv(IDLE) by { IdleIsOk(); }
    } else {
      var s, a, s' := RpcReach(run[..|run| - 1]).value, run[|run| - 1], RpcReach(run).value;
      RpcInvHolds(run[..|run| - 1]);
      match a
      case Send(_, _) => KeepsSend(s, a, s');
      case Inside(_) => KeepsInside(s, a, s');
      case Respond(_) => KeepsRespond(s, a, s');
    }
  }

  lemma IdleIsOk()
    ensures RpcInv(IDLE)
  {
  }

  // --- The result ---

  /** The backend's linearization as its clients would tell it. */
  function Told(lin: seq<Entry>, requests: map<Id, Request>): seq<WireEntry>
    requires forall k :: 0 <= k < |lin| ==> lin[k].id in requests
  {
    seq(|lin|, k requires 0 <= k < |lin| =>
      WireEntry(lin[k].id, requests[lin[k].id], lin[k].now, ResponseOut(lin[k].reply)))
  }

  lemma {:induction false} ToldIsServed(lin: seq<Entry>, requests: map<Id, Request>)
    requires Legal(lin)
    requires forall k :: 0 <= k < |lin| ==> lin[k].id in requests && lin[k].cmd == CommandIn(requests[lin[k].id])
    ensures var told := Told(lin, requests);
            Served(ArrivalsOf(told)) == (Base(lin), ResponsesOf(told))
  {
    hide Step, Legal;
    if |lin| == 0 {
    } else {
      var prefix, e := lin[..|lin| - 1], lin[|lin| - 1];
      LegalPrefix(lin);
      ToldIsServed(prefix, requests);
      assert lin == prefix + [e];
      BaseOneMore(prefix, e);
      var told, before := Told(lin, requests), Told(prefix, requests);
      assert ArrivalsOf(told)[..|lin| - 1] == ArrivalsOf(before);
      assert ResponsesOf(told) == ResponsesOf(before) + [ResponseOut(e.reply)];
    }
  }

  lemma LegalPrefix(lin: seq<Entry>)
    requires |lin| > 0 && Legal(lin)
    ensures var prefix, e := lin[..|lin| - 1], lin[|lin| - 1];
            Legal(prefix) && Step(Base(prefix), Call(e.cmd, e.now)).1 == e.reply
  {
    hide Step, Base;
    var prefix := lin[..|lin| - 1];
    forall k | 0 <= k < |prefix| ensures prefix[..k] == lin[..k] && prefix[k] == lin[k] {
    }
  }

  /** Whatever the interleaving, the catalog requests that were answered can be put
      in one order, keeping the real time their clients saw, in which the wire
      contract gives every one of them the response it got. */
  lemma LinearizableRpcs(run: seq<RpcAction>)
    requires RpcReach(run).Some?
    ensures exists lin :: IsWireLinearization(RpcReach(run).value.wire, lin)
  {
    InnerReach(run);
    RpcInvHolds(run);
    var lin := ReachedHasLinearization(InnerRun(run));
    InvariantsLinearize(RpcReach(run).value, lin);
  }

  lemma InvariantsLinearize(s: Rpcs, lin: seq<Entry>)
    requires RpcInv(s) && Inv(s.sys, lin)
    ensures exists told :: IsWireLinearization(s.wire, told)
  {
    hide Step, Base, Legal, LockOk, MemOk, HistoryOk, Before, WireBefore, CommandIn, ResponseOut, Specified, Served;
    forall k | 0 <= k < |lin|
      ensures lin[k].id in s.sys.calls && lin[k].id in s.requests && lin[k].cmd == CommandIn(s.requests[lin[k].id])
    {
      assert Records(s.sys.calls, lin[k]);
    }
    var told := Told(lin, s.requests);
    ToldIsServed(lin, s.requests);
    ServerMeetsContract(ArrivalsOf(told));
    forall e | e in s.wire && e.Received?
      ensures exists k :: 0 <= k < |told| && told[k].id == e.id && told[k].resp == e.resp
    {
      assert WireEventOk(s, e) && Covered(lin, e.id);
      var k :| 0 <= k < |lin| && lin[k].id == e.id;
      assert Records(s.sys.calls, lin[k]);
      assert told[k].id == e.id && told[k].resp == e.resp;
    }
    assert IsWireLinearization(s.wire, told);
  }

  /** No request is left waiting: while one has no response, its handler or the
      backend can take a step. */
  lemma SomeRpcCanMove(run: seq<RpcAction>, id: Id) returns (a: RpcAction)
    requires RpcReach(run).Some?
    requires id in RpcReach(run).value.requests && id !in RpcReach(run).value.responded
    ensures !a.Send? && RpcPerform(RpcReach(run).value, a).Some?
  {
    var s := RpcReach(run).value;
    InnerReach(run);
    NoPanicNoRace(InnerRun(run), id, id);
    hide Body, RpcReach, Reach;
    if id !in s.sys.calls {
      a := Inside(Invoke(id, CommandIn(s.requests[id])));
    } else if s.sys.calls[id].phase.Returned? {
      a := Respond(id);
    } else {
      var b := SomeCallCanMove(InnerRun(run), id);
      a := Inside(b);
    }
  }

  /** A new request of any kind can always be sent, and is seen to be. */
  lemma AnyRequestCanBeSent(s: Rpcs, id: Id, req: Request)
    requires id !in s.requests
    ensures var after := RpcPerform(s, Send(id, req));
            after.Some? && after.value.wire == s.wire + [Sent(id, req)] && after.value.requests[id] == req
  {
  }
}
