/**
 What settles a request, over every sequence of handlers: the promise resolves exactly when a
 success reply to one of the request's own messages was handled, and is refused exactly when an
 error reply was. With it, what is on the wire: one message of a request that may not be
 repeated, and after a reconnect the queue, in its order.
 */
module SdkReplies {
  import opened Wrappers
  import opened Jobs
  import opened SdkModel
  import opened SdkSafety

  // ------------------------------------------------------------------ the wire and the in-flight map

  /** Message `m` in flight is the `i`-th frame that was sent, on the request's current socket. */
  predicate IsFlight(c: Client, m: MsgId, i: nat) {
    && m in c.inFlight && c.inFlight[m] in c.pendings
    && i < |c.wire| && c.wire[i].msg == m && c.wire[i].req == c.inFlight[m]
    && c.pendings[c.inFlight[m]].socket == Some(c.wire[i].socket)
  }

  ghost predicate FramesOk(c: Client) {
    && (forall i :: 0 <= i < |c.wire| ==> c.wire[i].msg <= c.counter)
    && (forall i, k :: 0 <= i < k < |c.wire| ==> c.wire[i].msg < c.wire[k].msg)
    && (forall m :: m in c.inFlight ==> exists i: nat :: IsFlight(c, m, i))
  }

  /** How many messages of the request were sent. */
  function Frames(wire: seq<Frame>, r: ReqId): nat {
    if wire == [] then 0
    else Frames(wire[..|wire| - 1], r) + if wire[|wire| - 1].req == r then 1 else 0
  }

  lemma {:induction false} NoFrames(wire: seq<Frame>, r: ReqId)
    ensures Frames(wire, r) == 0 <==> !OnWire(wire, r)
  {
    if wire != [] {
      var n := |wire| - 1;
      NoFrames(wire[..n], r);
      assert wire == wire[..n] + [wire[n]];
      WireGrows(wire[..n], wire[n], r);
    }
  }

  /** A request that may not be repeated is never put back and goes out at most once; a rejection
      carries an outcome iff the request is a print. */
  predicate OnceOk(c: Client, r: ReqId) {
    && (r in c.requeued ==> r in c.pendings && c.pendings[r].ask.resendable)
    && (r in c.pendings && !c.pendings[r].ask.resendable ==> Frames(c.wire, r) <= 1)
    && (r in c.settled && c.settled[r].Rejected? && r in c.pendings ==>
          (c.settled[r].outcome == Unstated <==> !c.pendings[r].ask.isPrint))
  }

  ghost predicate History(c: Client) {
    FramesOk(c) && forall r :: OnceOk(c, r)
  }

  /** Nothing was sent, and no request that is in flight was touched. */
  lemma QuietFrames(c: Client, c': Client)
    requires FramesOk(c) && c'.wire == c.wire && c'.counter == c.counter
    requires forall m :: m in c'.inFlight ==> m in c.inFlight && c'.inFlight[m] == c.inFlight[m]
    requires forall m :: m in c'.inFlight ==>
      c'.inFlight[m] in c'.pendings && c'.inFlight[m] in c.pendings && c'.pendings[c'.inFlight[m]] == c.pendings[c'.inFlight[m]]
    ensures FramesOk(c')
  {
    forall m | m in c'.inFlight ensures exists i: nat :: IsFlight(c', m, i) {
      var i: nat :| IsFlight(c, m, i);
      assert IsFlight(c', m, i);
    }
  }

  lemma FrameAdded(wire: seq<Frame>, f: Frame, r: ReqId)
    ensures Frames(wire + [f], r) == Frames(wire, r) + if f.req == r then 1 else 0
  {
    assert (wire + [f])[..|wire|] == wire;
  }

  lemma SendFrames(c: Client, r: ReqId, held: set<ReqId>)
    requires ClientInv(c, held) && r in held && r in c.pendings && FramesOk(c) && c.ws.Some?
    ensures FramesOk(Send(c, r))
  {
    hide Story, NoneLost, QueueOk;
    var c' := Send(c, r);
    HeldUnsent(c, r, held);
    forall m | m in c'.inFlight ensures exists i: nat :: IsFlight(c', m, i) {
      if m == c.counter + 1 {
        assert IsFlight(c', m, |c.wire|);
      } else {
        var i: nat :| IsFlight(c, m, i);
        assert Sent(c, c.inFlight[m]);
        assert IsFlight(c', m, i);
      }
    }
  }

  lemma HeldUnsent(c: Client, r: ReqId, held: set<ReqId>)
    requires ClientInv(c, held) && r in held
    ensures Unsent(c, r) && (OnWire(c.wire, r) <==> r in c.requeued)
  {
    HeldIsUnsent(c, r, held);
  }

  lemma SendHistory(c: Client, r: ReqId, held: set<ReqId>)
    requires ClientInv(c, held) && r in held && r in c.pendings && History(c)
    ensures History(Send(c, r))
  {
    hide ClientInv, FramesOk;
    var c' := Send(c, r);
    HeldUnsent(c, r, held);
    if c.ws.Some? {
      SendFrames(c, r, held);
      NoFrames(c.wire, r);
      forall k ensures OnceOk(c', k) {
        assert OnceOk(c, k);
        FrameAdded(c.wire, Frame(c.ws.value, c.counter + 1, r, c.pendings[r].ask.key), k);
      }
    } else {
      EnqueueHistory(c, r);
    }
  }

  lemma EnqueueHistory(c: Client, r: ReqId)
    requires History(c)
    ensures History(Enqueue(c, r))
  {
    var c' := Enqueue(c, r);
    forall m | m in c'.inFlight ensures exists i: nat :: IsFlight(c', m, i) {
      var i: nat :| IsFlight(c, m, i);
      assert IsFlight(c', m, i);
    }
    forall k ensures OnceOk(c', k) { assert OnceOk(c, k); }
  }

  // ------------------------------------------------------------------ handlers

  lemma RequestHistory(c: Client, ask: Ask)
    requires ClientInv(c, {}) && Acceptable(ask) && History(c)
    ensures History(Request(c, ask))
  {
    hide ClientInv, Send, FramesOk;
    var r, c1 := c.nextReq, Issued(c, ask);
    IssuedKeeps(c, ask);
    FreshRequest(c);
    IssuedFrames(c, ask);
    NoFrames(c.wire, r);
    forall k ensures OnceOk(c1, k) { assert OnceOk(c, k); }
    if c.link == Disconnected {
      var c2 := c1.(settled := c.settled[r := Label(Pending(ask, None))]);
      SettledFrames(c1, c2.settled);
      forall k ensures OnceOk(c2, k) { assert OnceOk(c1, k); }
    } else if c.link == Connected && c.ws.Some? {
      SendHistory(c1, r, {r});
    } else {
      EnqueueHistory(c1, r);
    }
  }

  lemma FreshRequest(c: Client)
    requires ClientInv(c, {})
    ensures c.nextReq !in c.pendings && c.nextReq !in c.settled && !OnWire(c.wire, c.nextReq) && c.nextReq !in c.requeued
    ensures forall m :: m in c.inFlight ==> c.inFlight[m] in c.pendings && c.inFlight[m] != c.nextReq
  {
    assert RequestOk(c, c.nextReq);
  }

  lemma IssuedFrames(c: Client, ask: Ask)
    requires ClientInv(c, {}) && FramesOk(c)
    ensures FramesOk(Issued(c, ask))
  {
    hide ClientInv, FramesOk;
    FreshRequest(c);
    QuietFrames(c, Issued(c, ask));
  }

  lemma SettledFrames(c: Client, settled: map<ReqId, Verdict>)
    requires FramesOk(c)
    ensures FramesOk(c.(settled := settled))
  {
    var c' := c.(settled := settled);
    forall m | m in c'.inFlight ensures exists i: nat :: IsFlight(c', m, i) {
      var i: nat :| IsFlight(c, m, i);
      assert IsFlight(c', m, i);
    }
  }

  /** A request leaves the in-flight map; the others stay as they are. */
  lemma LeaveFrames(c: Client, m: MsgId, p: Pending, c': Client)
    requires ClientInv(c, {}) && FramesOk(c) && m in c.inFlight
    requires c'.wire == c.wire && c'.counter == c.counter && c'.inFlight == c.inFlight - {m}
    requires c'.pendings == c.pendings[c.inFlight[m] := p]
    ensures FramesOk(c')
  {
    hide Story, NoneLost, QueueOk, FramesOk;
    forall n | n in c'.inFlight ensures c'.inFlight[n] != c.inFlight[m] && c.inFlight[n] in c.pendings {
      assert Sent(c, c.inFlight[n]);
    }
    QuietFrames(c, c');
  }

  lemma ReplyHistory(c: Client, ws: SocketId, m: MsgId, ok: bool)
    requires ClientInv(c, {}) && History(c)
    ensures History(OnReply(c, ws, m, ok))
  {
    hide ClientInv, FramesOk;
    if m in c.inFlight && c.inFlight[m] in c.pendings && c.pendings[c.inFlight[m]].socket == Some(ws) {
      var r, c' := c.inFlight[m], OnReply(c, ws, m, ok);
      assert c.pendings[r := c.pendings[r]] == c.pendings;
      LeaveFrames(c, m, c.pendings[r], c');
      forall k ensures OnceOk(c', k) { assert OnceOk(c, k); }
    }
  }

  lemma RecoverHistory(c: Client, ws: SocketId, m: MsgId, reconnect: bool)
    requires ClientInv(c, {}) && History(c)
    ensures History(Recover(c, ws, m, reconnect))
  {
    hide ClientInv, FramesOk;
    if m in c.inFlight && c.inFlight[m] in c.pendings && c.pendings[c.inFlight[m]].socket == Some(ws) {
      var r, c' := c.inFlight[m], Recover(c, ws, m, reconnect);
      LeaveFrames(c, m, c.pendings[r].(socket := None), c');
      forall k ensures OnceOk(c', k) { assert OnceOk(c, k); }
    }
  }

  lemma {:induction false} RecoverAllHistory(c: Client, ws: SocketId, n: nat, reconnect: bool)
    requires ClientInv(c, {}) && History(c)
    ensures History(RecoverAll(c, ws, n, reconnect))
  {
    hide ClientInv, Recover, History;
    if n > 0 {
      RecoverAllHistory(c, ws, n - 1, reconnect);
      RecoverAllKeeps(c, ws, n - 1, reconnect);
      RecoverHistory(RecoverAll(c, ws, n - 1, reconnect), ws, n - 1, reconnect);
    }
  }

  /** Fields that say nothing about requests. */
  lemma LinkHistory(c: Client, c': Client)
    requires History(c) && c' == c.(link := c'.link, ws := c'.ws, closing := c'.closing, nextSocket := c'.nextSocket, queue := c'.queue)
    ensures History(c')
  {
    forall m | m in c'.inFlight ensures exists i: nat :: IsFlight(c', m, i) {
      var i: nat :| IsFlight(c, m, i);
      assert IsFlight(c', m, i);
    }
    forall k ensures OnceOk(c', k) { assert OnceOk(c, k); }
  }

  lemma FailAllHistory(c: Client)
    requires ClientInv(c, {}) && History(c)
    ensures History(FailAll(c))
  {
    hide ClientInv, Waiting;
    var c' := FailAll(c);
    forall k ensures OnceOk(c', k) { assert OnceOk(c, k); }
  }

  lemma CloseHistory(c: Client, ws: SocketId, reconnect: bool)
    requires ClientInv(c, {}) && History(c)
    ensures History(OnClose(c, ws, reconnect))
  {
    hide ClientInv, FailAll, RecoverAll, History;
    if c.ws == Some(ws) {
      var c0 := c.(ws := None);
      LinkKeeps(c, c.link, None, c.closing, c.nextSocket);
      LinkHistory(c, c0);
      RecoverAllKeeps(c0, ws, c.counter + 1, reconnect);
      RecoverAllHistory(c0, ws, c.counter + 1, reconnect);
      var c1 := RecoverAll(c0, ws, c.counter + 1, reconnect);
      if c1.closing || !reconnect {
        LinkKeeps(c1, Disconnected, c1.ws, c1.closing, c1.nextSocket);
        LinkHistory(c1, c1.(link := Disconnected));
        FailAllHistory(c1.(link := Disconnected));
      } else {
        LinkHistory(c1, c1.(link := Reconnecting));
      }
    }
  }

  lemma {:induction false} SendAllHistory(c: Client, rs: seq<ReqId>, held: set<ReqId>)
    requires ClientInv(c, held) && NoRepeats(rs) && (forall r :: r in rs ==> r in held) && History(c)
    ensures History(SendAll(c, rs))
    decreases |rs|
  {
    hide ClientInv, Send, History;
    if rs != [] {
      var n := |rs| - 1;
      var r, front := rs[n], rs[..n];
      assert forall k :: k in front ==> k in rs;
      SendAllHistory(c, front, held);
      SendAllKeeps(c, front, held);
      assert r !in front;
      HeldIsUnsent(SendAll(c, front), r, held - (set k | k in front));
      SendHistory(SendAll(c, front), r, held - (set k | k in front));
    }
  }

  lemma ReadyHistory(c: Client)
    requires ClientInv(c, {}) && History(c)
    ensures History(AfterConnect(c))
  {
    hide ClientInv, SendAll, History;
    var c1 := c.(link := Connected, queue := []);
    TakeQueue(c);
    LinkHistory(c, c1);
    SendAllHistory(c1, c.queue, set r | r in c.queue);
  }

  lemma ExpireHistory(c: Client, r: ReqId)
    requires ClientInv(c, {}) && Open(c, r) && History(c)
    ensures History(Timeout(c, r))
  {
    hide Story, NoneLost, QueueOk, FramesOk, Without;
    var c' := Timeout(c, r);
    forall n | n in c'.inFlight ensures c.inFlight[n] in c.pendings { assert Sent(c, c.inFlight[n]); }
    QuietFrames(c, c');
    forall k ensures OnceOk(c', k) { assert OnceOk(c, k); }
  }

  lemma ActHistory(c: Client, a: Action, reconnect: bool)
    requires ClientInv(c, {}) && History(c) && CanAct(c, a)
    ensures History(Act(c, a, reconnect))
  {
    hide ClientInv, History, Request, OnReply, OnClose, AfterConnect, FailAll, Timeout;
    match a
    case Call(ask) => RequestHistory(c, ask);
    case Reply(ws, m, ok) => ReplyHistory(c, ws, m, ok);
    case Lost(ws) => CloseHistory(c, ws, reconnect);
    case Ready => ReadyHistory(c);
    case GiveUp =>
      LinkKeeps(c, Disconnected, c.ws, c.closing, c.nextSocket);
      LinkHistory(c, c.(link := Disconnected));
      FailAllHistory(c.(link := Disconnected));
    case Expire(r) => ExpireHistory(c, r);
    case Disconnect =>
      LinkKeeps(c, Disconnected, None, true, c.nextSocket);
      LinkHistory(c, c.(closing := true, ws := None, link := Disconnected));
      FailAllHistory(c.(closing := true, ws := None, link := Disconnected));
    case _ => LinkHistory(c, Act(c, a, reconnect));
  }

  lemma {:induction false} ActAllHistory(c: Client, actions: seq<Action>, reconnect: bool)
    requires ClientInv(c, {}) && History(c) && Acts(c, actions, reconnect)
    ensures History(ActAll(c, actions, reconnect))
    decreases |actions|
  {
    hide ClientInv, History, Act, CanAct;
    if actions != [] {
      ActKeeps(c, actions[0], reconnect);
      ActHistory(c, actions[0], reconnect);
      ActAllHistory(Act(c, actions[0], reconnect), actions[1..], reconnect);
    }
  }

  lemma NewHistory()
    ensures History(NewClient())
  {
  }

  /** A request that may not be repeated is on the wire at most once, whatever is lost and reconnected. */
  lemma UnrepeatableIsSentOnce(actions: seq<Action>, reconnect: bool, i: nat, k: nat)
    requires Acts(NewClient(), actions, reconnect)
    requires
      var c := ActAll(NewClient(), actions, reconnect);
      i < k < |c.wire| && c.wire[i].req == c.wire[k].req
    ensures
      var c := ActAll(NewClient(), actions, reconnect);
      c.wire[i].req in c.pendings && c.pendings[c.wire[i].req].ask.resendable
  {
    hide ActAll, Acts;
    NewClientInv();
    NewHistory();
    ActAllKeeps(NewClient(), actions, reconnect);
    ActAllHistory(NewClient(), actions, reconnect);
    var c := ActAll(NewClient(), actions, reconnect);
    assert RequestOk(c, c.wire[i].req) && OnceOk(c, c.wire[i].req);
    TwoFrames(c.wire, i, k);
  }

  lemma {:induction false} TwoFrames(wire: seq<Frame>, i: nat, k: nat)
    requires i < k < |wire| && wire[i].req == wire[k].req
    ensures Frames(wire, wire[i].req) >= 2
  {
    var n := |wire| - 1;
    if k < n {
      TwoFrames(wire[..n], i, k);
    } else {
      NoFrames(wire[..n], wire[i].req);
      assert wire[..n][i].req == wire[i].req;
    }
  }

  /** The caller of a print is always told an outcome when the call is rejected, and no other caller is. */
  lemma RejectionsOfPrintsHaveAnOutcome(actions: seq<Action>, reconnect: bool, r: ReqId)
    requires Acts(NewClient(), actions, reconnect)
    requires
      var c := ActAll(NewClient(), actions, reconnect);
      r in c.settled && c.settled[r].Rejected?
    ensures
      var c := ActAll(NewClient(), actions, reconnect);
      r in c.pendings && (c.settled[r].outcome == Unstated <==> !c.pendings[r].ask.isPrint)
  {
    hide ActAll, Acts;
    NewClientInv();
    NewHistory();
    ActAllKeeps(NewClient(), actions, reconnect);
    ActAllHistory(NewClient(), actions, reconnect);
    var c := ActAll(NewClient(), actions, reconnect);
    assert RequestOk(c, r) && OnceOk(c, r);
  }

  // ------------------------------------------------------------------ what settles a request

  /** Handling `a` in `c` is handling a reply to a message of `r` that is still in flight: the frame
      was sent on the socket that the reply comes from. */
  ghost predicate Answers(c: Client, a: Action, r: ReqId, ok: bool) {
    && a.Reply? && a.ok == ok && a.msg in c.inFlight
    && exists i :: 0 <= i < |c.wire| && c.wire[i].socket == a.ws && c.wire[i].msg == a.msg && c.wire[i].req == r
  }

  /** Somewhere in the run a reply to a message of `r` is handled. */
  ghost predicate Answered(c: Client, actions: seq<Action>, reconnect: bool, r: ReqId, ok: bool)
    requires Acts(c, actions, reconnect)
    decreases |actions|
  {
    actions != [] &&
    (Answers(c, actions[0], r, ok) || Answered(Act(c, actions[0], reconnect), actions[1..], reconnect, r, ok))
  }

  /** The frame on the wire and the in-flight map agree on whose reply it is. */
  lemma ReplyIsHandledIff(c: Client, ws: SocketId, m: MsgId, ok: bool, r: ReqId)
    requires ClientInv(c, {}) && History(c)
    ensures Answers(c, Reply(ws, m, ok), r, ok) <==>
      m in c.inFlight && c.inFlight[m] == r && r in c.pendings && c.pendings[r].socket == Some(ws)
  {
    hide ClientInv;
    if m in c.inFlight {
      var i: nat :| IsFlight(c, m, i);
      if Answers(c, Reply(ws, m, ok), r, ok) {
        var k :| 0 <= k < |c.wire| && c.wire[k].socket == ws && c.wire[k].msg == m && c.wire[k].req == r;
        assert i == k;
      }
    }
  }

  /** The promise is as before, or it was open and is now rejected. */
  predicate OnlyRejects(c: Client, c': Client, r: ReqId) {
    || VerdictOf(c', r) == VerdictOf(c, r)
    || (r !in c.settled && r in c'.settled && c'.settled[r].Rejected?)
  }

  lemma RecoverVerdict(c: Client, ws: SocketId, m: MsgId, reconnect: bool, r: ReqId)
    requires ClientInv(c, {})
    ensures OnlyRejects(c, Recover(c, ws, m, reconnect), r)
  {
    hide Story, NoneLost, QueueOk;
    if m in c.inFlight { assert Sent(c, c.inFlight[m]); }
  }

  lemma {:induction false} RecoverAllVerdict(c: Client, ws: SocketId, n: nat, reconnect: bool, r: ReqId)
    requires ClientInv(c, {})
    ensures OnlyRejects(c, RecoverAll(c, ws, n, reconnect), r)
  {
    hide ClientInv, Recover;
    if n > 0 {
      RecoverAllVerdict(c, ws, n - 1, reconnect, r);
      RecoverAllKeeps(c, ws, n - 1, reconnect);
      RecoverVerdict(RecoverAll(c, ws, n - 1, reconnect), ws, n - 1, reconnect, r);
    }
  }

  lemma FailAllVerdict(c: Client, r: ReqId)
    requires ClientInv(c, {})
    ensures OnlyRejects(c, FailAll(c), r)
  {
    hide Story, QueueOk, FlightOk, NoneLost, Waiting;
    WaitingIsOpen(c, r);
  }

  lemma CloseVerdict(c: Client, ws: SocketId, reconnect: bool, r: ReqId)
    requires ClientInv(c, {})
    ensures OnlyRejects(c, OnClose(c, ws, reconnect), r)
  {
    hide ClientInv, FailAll, RecoverAll;
    if c.ws == Some(ws) {
      LinkKeeps(c, c.link, None, c.closing, c.nextSocket);
      RecoverAllKeeps(c.(ws := None), ws, c.counter + 1, reconnect);
      RecoverAllVerdict(c.(ws := None), ws, c.counter + 1, reconnect, r);
      var c1 := RecoverAll(c.(ws := None), ws, c.counter + 1, reconnect);
      LinkKeeps(c1, Disconnected, c1.ws, c1.closing, c1.nextSocket);
      FailAllVerdict(c1.(link := Disconnected), r);
    }
  }

  lemma {:induction false} SendAllVerdict(c: Client, rs: seq<ReqId>)
    ensures SendAll(c, rs).settled == c.settled
    decreases |rs|
  {
    if rs != [] { SendAllVerdict(c, rs[..|rs| - 1]); }
  }

  lemma RequestVerdict(c: Client, ask: Ask, r: ReqId)
    requires ClientInv(c, {})
    ensures OnlyRejects(c, Request(c, ask), r)
  {
    hide ClientInv;
    FreshRequest(c);
  }

  /** No handler but that of a reply settles a promise other than by rejecting it, and none changes a
      verdict. */
  lemma OthersOnlyReject(c: Client, a: Action, reconnect: bool, r: ReqId)
    requires ClientInv(c, {}) && CanAct(c, a) && !a.Reply?
    ensures OnlyRejects(c, Act(c, a, reconnect), r)
  {
    hide ClientInv, Request, OnClose, FailAll, SendAll;
    match a
    case Call(ask) => RequestVerdict(c, ask, r);
    case Lost(ws) => CloseVerdict(c, ws, reconnect, r);
    case Ready => SendAllVerdict(c.(link := Connected, queue := []), c.queue);
    case GiveUp =>
      LinkKeeps(c, Disconnected, c.ws, c.closing, c.nextSocket);
      FailAllVerdict(c.(link := Disconnected), r);
    case Expire(_) =>
    case Disconnect =>
      LinkKeeps(c, Disconnected, None, true, c.nextSocket);
      FailAllVerdict(c.(closing := true, ws := None, link := Disconnected), r);
    case _ =>
  }

  function VerdictFor(ok: bool): Verdict {
    if ok then Resolved else Refused
  }

  lemma StepSettlesIff(c: Client, a: Action, reconnect: bool, r: ReqId, ok: bool)
    requires ClientInv(c, {}) && History(c) && CanAct(c, a)
    ensures VerdictOf(Act(c, a, reconnect), r) == Some(VerdictFor(ok)) <==>
      VerdictOf(c, r) == Some(VerdictFor(ok)) || Answers(c, a, r, ok)
  {
    hide ClientInv, History, Answers;
    if a.Reply? {
      ReplyIsHandledIff(c, a.ws, a.msg, a.ok, r);
      NotAnswered(c, a, r, !a.ok);
      if a.msg in c.inFlight { FlightFacts(c, a.msg); }
    } else {
      OthersOnlyReject(c, a, reconnect, r);
      NotAnswered(c, a, r, ok);
    }
  }

  lemma NotAnswered(c: Client, a: Action, r: ReqId, ok: bool)
    requires a.Reply? ==> a.ok != ok
    ensures !Answers(c, a, r, ok)
  {
  }

  lemma {:induction false} RunSettlesIff(c: Client, actions: seq<Action>, reconnect: bool, r: ReqId, ok: bool)
    requires ClientInv(c, {}) && History(c) && Acts(c, actions, reconnect)
    ensures VerdictOf(ActAll(c, actions, reconnect), r) == Some(VerdictFor(ok)) <==>
      VerdictOf(c, r) == Some(VerdictFor(ok)) || Answered(c, actions, reconnect, r, ok)
    decreases |actions|
  {
    hide ClientInv, History, Act, CanAct, Answers;
    if actions != [] {
      StepSettlesIff(c, actions[0], reconnect, r, ok);
      ActKeeps(c, actions[0], reconnect);
      ActHistory(c, actions[0], reconnect);
      RunSettlesIff(Act(c, actions[0], reconnect), actions[1..], reconnect, r, ok);
    }
  }

  /**
   Over every sequence of handlers a request's promise is resolved iff a success reply to one of
   its own messages was handled while that message was in flight, and refused iff an error reply
   was.
   */
  lemma SettledByReplyIff(actions: seq<Action>, reconnect: bool, r: ReqId)
    requires Acts(NewClient(), actions, reconnect)
    ensures
      var c := ActAll(NewClient(), actions, reconnect);
      && (r in c.settled && c.settled[r] == Resolved <==> Answered(NewClient(), actions, reconnect, r, true))
      && (r in c.settled && c.settled[r] == Refused <==> Answered(NewClient(), actions, reconnect, r, false))
  {
    hide ActAll, Acts, Answered, ClientInv, History;
    NewClientInv();
    NewHistory();
    RunSettlesIff(NewClient(), actions, reconnect, r, true);
    RunSettlesIff(NewClient(), actions, reconnect, r, false);
  }

  // ------------------------------------------------------------------ order

  lemma {:induction false} SendAllInOrder(c: Client, rs: seq<ReqId>)
    requires c.ws.Some? && forall r :: r in rs ==> r in c.pendings
    ensures
      var c' := SendAll(c, rs);
      && c'.ws == c.ws && c'.pendings.Keys == c.pendings.Keys && c'.queue == c.queue
      && c'.counter == c.counter + |rs| && |c'.wire| == |c.wire| + |rs| && c'.wire[..|c.wire|] == c.wire
      && forall i :: 0 <= i < |rs| ==> IsFrame(c'.wire[|c.wire| + i], rs[i], c.ws.value, c.counter + 1 + i)
    decreases |rs|
  {
    if rs != [] {
      var n := |rs| - 1;
      assert rs[n] in rs;
      SendAllInOrder(c, rs[..n]);
      var c1, c2 := SendAll(c, rs[..n]), SendAll(c, rs);
      assert c2 == Send(c1, rs[n]);
      assert c2.wire[..|c1.wire|] == c1.wire;
      forall i | 0 <= i < |rs| ensures IsFrame(c2.wire[|c.wire| + i], rs[i], c.ws.value, c.counter + 1 + i) {
        if i < n {
          assert c2.wire[|c.wire| + i] == c1.wire[|c.wire| + i] && rs[..n][i] == rs[i];
        }
      }
    }
  }

  predicate IsFrame(f: Frame, r: ReqId, ws: SocketId, m: int) {
    f.req == r && f.socket == ws && f.msg == m
  }

  /** After a reconnect the whole queue goes out on the new socket, in the order of the queue and
      under consecutive message numbers. */
  lemma ReconnectSendsTheQueue(c: Client)
    requires ClientInv(c, {}) && c.ws.Some?
    ensures
      var c' := AfterConnect(c);
      && c'.link == Connected && c'.queue == [] && |c'.wire| == |c.wire| + |c.queue| && c'.wire[..|c.wire|] == c.wire
      && forall i :: 0 <= i < |c.queue| ==>
           var f := c'.wire[|c.wire| + i];
           f.req == c.queue[i] && f.socket == c.ws.value && f.msg == c.counter + 1 + i
  {
    hide Story, FlightOk, NoneLost;
    assert forall r :: r in c.queue ==> Unsent(c, r);
    var c1 := c.(link := Connected, queue := []);
    SendAllInOrder(c1, c.queue);
    SendAllLink(c1, c.queue);
    forall i | 0 <= i < |c.queue|
      ensures
        var f := AfterConnect(c).wire[|c.wire| + i];
        f.req == c.queue[i] && f.socket == c.ws.value && f.msg == c.counter + 1 + i
    {
      assert c1.wire == c.wire && c1.counter == c.counter;
    }
  }

  lemma {:induction false} SendAllLink(c: Client, rs: seq<ReqId>)
    ensures SendAll(c, rs).link == c.link
    decreases |rs|
  {
    if rs != [] { SendAllLink(c, rs[..|rs| - 1]); }
  }

  /** The requests in flight on `ws` that may be sent again, in the order of their messages. */
  function ToResend(c: Client, ws: SocketId, n: nat): seq<ReqId> {
    if n == 0 then []
    else ToResend(c, ws, n - 1) +
         if n - 1 in c.inFlight && c.inFlight[n - 1] in c.pendings &&
            c.pendings[c.inFlight[n - 1]].socket == Some(ws) && c.pendings[c.inFlight[n - 1]].ask.resendable
         then [c.inFlight[n - 1]] else []
  }

  /** Message `m` is in flight in `c'` as it is in `c`. */
  predicate StillFlies(c: Client, c': Client, m: MsgId) {
    && m in c.inFlight && m in c'.inFlight && c'.inFlight[m] == c.inFlight[m]
    && c.inFlight[m] in c.pendings && c.inFlight[m] in c'.pendings
    && c'.pendings[c.inFlight[m]] == c.pendings[c.inFlight[m]]
  }

  /** The loop of `#onClose` has done the first `n` message numbers: the others fly on, and so does
      what is in flight on another socket. */
  ghost predicate Recovered(c: Client, c': Client, ws: SocketId, n: nat) {
    && c'.queue == c.queue + ToResend(c, ws, n)
    && c'.closing == c.closing && c'.wire == c.wire && c'.ws == c.ws
    && (forall m :: m in c.inFlight && m >= n ==> StillFlies(c, c', m))
    && (forall m :: m in c'.inFlight ==> StillFlies(c, c', m))
    && (forall m :: m in c'.inFlight && m < n ==> StillFlies(c, c', m) && c.pendings[c.inFlight[m]].socket != Some(ws))
  }

  lemma {:induction false} RecoveredInOrder(c: Client, ws: SocketId, n: nat)
    requires ClientInv(c, {}) && !c.closing
    ensures Recovered(c, RecoverAll(c, ws, n, true), ws, n)
    decreases n
  {
    hide Story, NoneLost, QueueOk, Recover;
    if n == 0 {
      forall m | m in c.inFlight ensures StillFlies(c, c, m) { assert Sent(c, c.inFlight[m]); }
    } else {
      RecoveredInOrder(c, ws, n - 1);
      RecoverAllKeeps(c, ws, n - 1, true);
      RecoveredNext(c, RecoverAll(c, ws, n - 1, true), ws, n - 1);
    }
  }

  lemma RecoveredNext(c: Client, c1: Client, ws: SocketId, m: MsgId)
    requires FlightOk(c) && FlightOk(c1) && Recovered(c, c1, ws, m) && !c.closing
    ensures Recovered(c, Recover(c1, ws, m, true), ws, m + 1)
  {
    hide FlightOk, StillFlies, ToResend;
    var c2 := Recover(c1, ws, m, true);
    if m in c.inFlight { assert StillFlies(c, c1, m); }
    NextQueue(c, c1, ws, m);
    forall k | k in c1.inFlight && k != m ensures StillFlies(c, c2, k) { NextFlies(c, c1, ws, m, k); }
    forall k | k in c.inFlight && k >= m + 1 ensures StillFlies(c, c2, k) { FliesOn(c, c1, k); }
    NextStays(c, c1, ws, m);
    assert forall k :: k in c2.inFlight ==> k in c1.inFlight;
  }

  lemma FliesOn(c: Client, c1: Client, k: MsgId)
    requires StillFlies(c, c1, k)
    ensures k in c1.inFlight
  {
  }

  lemma NextQueue(c: Client, c1: Client, ws: SocketId, m: MsgId)
    requires c1.queue == c.queue + ToResend(c, ws, m) && c1.closing == c.closing && !c.closing
    requires (m in c.inFlight || m in c1.inFlight) ==> StillFlies(c, c1, m)
    ensures Recover(c1, ws, m, true).queue == c.queue + ToResend(c, ws, m + 1)
  {
    assert ToResend(c, ws, m + 1)[..|ToResend(c, ws, m)|] == ToResend(c, ws, m);
  }

  lemma NextFlies(c: Client, c1: Client, ws: SocketId, m: MsgId, k: MsgId)
    requires FlightOk(c1) && k in c1.inFlight && k != m && StillFlies(c, c1, k)
    ensures StillFlies(c, Recover(c1, ws, m, true), k)
  {
  }

  lemma NextStays(c: Client, c1: Client, ws: SocketId, m: MsgId)
    requires m in c1.inFlight ==> StillFlies(c, c1, m)
    ensures m in Recover(c1, ws, m, true).inFlight ==>
      StillFlies(c, Recover(c1, ws, m, true), m) && c.pendings[c.inFlight[m]].socket != Some(ws)
  {
  }

  /** When a socket is lost and the client may reconnect: what was in flight on it and may be sent
      again is queued, in the order of its messages, behind what was queued already; nothing is left
      in flight on the socket; nothing is sent. */
  lemma LostRequestsAreQueued(c: Client, ws: SocketId)
    requires ClientInv(c, {}) && !c.closing && c.ws == Some(ws)
    ensures
      var c' := OnClose(c, ws, true);
      && c'.queue == c.queue + ToResend(c, ws, c.counter + 1) && c'.wire == c.wire && c'.link == Reconnecting && c'.ws.None?
      && forall m :: m in c'.inFlight ==> StillFlies(c, c', m) && c.pendings[c.inFlight[m]].socket != Some(ws)
  {
    hide ClientInv, RecoverAll;
    var c0 := c.(ws := None);
    LinkKeeps(c, c.link, None, c.closing, c.nextSocket);
    RecoveredInOrder(c0, ws, c.counter + 1);
    SameResend(c, c0, ws, c.counter + 1);
    FlightsBelow(c);
  }

  lemma FlightsBelow(c: Client)
    requires ClientInv(c, {})
    ensures forall m :: m in c.inFlight ==> m <= c.counter
  {
  }

  lemma {:induction false} SameResend(c: Client, c0: Client, ws: SocketId, n: nat)
    requires c0 == c.(ws := None)
    ensures ToResend(c0, ws, n) == ToResend(c, ws, n)
  {
    if n > 0 { SameResend(c, c0, ws, n - 1); }
  }

  // ------------------------------------------------------------------ requests, timers and giving up

  /** What happens to a new request, by the state of the connection: rejected at once when there is none,
      one message on the socket when the client is connected, otherwise the end of the queue. */
  lemma RequestIsPlaced(c: Client, ask: Ask)
    requires ClientInv(c, {})
    ensures
      var r, c' := c.nextReq, Request(c, ask);
      && r !in c.pendings && c'.nextReq == r + 1 && r in c'.pendings && c'.pendings[r].ask == ask
      && (c.link == Disconnected ==>
            && r in c'.settled && c'.settled[r] == Rejected(if ask.isPrint then NotPrinted else Unstated)
            && c'.wire == c.wire && c'.queue == c.queue && c'.inFlight == c.inFlight)
      && (c.link == Connected && c.ws.Some? ==>
            && c'.wire == c.wire + [Frame(c.ws.value, c.counter + 1, r, ask.key)]
            && c'.inFlight == c.inFlight[c.counter + 1 := r] && c'.pendings[r].socket == c.ws
            && c'.queue == c.queue && c'.settled == c.settled)
      && (c.link != Disconnected && !(c.link == Connected && c.ws.Some?) ==>
            && c'.queue == c.queue + [r] && c'.wire == c.wire && c'.inFlight == c.inFlight
            && c'.settled == c.settled && c'.pendings[r].socket.None?)
  {
    hide ClientInv;
    FreshRequest(c);
  }

  /** The request is settled with an outcome that follows from whether it is on a socket. */
  predicate RejectedBySocket(c: Client, c': Client, r: ReqId) {
    && r in c.pendings && r in c'.settled
    && c'.settled[r] == Rejected(if !c.pendings[r].ask.isPrint then Unstated
                                 else if c.pendings[r].socket.Some? then Unknown else NotPrinted)
  }

  /** A timer takes its own request out of queue and flight and rejects it; nothing else changes. */
  lemma TimerSettlesItsRequest(c: Client, r: ReqId, k: ReqId)
    requires ClientInv(c, {}) && Open(c, r)
    ensures
      var c' := Timeout(c, r);
      && RejectedBySocket(c, c', r) && r !in c'.queue && !InFlight(c', r)
      && c'.wire == c.wire && c'.pendings == c.pendings
      && (k != r ==> (k in c'.queue <==> k in c.queue) && (InFlight(c', k) <==> InFlight(c, k)) && VerdictOf(c', k) == VerdictOf(c, k))
  {
    hide Story, NoneLost;
    WithoutOk(c.queue, r);
    var c' := Timeout(c, r);
    if InFlight(c, k) && k != r {
      var m :| m in c.inFlight && c.inFlight[m] == k;
      assert m in c'.inFlight && c'.inFlight[m] == k;
    }
  }

  /** Giving up rejects every open request, by whether it is on a socket, and leaves every verdict alone. */
  lemma GivingUpRejectsAll(c: Client, r: ReqId)
    requires ClientInv(c, {})
    ensures
      var c' := FailAll(c);
      && c'.queue == [] && c'.inFlight == map[] && c'.wire == c.wire && c'.pendings == c.pendings
      && (Open(c, r) ==> RejectedBySocket(c, c', r))
      && (r in c.settled ==> r in c'.settled && c'.settled[r] == c.settled[r])
  {
    hide Story, QueueOk, FlightOk, NoneLost, Waiting;
    WaitingIsOpen(c, r);
  }

  /** Not settled and as it was, or rejected by whether it was on a socket. */
  predicate KeptOrRejected(c: Client, c': Client, r: ReqId) {
    || (Open(c', r) && r in c.pendings && c'.pendings[r] == c.pendings[r])
    || RejectedBySocket(c, c', r)
  }

  lemma {:induction false} RecoverAllRejects(c: Client, ws: SocketId, n: nat, reconnect: bool, r: ReqId)
    requires ClientInv(c, {}) && (c.closing || !reconnect) && Open(c, r)
    ensures KeptOrRejected(c, RecoverAll(c, ws, n, reconnect), r) && RecoverAll(c, ws, n, reconnect).closing == c.closing
  {
    hide ClientInv;
    if n > 0 {
      RecoverAllRejects(c, ws, n - 1, reconnect, r);
      RecoverAllKeeps(c, ws, n - 1, reconnect);
      var c1 := RecoverAll(c, ws, n - 1, reconnect);
      RecoverVerdict(c1, ws, n - 1, reconnect, r);
    }
  }

  /** When a socket is lost and the client may not reconnect, every open request is rejected, by whether it
      was on a socket, and nothing waits any longer. */
  lemma FinalLossRejectsAll(c: Client, ws: SocketId, reconnect: bool, r: ReqId)
    requires ClientInv(c, {}) && (c.closing || !reconnect) && c.ws == Some(ws)
    ensures
      var c' := OnClose(c, ws, reconnect);
      && c'.link == Disconnected && c'.ws.None? && c'.queue == [] && c'.inFlight == map[]
      && (Open(c, r) ==> RejectedBySocket(c, c', r))
      && (r in c.settled ==> VerdictOf(c', r) == VerdictOf(c, r))
  {
    hide ClientInv, RecoverAll, FailAll;
    LinkKeeps(c, c.link, None, c.closing, c.nextSocket);
    var c0 := c.(ws := None);
    RecoverAllKeeps(c0, ws, c.counter + 1, reconnect);
    RecoverAllFlags(c0, ws, c.counter + 1, reconnect);
    var c1 := RecoverAll(c0, ws, c.counter + 1, reconnect);
    LinkKeeps(c1, Disconnected, c1.ws, c1.closing, c1.nextSocket);
    var c2 := c1.(link := Disconnected);
    GivingUpRejectsAll(c2, r);
    FailAllFlags(c2);
    RecoverAllVerdict(c0, ws, c.counter + 1, reconnect, r);
    if Open(c, r) { RecoverAllRejects(c0, ws, c.counter + 1, reconnect, r); }
  }

  lemma {:induction false} RecoverAllFlags(c: Client, ws: SocketId, n: nat, reconnect: bool)
    ensures
      var c' := RecoverAll(c, ws, n, reconnect);
      c'.closing == c.closing && c'.ws == c.ws && c'.link == c.link
  {
    if n > 0 { RecoverAllFlags(c, ws, n - 1, reconnect); }
  }

  lemma FailAllFlags(c: Client)
    ensures FailAll(c).closing == c.closing && FailAll(c).ws == c.ws && FailAll(c).link == c.link
  {
  }

  lemma {:induction false} SendAllFlags(c: Client, rs: seq<ReqId>)
    ensures SendAll(c, rs).closing == c.closing
    decreases |rs|
  {
    if rs != [] { SendAllFlags(c, rs[..|rs| - 1]); }
  }

  /** The client counts as closing from a disconnect until it is told to connect again. */
  lemma ClosingIff(c: Client, a: Action, reconnect: bool)
    requires CanAct(c, a)
    ensures Act(c, a, reconnect).closing <==> a.Disconnect? || (c.closing && !(a.Connect? && c.link != Connected))
  {
    hide RecoverAll, FailAll, SendAll;
    match a
    case Lost(ws) =>
      RecoverAllFlags(c.(ws := None), ws, c.counter + 1, reconnect);
      FailAllFlags(RecoverAll(c.(ws := None), ws, c.counter + 1, reconnect).(link := Disconnected));
    case Ready => SendAllFlags(c.(link := Connected, queue := []), c.queue);
    case GiveUp => FailAllFlags(c.(link := Disconnected));
    case Disconnect => FailAllFlags(c.(closing := true, ws := None, link := Disconnected));
    case _ =>
  }
}
