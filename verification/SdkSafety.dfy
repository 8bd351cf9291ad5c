/** What the client keeps over every sequence of handlers. */
module SdkSafety {
  import opened Wrappers
  import opened Jobs
  import opened SdkModel

  // ------------------------------------------------------------------ where requests are

  predicate NoRepeats(s: seq<ReqId>) {
    forall i, k :: 0 <= i < k < |s| ==> s[i] != s[k]
  }

  /** The request's promise is not settled. */
  predicate Open(c: Client, r: ReqId) {
    r in c.pendings && r !in c.settled
  }

  predicate Unsent(c: Client, r: ReqId) {
    Open(c, r) && c.pendings[r].socket.None?
  }

  predicate Sent(c: Client, r: ReqId) {
    Open(c, r) && c.pendings[r].socket.Some?
  }

  ghost predicate QueueOk(c: Client) {
    NoRepeats(c.queue) && forall r :: r in c.queue ==> Unsent(c, r)
  }

  ghost predicate FlightOk(c: Client) {
    && (forall m :: m in c.inFlight ==> m <= c.counter && Sent(c, c.inFlight[m]))
    && (forall m, n :: m in c.inFlight && n in c.inFlight && m != n ==> c.inFlight[m] != c.inFlight[n])
  }

  ghost predicate InFlight(c: Client, r: ReqId) {
    exists m :: m in c.inFlight && c.inFlight[m] == r
  }

  /** No request is forgotten; a running loop may still hold those in `held`. */
  ghost predicate NoneLost(c: Client, held: set<ReqId>) {
    && (forall r :: Open(c, r) && r !in held ==> r in c.queue || InFlight(c, r))
    && (forall r :: r in held ==> Unsent(c, r) && r !in c.queue)
  }

  ghost predicate Places(c: Client, held: set<ReqId>) {
    QueueOk(c) && FlightOk(c) && NoneLost(c, held)
  }

  // ------------------------------------------------------------------ what was sent

  ghost predicate OnWire(wire: seq<Frame>, r: ReqId) {
    exists i :: 0 <= i < |wire| && wire[i].req == r
  }

  /** One request's history: an unsent one was on the wire iff a lost socket put it back. */
  ghost predicate Told(p: Pending, v: Option<Verdict>, wired: bool, requeued: bool) {
    && Acceptable(p.ask)
    && (p.socket.Some? ==> wired)
    && (p.socket.None? && (v.None? || v == Some(Rejected(NotPrinted))) ==> (wired <==> requeued))
    && (v == Some(Rejected(NotPrinted)) ==> p.socket.None?)
    && (v == Some(Rejected(Unknown)) ==> wired)
  }

  function VerdictOf(c: Client, r: ReqId): Option<Verdict> {
    if r in c.settled then Some(c.settled[r]) else None
  }

  ghost predicate RequestOk(c: Client, r: ReqId) {
    if r in c.pendings then
      r < c.nextReq && Told(c.pendings[r], VerdictOf(c, r), OnWire(c.wire, r), r in c.requeued)
    else r !in c.settled && r !in c.requeued && !OnWire(c.wire, r)
  }

  predicate FrameOk(c: Client, f: Frame) {
    f.req in c.pendings && f.key == c.pendings[f.req].ask.key
  }

  ghost predicate Story(c: Client) {
    && (forall r :: RequestOk(c, r))
    && (forall i :: 0 <= i < |c.wire| ==> FrameOk(c, c.wire[i]))
  }

  ghost predicate ClientInv(c: Client, held: set<ReqId>) {
    Places(c, held) && Story(c)
  }

  // ------------------------------------------------------------------ send

  lemma WireGrows(wire: seq<Frame>, f: Frame, r: ReqId)
    ensures OnWire(wire + [f], r) <==> OnWire(wire, r) || f.req == r
  {
    if OnWire(wire, r) {
      var i :| 0 <= i < |wire| && wire[i].req == r;
      assert (wire + [f])[i].req == r;
    }
    if f.req == r { assert (wire + [f])[|wire|].req == r; }
    if OnWire(wire + [f], r) {
      var i :| 0 <= i < |wire + [f]| && (wire + [f])[i].req == r;
      assert i < |wire| ==> wire[i].req == r;
    }
  }

  lemma FlightGrows(c: Client, c': Client, m: MsgId, r: ReqId, k: ReqId)
    requires m !in c.inFlight && c'.inFlight == c.inFlight[m := r]
    ensures InFlight(c', k) <==> InFlight(c, k) || k == r
  {
    assert c'.inFlight[m] == r;
    if InFlight(c, k) {
      var n :| n in c.inFlight && c.inFlight[n] == k;
      assert c'.inFlight[n] == k;
    }
  }

  lemma SendPlaces(c: Client, r: ReqId, held: set<ReqId>)
    requires Places(c, held) && r in held && c.ws.Some?
    ensures Places(Send(c, r), held - {r})
  {
    var c' := Send(c, r);
    assert forall k :: Open(c', k) <==> Open(c, k);
    forall k ensures InFlight(c', k) <==> InFlight(c, k) || k == r { FlightGrows(c, c', c.counter + 1, r, k); }
  }

  lemma EnqueuePlaces(c: Client, r: ReqId, held: set<ReqId>)
    requires Places(c, held) && r in held
    ensures Places(Enqueue(c, r), held - {r})
  {
    var c' := Enqueue(c, r);
    assert c'.inFlight == c.inFlight;
    assert forall k :: Open(c', k) <==> Open(c, k);
    assert forall k :: InFlight(c', k) <==> InFlight(c, k);
    assert forall k :: k in c'.queue <==> k in c.queue || k == r;
  }

  lemma SendStory(c: Client, r: ReqId)
    requires Story(c) && Unsent(c, r)
    ensures Story(Send(c, r))
  {
    var c' := Send(c, r);
    forall k ensures RequestOk(c', k) {
      assert RequestOk(c, k);
      if c.ws.Some? { WireGrows(c.wire, Frame(c.ws.value, c.counter + 1, r, c.pendings[r].ask.key), k); }
    }
  }

  /** A request held by a loop is sent, or queued while there is no socket. */
  lemma SendKeeps(c: Client, r: ReqId, held: set<ReqId>)
    requires ClientInv(c, held) && r in held
    ensures ClientInv(Send(c, r), held - {r})
  {
    hide Story, QueueOk, FlightOk;
    SendStory(c, r);
    if c.ws.Some? { SendPlaces(c, r, held); } else { EnqueuePlaces(c, r, held); }
  }

  lemma EnqueueKeeps(c: Client, r: ReqId, held: set<ReqId>)
    requires ClientInv(c, held) && r in held
    ensures ClientInv(Enqueue(c, r), held - {r})
  {
    hide QueueOk, FlightOk, NoneLost;
    EnqueuePlaces(c, r, held);
    forall k ensures RequestOk(Enqueue(c, r), k) { assert RequestOk(c, k); }
  }

  // ------------------------------------------------------------------ request

  function Issued(c: Client, ask: Ask): Client {
    c.(nextReq := c.nextReq + 1, pendings := c.pendings[c.nextReq := Pending(ask, None)])
  }

  lemma IssuedKeeps(c: Client, ask: Ask)
    requires ClientInv(c, {}) && Acceptable(ask)
    ensures ClientInv(Issued(c, ask), {c.nextReq})
  {
    var c' := Issued(c, ask);
    assert RequestOk(c, c.nextReq);
    assert forall k :: Open(c', k) <==> Open(c, k) || k == c.nextReq;
    assert forall k :: InFlight(c', k) <==> InFlight(c, k);
    forall k ensures RequestOk(c', k) { assert RequestOk(c, k); }
  }

  lemma SettleHeld(c: Client, r: ReqId, v: Verdict, held: set<ReqId>)
    requires ClientInv(c, held) && r in held
    requires Told(c.pendings[r], Some(v), OnWire(c.wire, r), r in c.requeued)
    ensures ClientInv(c.(settled := c.settled[r := v]), held - {r})
  {
    var c' := c.(settled := c.settled[r := v]);
    assert forall k :: Open(c', k) <==> Open(c, k) && k != r;
    assert forall k :: InFlight(c', k) <==> InFlight(c, k);
    forall k ensures RequestOk(c', k) { assert RequestOk(c, k); }
  }

  lemma RequestKeeps(c: Client, ask: Ask)
    requires ClientInv(c, {}) && Acceptable(ask)
    ensures ClientInv(Request(c, ask), {})
  {
    hide ClientInv, Send;
    var r, c1 := c.nextReq, Issued(c, ask);
    IssuedKeeps(c, ask);
    assert {r} - {r} == {};
    if c.link == Disconnected {
      HeldIsUnsent(c1, r, {r});
      SettleHeld(c1, r, Label(Pending(ask, None)), {r});
    } else if c.link == Connected && c.ws.Some? {
      SendKeeps(c1, r, {r});
    } else {
      EnqueueKeeps(c1, r, {r});
    }
  }

  lemma HeldIsUnsent(c: Client, r: ReqId, held: set<ReqId>)
    requires ClientInv(c, held) && r in held
    ensures Unsent(c, r) && Told(c.pendings[r], None, OnWire(c.wire, r), r in c.requeued)
  {
    assert RequestOk(c, r);
  }

  // ------------------------------------------------------------------ replies and lost sockets

  lemma FlightShrinks(c: Client, c': Client, m: MsgId, k: ReqId)
    requires FlightOk(c) && m in c.inFlight && c'.inFlight == c.inFlight - {m}
    ensures InFlight(c', k) <==> InFlight(c, k) && k != c.inFlight[m]
  {
    if InFlight(c, k) && k != c.inFlight[m] {
      var n :| n in c.inFlight && c.inFlight[n] == k;
      assert n in c'.inFlight && c'.inFlight[n] == k;
    }
  }

  /** A request leaves the in-flight map for good. */
  lemma SettleFlight(c: Client, m: MsgId, p: Pending, v: Verdict)
    requires ClientInv(c, {}) && m in c.inFlight && p.ask == c.pendings[c.inFlight[m]].ask
    requires Told(p, Some(v), OnWire(c.wire, c.inFlight[m]), c.inFlight[m] in c.requeued)
    ensures
      var r := c.inFlight[m];
      ClientInv(c.(inFlight := c.inFlight - {m}, pendings := c.pendings[r := p], settled := c.settled[r := v]), {})
  {
    var r := c.inFlight[m];
    var c' := c.(inFlight := c.inFlight - {m}, pendings := c.pendings[r := p], settled := c.settled[r := v]);
    assert r !in c.queue;
    assert forall k :: Open(c', k) <==> Open(c, k) && k != r;
    forall k ensures InFlight(c', k) <==> InFlight(c, k) && k != r { FlightShrinks(c, c', m, k); }
    forall k ensures RequestOk(c', k) { assert RequestOk(c, k); }
  }

  lemma FlightFacts(c: Client, m: MsgId)
    requires ClientInv(c, {}) && m in c.inFlight
    ensures Sent(c, c.inFlight[m]) && OnWire(c.wire, c.inFlight[m]) && Acceptable(c.pendings[c.inFlight[m]].ask)
  {
    assert RequestOk(c, c.inFlight[m]);
  }

  lemma ReplyKeeps(c: Client, ws: SocketId, m: MsgId, ok: bool)
    requires ClientInv(c, {})
    ensures ClientInv(OnReply(c, ws, m, ok), {})
  {
    hide ClientInv, OnWire;
    if m in c.inFlight && c.inFlight[m] in c.pendings && c.pendings[c.inFlight[m]].socket == Some(ws) {
      var r := c.inFlight[m];
      FlightFacts(c, m);
      SettleFlight(c, m, c.pendings[r], if ok then Resolved else Refused);
      assert c.pendings[r := c.pendings[r]] == c.pendings;
    }
  }

  /** A request leaves the in-flight map to be sent again. */
  lemma DetachKeeps(c: Client, m: MsgId)
    requires ClientInv(c, {}) && m in c.inFlight
    ensures
      var r := c.inFlight[m];
      ClientInv(c.(inFlight := c.inFlight - {m}, pendings := c.pendings[r := c.pendings[r].(socket := None)],
                   requeued := c.requeued + {r}), {r})
  {
    var r := c.inFlight[m];
    var c' := c.(inFlight := c.inFlight - {m}, pendings := c.pendings[r := c.pendings[r].(socket := None)],
                 requeued := c.requeued + {r});
    assert r !in c.queue;
    assert forall k :: Open(c', k) <==> Open(c, k);
    forall k ensures InFlight(c', k) <==> InFlight(c, k) && k != r { FlightShrinks(c, c', m, k); }
    forall k ensures RequestOk(c', k) { assert RequestOk(c, k); }
  }

  lemma RecoverKeeps(c: Client, ws: SocketId, m: MsgId, reconnect: bool)
    requires ClientInv(c, {})
    ensures ClientInv(Recover(c, ws, m, reconnect), {})
  {
    hide ClientInv, OnWire;
    if m in c.inFlight && c.inFlight[m] in c.pendings && c.pendings[c.inFlight[m]].socket == Some(ws) {
      var r := c.inFlight[m];
      var p := c.pendings[r];
      FlightFacts(c, m);
      if p.ask.resendable && !c.closing && reconnect {
        DetachKeeps(c, m);
        EnqueueKeeps(c.(inFlight := c.inFlight - {m}, pendings := c.pendings[r := p.(socket := None)],
                        requeued := c.requeued + {r}), r, {r});
        assert {r} - {r} == {};
      } else {
        SettleFlight(c, m, p.(socket := None), Rejected(if p.ask.isPrint then Unknown else Unstated));
      }
    }
  }

  lemma {:induction false} RecoverAllKeeps(c: Client, ws: SocketId, n: nat, reconnect: bool)
    requires ClientInv(c, {})
    ensures ClientInv(RecoverAll(c, ws, n, reconnect), {})
  {
    hide ClientInv, Recover;
    if n > 0 {
      RecoverAllKeeps(c, ws, n - 1, reconnect);
      RecoverKeeps(RecoverAll(c, ws, n - 1, reconnect), ws, n - 1, reconnect);
    }
  }

  /** Fields that say nothing about requests. */
  lemma LinkKeeps(c: Client, link: Link, ws: Option<SocketId>, closing: bool, nextSocket: SocketId)
    requires ClientInv(c, {})
    ensures ClientInv(c.(link := link, ws := ws, closing := closing, nextSocket := nextSocket), {})
  {
    var c' := c.(link := link, ws := ws, closing := closing, nextSocket := nextSocket);
    assert forall k :: Open(c', k) <==> Open(c, k);
    assert forall k :: InFlight(c', k) <==> InFlight(c, k);
    forall k ensures RequestOk(c', k) { assert RequestOk(c, k); }
  }

  lemma WaitingIsOpen(c: Client, r: ReqId)
    requires Places(c, {})
    ensures r in Waiting(c) <==> Open(c, r)
  {
  }

  lemma FailAllKeeps(c: Client)
    requires ClientInv(c, {})
    ensures ClientInv(FailAll(c), {})
  {
    hide QueueOk, FlightOk, NoneLost, Waiting;
    var c' := FailAll(c);
    forall k ensures !Open(c', k) && RequestOk(c', k) {
      WaitingIsOpen(c, k);
      assert RequestOk(c, k);
    }
    EmptyPlaces(c');
  }

  lemma EmptyPlaces(c: Client)
    requires c.queue == [] && c.inFlight == map[] && forall r :: !Open(c, r)
    ensures Places(c, {})
  {
  }

  lemma CloseKeeps(c: Client, ws: SocketId, reconnect: bool)
    requires ClientInv(c, {})
    ensures ClientInv(OnClose(c, ws, reconnect), {})
  {
    hide ClientInv, FailAll, RecoverAll;
    if c.ws == Some(ws) {
      LinkKeeps(c, c.link, None, c.closing, c.nextSocket);
      RecoverAllKeeps(c.(ws := None), ws, c.counter + 1, reconnect);
      var c1 := RecoverAll(c.(ws := None), ws, c.counter + 1, reconnect);
      if c1.closing || !reconnect {
        LinkKeeps(c1, Disconnected, c1.ws, c1.closing, c1.nextSocket);
        FailAllKeeps(c1.(link := Disconnected));
      } else {
        LinkKeeps(c1, Reconnecting, c1.ws, c1.closing, c1.nextSocket);
      }
    }
  }

  // ------------------------------------------------------------------ reconnected

  lemma {:induction false} SendAllKeeps(c: Client, rs: seq<ReqId>, held: set<ReqId>)
    requires ClientInv(c, held) && NoRepeats(rs) && forall r :: r in rs ==> r in held
    ensures ClientInv(SendAll(c, rs), held - (set r | r in rs))
    decreases |rs|
  {
    hide ClientInv, Send;
    if rs == [] {
      assert held - (set r | r in rs) == held;
    } else {
      var n := |rs| - 1;
      var r, front := rs[n], rs[..n];
      assert forall k :: k in front ==> k in rs;
      SendAllKeeps(c, front, held);
      var held1 := held - (set k | k in front);
      assert r !in front;
      HeldIsUnsent(SendAll(c, front), r, held1);
      SendKeeps(SendAll(c, front), r, held1);
      assert rs == front + [r];
      assert held - (set k | k in rs) == held1 - {r};
    }
  }

  lemma TakeQueue(c: Client)
    requires ClientInv(c, {})
    ensures ClientInv(c.(link := Connected, queue := []), set r | r in c.queue) && NoRepeats(c.queue)
  {
    var c' := c.(link := Connected, queue := []);
    assert forall k :: Open(c', k) <==> Open(c, k);
    assert forall k :: Unsent(c', k) <==> Unsent(c, k);
    assert forall k :: InFlight(c', k) <==> InFlight(c, k);
    forall k ensures RequestOk(c', k) { assert RequestOk(c, k); }
  }

  lemma ReadyKeeps(c: Client)
    requires ClientInv(c, {})
    ensures ClientInv(AfterConnect(c), {})
  {
    hide ClientInv, SendAll;
    var held := set r | r in c.queue;
    TakeQueue(c);
    SendAllKeeps(c.(link := Connected, queue := []), c.queue, held);
    assert held - held == {};
  }

  // ------------------------------------------------------------------ timer

  lemma {:induction false} WithoutOk(s: seq<ReqId>, r: ReqId)
    requires NoRepeats(s)
    ensures NoRepeats(Without(s, r))
    ensures forall k :: k in Without(s, r) <==> k in s && k != r
  {
    if s != [] {
      var n := |s| - 1;
      assert s == s[..n] + [s[n]];
      WithoutOk(s[..n], r);
      assert s[n] !in s[..n];
    }
  }

  lemma ExpirePlaces(c: Client, r: ReqId)
    requires Places(c, {}) && Open(c, r)
    ensures Places(Timeout(c, r), {})
  {
    var c' := Timeout(c, r);
    WithoutOk(c.queue, r);
    assert forall k :: Open(c', k) <==> Open(c, k) && k != r;
    forall k ensures InFlight(c', k) <==> InFlight(c, k) && k != r {
      if InFlight(c, k) && k != r {
        var n :| n in c.inFlight && c.inFlight[n] == k;
        assert n in c'.inFlight && c'.inFlight[n] == k;
      }
    }
  }

  lemma ExpireKeeps(c: Client, r: ReqId)
    requires ClientInv(c, {}) && Open(c, r)
    ensures ClientInv(Timeout(c, r), {})
  {
    hide Places;
    ExpirePlaces(c, r);
    forall k ensures RequestOk(Timeout(c, r), k) { assert RequestOk(c, k); assert RequestOk(c, r); }
  }

  // ------------------------------------------------------------------ every handler, every run

  lemma ActKeeps(c: Client, a: Action, reconnect: bool)
    requires ClientInv(c, {}) && CanAct(c, a)
    ensures ClientInv(Act(c, a, reconnect), {})
  {
    hide ClientInv, Request, OnReply, OnClose, AfterConnect, FailAll, Timeout;
    match a
    case Call(ask) => RequestKeeps(c, ask);
    case Reply(ws, m, ok) => ReplyKeeps(c, ws, m, ok);
    case Lost(ws) => CloseKeeps(c, ws, reconnect);
    case Connect => LinkKeeps(c, Connecting, c.ws, false, c.nextSocket);
    case Opened => LinkKeeps(c, c.link, Some(c.nextSocket), c.closing, c.nextSocket + 1);
    case Ready => ReadyKeeps(c);
    case GiveUp =>
      LinkKeeps(c, Disconnected, c.ws, c.closing, c.nextSocket);
      FailAllKeeps(c.(link := Disconnected));
    case Expire(r) => ExpireKeeps(c, r);
    case Disconnect =>
      LinkKeeps(c, Disconnected, None, true, c.nextSocket);
      FailAllKeeps(c.(closing := true, ws := None, link := Disconnected));
  }

  lemma {:induction false} ActAllKeeps(c: Client, actions: seq<Action>, reconnect: bool)
    requires ClientInv(c, {}) && Acts(c, actions, reconnect)
    ensures ClientInv(ActAll(c, actions, reconnect), {})
    decreases |actions|
  {
    hide ClientInv, Act, CanAct;
    if actions != [] {
      ActKeeps(c, actions[0], reconnect);
      ActAllKeeps(Act(c, actions[0], reconnect), actions[1..], reconnect);
    }
  }

  lemma NewClientInv()
    ensures ClientInv(NewClient(), {})
  {
  }

  /** How often a request is in the queue. */
  function QueueCount(s: seq<ReqId>, r: ReqId): nat {
    multiset(s)[r]
  }

  lemma {:induction false} CountIsOne(s: seq<ReqId>, r: ReqId)
    requires NoRepeats(s)
    ensures QueueCount(s, r) == if r in s then 1 else 0
  {
    if s != [] {
      var n := |s| - 1;
      assert s == s[..n] + [s[n]];
      CountIsOne(s[..n], r);
      assert s[n] !in s[..n];
    }
  }

  /** After any handlers: an unsettled request is once in the queue or under one message number in
      flight and not both; a settled one is in neither. */
  lemma ExactlyOnePlace(actions: seq<Action>, reconnect: bool, r: ReqId)
    requires Acts(NewClient(), actions, reconnect)
    ensures
      var c := ActAll(NewClient(), actions, reconnect);
      var flights := set m | m in c.inFlight && c.inFlight[m] == r;
      QueueCount(c.queue, r) + |flights| == if Open(c, r) then 1 else 0
  {
    hide ActAll, Acts;
    NewClientInv();
    ActAllKeeps(NewClient(), actions, reconnect);
    var c := ActAll(NewClient(), actions, reconnect);
    CountIsOne(c.queue, r);
    FlightCount(c, r);
  }

  lemma FlightCount(c: Client, r: ReqId)
    requires FlightOk(c)
    ensures |set m | m in c.inFlight && c.inFlight[m] == r| == if InFlight(c, r) then 1 else 0
  {
    var flights := set m | m in c.inFlight && c.inFlight[m] == r;
    if InFlight(c, r) {
      var m :| m in c.inFlight && c.inFlight[m] == r;
      assert flights == {m};
    } else {
      assert flights == {};
    }
  }

  /** Every message of a request carries the key it was made with, however often it is sent again. */
  lemma KeysAreStable(actions: seq<Action>, reconnect: bool, i: nat)
    requires Acts(NewClient(), actions, reconnect) && i < |ActAll(NewClient(), actions, reconnect).wire|
    ensures
      var c := ActAll(NewClient(), actions, reconnect);
      var f := c.wire[i];
      f.req in c.pendings && f.key == c.pendings[f.req].ask.key && (c.pendings[f.req].ask.isPrint ==> f.key.Some?)
  {
    hide ActAll, Acts;
    NewClientInv();
    ActAllKeeps(NewClient(), actions, reconnect);
    var c := ActAll(NewClient(), actions, reconnect);
    assert RequestOk(c, c.wire[i].req);
  }

  /** A rejection with outcome NOT_PRINTED is right, that is, nothing of the request was ever given to
      a socket, iff no lost socket put the request back; UNKNOWN is only said of sent requests. */
  lemma NotPrintedIsRightIff(actions: seq<Action>, reconnect: bool, r: ReqId)
    requires Acts(NewClient(), actions, reconnect)
    ensures
      var c := ActAll(NewClient(), actions, reconnect);
      && (r in c.settled && c.settled[r] == Rejected(NotPrinted) ==> (!OnWire(c.wire, r) <==> r !in c.requeued))
      && (r in c.settled && c.settled[r] == Rejected(Unknown) ==> OnWire(c.wire, r))
  {
    hide ActAll, Acts;
    NewClientInv();
    ActAllKeeps(NewClient(), actions, reconnect);
    assert RequestOk(ActAll(NewClient(), actions, reconnect), r);
  }

  /** Some sequence of handlers leads a new client to `c`. */
  ghost predicate Reaches(c: Client, reconnect: bool) {
    exists actions :: Acts(NewClient(), actions, reconnect) && ActAll(NewClient(), actions, reconnect) == c
  }

  lemma {:induction false} ActsExtend(c: Client, actions: seq<Action>, a: Action, reconnect: bool)
    requires Acts(c, actions, reconnect) && CanAct(ActAll(c, actions, reconnect), a)
    ensures Acts(c, actions + [a], reconnect)
    ensures ActAll(c, actions + [a], reconnect) == Act(ActAll(c, actions, reconnect), a, reconnect)
    decreases |actions|
  {
    hide Act, CanAct;
    if actions == [] {
      assert actions + [a] == [a] && [a][1..] == [];
    } else {
      assert (actions + [a])[1..] == actions[1..] + [a];
      ActsExtend(Act(c, actions[0], reconnect), actions[1..], a, reconnect);
    }
  }

  lemma ReachesNext(c: Client, a: Action, reconnect: bool)
    requires Reaches(c, reconnect) && CanAct(c, a)
    ensures Reaches(Act(c, a, reconnect), reconnect)
  {
    hide Act, CanAct;
    var actions :| Acts(NewClient(), actions, reconnect) && ActAll(NewClient(), actions, reconnect) == c;
    ActsExtend(NewClient(), actions, a, reconnect);
  }

  /** The label can be wrong: sent, socket lost, put back, timed out before the reconnect. */
  lemma LostThenTimedOut(key: Key)
    ensures exists c: Client :: Reaches(c, true) && 0 in c.settled && c.settled[0] == Rejected(NotPrinted) && OnWire(c.wire, 0)
  {
    hide Reaches;
    var c := SentOnce(key);
    var c1 := Act(c, Lost(0), true);
    LostOnce(c, c.pendings[0].ask);
    ReachesNext(c, Lost(0), true);
    var c2 := Act(c1, Expire(0), true);
    ReachesNext(c1, Expire(0), true);
    assert c2.wire[0].req == 0;
  }

  lemma SentOnce(key: Key) returns (c: Client)
    ensures Reaches(c, true) && c.ws == Some(0) && !c.closing && c.queue == [] && c.settled == map[]
    ensures c.counter == 1 && c.inFlight == map[1 := 0] && c.wire == [Frame(0, 1, 0, Some(key))]
    ensures c.pendings == map[0 := Pending(Ask(Some(key), true, true), Some(0))]
  {
    hide Reaches;
    var ask := Ask(Some(key), true, true);
    var c0 := NewClient();
    assert Reaches(c0, true) by { NewReaches(); }
    ReachesNext(c0, Connect, true);
    var c1 := c0.(link := Connecting);
    ReachesNext(c1, Opened, true);
    var c2 := c1.(ws := Some(0), nextSocket := 1);
    ReachesNext(c2, Ready, true);
    var c3 := c2.(link := Connected);
    assert Act(c2, Ready, true) == c3;
    ReachesNext(c3, Call(ask), true);
    c := Act(c3, Call(ask), true);
    assert c.pendings == map[0 := Pending(ask, Some(0))];
  }

  lemma NewReaches()
    ensures Reaches(NewClient(), true)
  {
    assert Acts(NewClient(), [], true) && ActAll(NewClient(), [], true) == NewClient();
  }

  lemma LostOnce(c: Client, ask: Ask)
    requires c.inFlight == map[1 := 0] && c.counter == 1 && c.pendings == map[0 := Pending(ask, Some(0))]
    requires c.ws == Some(0) && !c.closing && ask.resendable && c.settled == map[] && c.queue == []
    ensures
      var c' := OnClose(c, 0, true);
      c'.pendings == map[0 := Pending(ask, None)] && c'.settled == map[] && c'.wire == c.wire
  {
    var c0 := c.(ws := None);
    assert RecoverAll(c0, 0, 0, true) == c0;
    assert RecoverAll(c0, 0, 1, true) == c0;
    assert RecoverAll(c0, 0, 2, true) == Recover(c0, 0, 1, true);
    assert c.pendings[0 := Pending(ask, None)] == map[0 := Pending(ask, None)];
  }
}
