/**
 `PrintClient` as the source writes it: handlers that change the object's fields and loop over
 its queue and in-flight map, each proved against the function of `SdkModel` it stands for.
 */
module SdkCode {
  import opened Wrappers
  import opened Jobs
  import opened SdkModel
  import opened SdkSafety
  import opened SdkReplies

  /** `#failAll` half way: everything that waited, except `rest`, has its verdict. */
  ghost predicate Rejecting(c: Client, settled: map<ReqId, Verdict>, rest: set<ReqId>) {
    && (forall r :: r in settled <==> r in c.settled || (r in Waiting(c) && r !in rest))
    && (forall r :: r in settled ==>
          settled[r] == if r in Waiting(c) && r !in rest && r in c.pendings then Label(c.pendings[r]) else
                        if r in c.settled then c.settled[r] else settled[r])
  }

  lemma AllOpen(c: Client)
    requires ClientInv(c, {})
    ensures Waiting(c) == (set r | r in c.queue) + c.inFlight.Values
    ensures Waiting(c) <= c.pendings.Keys && forall r :: r in Waiting(c) ==> r !in c.settled
  {
    forall r | r in Waiting(c) ensures r in c.pendings && r !in c.settled { WaitingIsOpen(c, r); }
  }

  lemma FailStarts(c: Client)
    ensures Rejecting(c, c.settled, Waiting(c))
  {
  }

  lemma FailContinues(c: Client, settled: map<ReqId, Verdict>, rest: set<ReqId>, r: ReqId)
    requires Rejecting(c, settled, rest) && r in rest && r in c.pendings && rest <= Waiting(c)
    ensures Rejecting(c, settled[r := Label(c.pendings[r])], rest - {r})
  {
  }

  lemma FailEnds(c: Client, settled: map<ReqId, Verdict>)
    requires Rejecting(c, settled, {}) && Waiting(c) <= c.pendings.Keys
    ensures settled == FailAll(c).settled && FailAll(c) == c.(queue := [], inFlight := map[], settled := settled)
  {
    assert settled == FailAll(c).settled;
  }

  /** The loop of `#failAll`: every request of `waiting` is rejected with its label. */
  method RejectAll(ghost c: Client, settled: map<ReqId, Verdict>, pendings: map<ReqId, Pending>, waiting: set<ReqId>)
    returns (verdicts: map<ReqId, Verdict>)
    requires pendings == c.pendings && waiting <= Waiting(c) && waiting <= c.pendings.Keys && Rejecting(c, settled, waiting)
    ensures Rejecting(c, verdicts, {})
  {
    hide Rejecting, Waiting;
    var rest := waiting;
    verdicts := settled;
    while rest != {}
      invariant rest <= waiting && Rejecting(c, verdicts, rest)
      decreases |rest|
    {
      var r :| r in rest;
      FailContinues(c, verdicts, rest, r);
      verdicts := verdicts[r := Label(pendings[r])];
      rest := rest - {r};
    }
  }

  class PrintClient {
    const reconnect: bool
    var link: Link
    var ws: Option<SocketId>
    var closing: bool
    var counter: MsgId
    var queue: seq<ReqId>
    var inFlight: map<MsgId, ReqId>
    var pendings: map<ReqId, Pending>
    var settled: map<ReqId, Verdict>
    var nextReq: ReqId
    var nextSocket: SocketId
    ghost var wire: seq<Frame>
    ghost var requeued: set<ReqId>

    ghost function View(): Client
      reads this
    {
      Client(link, ws, closing, counter, queue, inFlight, pendings, settled, wire, requeued, nextReq, nextSocket)
    }

    ghost predicate Valid()
      reads this
    {
      ClientInv(View(), {})
    }

    constructor (reconnect: bool)
      ensures Valid() && View() == NewClient() && this.reconnect == reconnect
    {
      this.reconnect := reconnect;
      link, ws, closing, counter := Disconnected, None, false, 0;
      queue, inFlight, pendings, settled := [], map[], map[], map[];
      nextReq, nextSocket, wire, requeued := 0, 0, [], {};
      new;
      NewClientInv();
    }

    /** `#send`. */
    method SendPending(r: ReqId)
      requires r in pendings
      modifies this
      ensures View() == Send(old(View()), r)
    {
      if ws.None? {
        queue := queue + [r];
        return;
      }
      counter := counter + 1;
      wire := wire + [Frame(ws.value, counter, r, pendings[r].ask.key)];
      pendings := pendings[r := pendings[r].(socket := ws)];
      inFlight := inFlight[counter := r];
    }

    /** `#request`. */
    method MakeRequest(ask: Ask) returns (r: ReqId)
      requires Valid() && Acceptable(ask)
      modifies this
      ensures Valid() && View() == Request(old(View()), ask) && r == old(nextReq)
    {
      hide ClientInv;
      RequestKeeps(View(), ask);
      r := nextReq;
      nextReq := nextReq + 1;
      pendings := pendings[r := Pending(ask, None)];
      if link == Disconnected {
        settled := settled[r := Label(pendings[r])];
      } else if link == Connected && ws.Some? {
        SendPending(r);
      } else {
        queue := queue + [r];
      }
    }

    /** `#onMessage`: a reply from the socket on which its message is in flight settles the request,
        with success iff the reply says so; any other reply changes nothing. */
    method OnMessage(socket: SocketId, m: MsgId, ok: bool)
      requires Valid()
      modifies this
      ensures Valid() && View() == OnReply(old(View()), socket, m, ok)
      ensures m in old(inFlight) && old(inFlight[m]) in old(pendings) && old(pendings[inFlight[m]].socket) == Some(socket) ==>
        && inFlight == old(inFlight) - {m} && queue == old(queue) && pendings == old(pendings)
        && settled.Keys == old(settled).Keys + {old(inFlight[m])}
        && (settled[old(inFlight[m])] == Resolved <==> ok) && (settled[old(inFlight[m])] == Refused <==> !ok)
        && forall r :: r in old(settled) && r != old(inFlight[m]) ==> settled[r] == old(settled[r])
      ensures !(m in old(inFlight) && old(inFlight[m]) in old(pendings) && old(pendings[inFlight[m]].socket) == Some(socket)) ==>
        View() == old(View())
    {
      hide ClientInv;
      ReplyKeeps(View(), socket, m, ok);
      if m !in inFlight { return; }
      var r := inFlight[m];
      if r !in pendings || pendings[r].socket != Some(socket) { return; }
      inFlight := inFlight - {m};
      settled := settled[r := if ok then Resolved else Refused];
    }

    /** One turn of the loop in `#onClose`. */
    method RecoverOne(socket: SocketId, m: MsgId)
      modifies this
      ensures View() == Recover(old(View()), socket, m, reconnect)
    {
      if m !in inFlight { return; }
      var r := inFlight[m];
      if r !in pendings || pendings[r].socket != Some(socket) { return; }
      var p := pendings[r];
      inFlight := inFlight - {m};
      pendings := pendings[r := p.(socket := None)];
      if p.ask.resendable && !closing && reconnect {
        queue := queue + [r];
        requeued := requeued + {r};
      } else {
        settled := settled[r := Rejected(if p.ask.isPrint then Unknown else Unstated)];
      }
    }

    /** `#onClose`. */
    method OnSocketClose(socket: SocketId)
      requires Valid()
      modifies this
      ensures Valid() && View() == OnClose(old(View()), socket, reconnect)
    {
      hide ClientInv, FailAll, Recover;
      CloseKeeps(View(), socket, reconnect);
      if ws != Some(socket) { return; }
      ws := None;
      ghost var before := View();
      LinkKeeps(old(View()), link, None, closing, nextSocket);
      RecoverAllKeeps(before, socket, counter + 1, reconnect);
      var n := counter + 1;
      for m := 0 to n
        invariant View() == RecoverAll(before, socket, m, reconnect)
      {
        RecoverOne(socket, m);
      }
      if closing || !reconnect {
        link := Disconnected;
        LinkKeeps(RecoverAll(before, socket, n, reconnect), link, ws, closing, nextSocket);
        FailEverything();
      } else {
        link := Reconnecting;
      }
    }

    /** `#failAll`. */
    method FailEverything()
      requires Valid()
      modifies this
      ensures Valid() && View() == FailAll(old(View()))
    {
      hide ClientInv, FailAll, Rejecting, Waiting;
      ghost var c := View();
      FailAllKeeps(c);
      AllOpen(c);
      FailStarts(c);
      var rest := (set r | r in queue) + inFlight.Values;
      queue := [];
      inFlight := map[];
      settled := RejectAll(c, settled, pendings, rest);
      FailEnds(c, settled);
    }

    /** `#afterConnect`; `ReconnectSendsTheQueue` says what goes out and in which order. */
    method OnConnected()
      requires Valid()
      modifies this
      ensures Valid() && View() == AfterConnect(old(View()))
    {
      hide ClientInv;
      ReadyKeeps(View());
      link := Connected;
      var queued := queue;
      queue := [];
      ghost var c := View();
      for i := 0 to |queued|
        invariant View() == SendAll(c, queued[..i])
      {
        assert queued[..i + 1][..i] == queued[..i];
        if queued[i] in pendings { SendPending(queued[i]); }
      }
      assert queued[..|queued|] == queued;
    }

    /** The timer callback of `#request`. */
    method OnTimer(r: ReqId)
      requires Valid() && r in pendings && r !in settled
      modifies this
      ensures Valid() && View() == Timeout(old(View()), r)
    {
      ExpireKeeps(View(), r);
      var kept: seq<ReqId> := [];
      for i := 0 to |queue|
        invariant View() == old(View()) && kept == Without(queue[..i], r)
      {
        assert queue[..i + 1][..i] == queue[..i];
        if queue[i] != r { kept := kept + [queue[i]]; }
      }
      assert queue[..|queue|] == queue;
      queue := kept;
      inFlight := map m | m in inFlight && inFlight[m] != r :: inFlight[m];
      settled := settled[r := Label(pendings[r])];
    }

    /** `disconnect`. */
    method Close()
      requires Valid()
      modifies this
      ensures Valid() && View() == Act(old(View()), Disconnect, reconnect)
    {
      LinkKeeps(View(), Disconnected, None, true, nextSocket);
      closing, ws, link := true, None, Disconnected;
      FailEverything();
    }
  }
}
