/**
 The client on top of the engine: messages on the wire reach `submit` any number of times and
 in any order, while sockets are lost, requests are sent again and the agent crashes.
 */
module EndToEnd {
  import opened Wrappers
  import opened Jobs
  import EngineModel
  import EngineInvariant
  import EngineLifecycle
  import EngineSafety
  import EngineRequests
  import SdkModel
  import SdkSafety

  type Engine = EngineModel.State
  type Client = SdkModel.Client

  /** `origin` records which print call each of the client's jobs comes from. */
  datatype System = System(client: Client, engine: Engine, origin: map<JobId, SdkModel.ReqId>)

  datatype Event =
    | AtClient(action: SdkModel.Action)
    | Deliver(frame: nat, size: nat, now: nat)   // the agent handles one message of a print
    | AtEngine(step: EngineModel.Step)           // everything else, other clients included

  function Start(): System {
    System(SdkModel.NewClient(), EngineModel.Init(), map[])
  }

  /** What `submit` does with the message: the stored job of that key, or a new one. */
  ghost function Submit(s: System, me: ClientId, e: Event): EngineModel.Step
    requires e.Deliver? && e.frame < |s.client.wire| && s.client.wire[e.frame].key.Some?
  {
    var key := s.client.wire[e.frame].key.value;
    if EngineModel.KeyStored(s.engine.tables.repo, me, key) then EngineModel.SubmitExisting(me, key)
    else EngineModel.SubmitInsert(me, Some(key), e.size, e.now)
  }

  ghost predicate Possible(s: System, me: ClientId, e: Event) {
    match e
    case AtClient(a) => SdkModel.CanAct(s.client, a)
    case Deliver(i, _, _) =>
      i < |s.client.wire| && s.client.wire[i].key.Some? && EngineModel.Enabled(s.engine, Submit(s, me, e))
    case AtEngine(t) => EngineModel.Enabled(s.engine, t) && (t.SubmitInsert? ==> t.client != me)
  }

  ghost function Next(cfg: EngineModel.Config, reconnect: bool, s: System, me: ClientId, e: Event): System
    requires Possible(s, me, e)
  {
    match e
    case AtClient(a) => s.(client := SdkModel.Act(s.client, a, reconnect))
    case Deliver(i, _, _) =>
      var t := Submit(s, me, e);
      var engine := EngineModel.Do(cfg, s.engine, t);
      if t.SubmitInsert? then s.(engine := engine, origin := s.origin[s.engine.flow.nextId := s.client.wire[i].req])
      else s.(engine := engine)
    case AtEngine(t) => s.(engine := EngineModel.Do(cfg, s.engine, t))
  }

  ghost predicate Happens(cfg: EngineModel.Config, reconnect: bool, s: System, me: ClientId, events: seq<Event>)
    decreases |events|
  {
    events == [] || (Possible(s, me, events[0]) && Happens(cfg, reconnect, Next(cfg, reconnect, s, me, events[0]), me, events[1..]))
  }

  ghost function After(cfg: EngineModel.Config, reconnect: bool, s: System, me: ClientId, events: seq<Event>): System
    requires Happens(cfg, reconnect, s, me, events)
    decreases |events|
  {
    if events == [] then s else After(cfg, reconnect, Next(cfg, reconnect, s, me, events[0]), me, events[1..])
  }

  // ------------------------------------------------------------------ the client only adds

  ghost predicate Grows(c: Client, d: Client) {
    && (forall r :: r in c.pendings ==> r in d.pendings && d.pendings[r].ask == c.pendings[r].ask)
    && |c.wire| <= |d.wire| && d.wire[..|c.wire|] == c.wire
  }

  lemma GrowsTrans(a: Client, b: Client, c: Client)
    requires Grows(a, b) && Grows(b, c)
    ensures Grows(a, c)
  {
    assert a.wire == b.wire[..|a.wire|] == c.wire[..|b.wire|][..|a.wire|] == c.wire[..|a.wire|];
  }

  lemma {:induction false} RecoverAllGrows(c: Client, ws: SdkModel.SocketId, n: nat, reconnect: bool)
    ensures Grows(c, SdkModel.RecoverAll(c, ws, n, reconnect))
  {
    if n > 0 {
      RecoverAllGrows(c, ws, n - 1, reconnect);
      GrowsTrans(c, SdkModel.RecoverAll(c, ws, n - 1, reconnect), SdkModel.RecoverAll(c, ws, n, reconnect));
    }
  }

  lemma {:induction false} SendAllGrows(c: Client, rs: seq<SdkModel.ReqId>)
    ensures Grows(c, SdkModel.SendAll(c, rs))
    decreases |rs|
  {
    if rs != [] {
      var front := SdkModel.SendAll(c, rs[..|rs| - 1]);
      SendAllGrows(c, rs[..|rs| - 1]);
      GrowsTrans(c, front, SdkModel.SendAll(c, rs));
    }
  }

  lemma ActGrows(c: Client, a: SdkModel.Action, reconnect: bool)
    requires SdkModel.CanAct(c, a) && SdkSafety.ClientInv(c, {})
    ensures Grows(c, SdkModel.Act(c, a, reconnect))
  {
    hide SdkSafety.ClientInv;
    match a
    case Call(ask) => assert c.nextReq !in c.pendings by { NextIsFresh(c); }
    case Lost(ws) => RecoverAllGrows(c.(ws := None), ws, c.counter + 1, reconnect);
    case Ready => SendAllGrows(c.(link := SdkModel.Connected, queue := []), c.queue);
    case _ =>
  }

  lemma NextIsFresh(c: Client)
    requires SdkSafety.ClientInv(c, {})
    ensures c.nextReq !in c.pendings
  {
    assert SdkSafety.RequestOk(c, c.nextReq);
  }

  // ------------------------------------------------------------------ jobs and their print calls

  ghost predicate JobLinked(s: System, me: ClientId, j: JobId) {
    j in s.engine.flow.requests && s.engine.flow.requests[j].client == me ==>
      && j in s.origin && s.origin[j] in s.client.pendings
      && s.engine.flow.requests[j].key.Some?
      && s.engine.flow.requests[j].key == s.client.pendings[s.origin[j]].ask.key
      && SdkSafety.OnWire(s.client.wire, s.origin[j])
  }

  ghost predicate SystemInv(cfg: EngineModel.Config, s: System, me: ClientId) {
    && EngineInvariant.Inv(cfg, s.engine)
    && SdkSafety.ClientInv(s.client, {})
    && forall j :: JobLinked(s, me, j)
  }

  lemma WireStays(c: Client, d: Client, r: SdkModel.ReqId)
    requires Grows(c, d) && SdkSafety.OnWire(c.wire, r)
    ensures SdkSafety.OnWire(d.wire, r)
  {
    var i :| 0 <= i < |c.wire| && c.wire[i].req == r;
    assert d.wire[i] == d.wire[..|c.wire|][i];
  }

  lemma AtClientKeeps(cfg: EngineModel.Config, reconnect: bool, s: System, me: ClientId, a: SdkModel.Action)
    requires SystemInv(cfg, s, me) && Possible(s, me, AtClient(a))
    ensures SystemInv(cfg, Next(cfg, reconnect, s, me, AtClient(a)), me)
  {
    hide EngineInvariant.Inv, SdkSafety.ClientInv, SdkModel.Act, SdkModel.CanAct, SdkSafety.OnWire;
    SdkSafety.ActKeeps(s.client, a, reconnect);
    ActGrows(s.client, a, reconnect);
    var s' := Next(cfg, reconnect, s, me, AtClient(a));
    forall j ensures JobLinked(s', me, j) {
      assert JobLinked(s, me, j);
      if j in s.origin && SdkSafety.OnWire(s.client.wire, s.origin[j]) { WireStays(s.client, s'.client, s.origin[j]); }
    }
  }

  lemma AtEngineKeeps(cfg: EngineModel.Config, reconnect: bool, s: System, me: ClientId, t: EngineModel.Step)
    requires EngineModel.ValidConfig(cfg) && SystemInv(cfg, s, me) && Possible(s, me, AtEngine(t))
    ensures SystemInv(cfg, Next(cfg, reconnect, s, me, AtEngine(t)), me)
  {
    hide EngineInvariant.Inv, SdkSafety.ClientInv, EngineModel.Do, EngineModel.Enabled, SdkSafety.OnWire;
    EngineLifecycle.StepKeepsInv(cfg, s.engine, t);
    var s' := Next(cfg, reconnect, s, me, AtEngine(t));
    if t.SubmitInsert? { InsertRequest(cfg, s.engine, t); }
    forall j ensures JobLinked(s', me, j) {
      assert JobLinked(s, me, j);
      if !t.SubmitInsert? { EngineRequests.RequestsStay(cfg, s.engine, t, j); }
    }
  }

  lemma InsertRequest(cfg: EngineModel.Config, s: Engine, t: EngineModel.Step)
    requires EngineModel.Enabled(s, t) && t.SubmitInsert?
    ensures EngineModel.Do(cfg, s, t).flow.requests ==
            s.flow.requests[s.flow.nextId := EngineModel.Request(t.client, t.key, t.size)]
  {
  }

  lemma DeliverKeeps(cfg: EngineModel.Config, reconnect: bool, s: System, me: ClientId, e: Event)
    requires EngineModel.ValidConfig(cfg) && SystemInv(cfg, s, me) && e.Deliver? && Possible(s, me, e)
    ensures SystemInv(cfg, Next(cfg, reconnect, s, me, e), me)
  {
    hide EngineInvariant.Inv, SdkSafety.ClientInv, EngineModel.Do, EngineModel.Enabled;
    var t := Submit(s, me, e);
    var f := s.client.wire[e.frame];
    EngineLifecycle.StepKeepsInv(cfg, s.engine, t);
    FrameFacts(s.client, e.frame);
    var s' := Next(cfg, reconnect, s, me, e);
    if t.SubmitInsert? { InsertRequest(cfg, s.engine, t); }
    forall j ensures JobLinked(s', me, j) {
      assert JobLinked(s, me, j);
      if !t.SubmitInsert? { EngineRequests.RequestsStay(cfg, s.engine, t, j); }
    }
  }

  lemma FrameFacts(c: Client, i: nat)
    requires SdkSafety.ClientInv(c, {}) && i < |c.wire|
    ensures c.wire[i].req in c.pendings && c.wire[i].key == c.pendings[c.wire[i].req].ask.key
    ensures SdkSafety.OnWire(c.wire, c.wire[i].req)
  {
    assert SdkSafety.FrameOk(c, c.wire[i]);
  }

  lemma {:induction false} EventsKeep(cfg: EngineModel.Config, reconnect: bool, s: System, me: ClientId, events: seq<Event>)
    requires EngineModel.ValidConfig(cfg) && SystemInv(cfg, s, me) && Happens(cfg, reconnect, s, me, events)
    ensures SystemInv(cfg, After(cfg, reconnect, s, me, events), me)
    decreases |events|
  {
    hide SystemInv, Next, Possible;
    if events != [] {
      match events[0] {
        case AtClient(a) => AtClientKeeps(cfg, reconnect, s, me, a);
        case Deliver(_, _, _) => DeliverKeeps(cfg, reconnect, s, me, events[0]);
        case AtEngine(t) => AtEngineKeeps(cfg, reconnect, s, me, t);
      }
      EventsKeep(cfg, reconnect, Next(cfg, reconnect, s, me, events[0]), me, events[1..]);
    }
  }

  lemma StartInv(cfg: EngineModel.Config, me: ClientId)
    ensures SystemInv(cfg, Start(), me)
  {
    hide EngineInvariant.Inv, SdkSafety.ClientInv;
    EngineInvariant.InitInv(cfg);
    SdkSafety.NewClientInv();
  }

  // ------------------------------------------------------------------ theorems

  /** The submission `i` was made for print call `r` of this client. */
  ghost predicate SubmissionOf(s: System, me: ClientId, i: nat, r: SdkModel.ReqId) {
    && i < |s.engine.trace.log| && s.engine.trace.log[i].client == me
    && s.engine.trace.log[i].job in s.origin && s.origin[s.engine.trace.log[i].job] == r
  }

  /**
   For any interleaving of lost sockets, re-queues, resends, duplicated messages and agent
   crashes, one print call leads to at most one submission, unless its key's record was purged.
   */
  lemma OnePrintAtMostOneSubmission(cfg: EngineModel.Config, reconnect: bool, me: ClientId, events: seq<Event>,
                                    r: SdkModel.ReqId, i: nat, k: nat)
    requires EngineModel.ValidConfig(cfg) && Happens(cfg, reconnect, Start(), me, events)
    requires
      var s := After(cfg, reconnect, Start(), me, events);
      SubmissionOf(s, me, i, r) && SubmissionOf(s, me, k, r) && i < k
    ensures
      var s := After(cfg, reconnect, Start(), me, events);
      && r in s.client.pendings && s.client.pendings[r].ask.key.Some?
      && (me, s.client.pendings[r].ask.key.value) in s.engine.tables.purgedKeys
  {
    hide After, Happens, EngineInvariant.Inv, SdkSafety.ClientInv;
    StartInv(cfg, me);
    EventsKeep(cfg, reconnect, Start(), me, events);
    var s := After(cfg, reconnect, Start(), me, events);
    var a, b := s.engine.trace.log[i], s.engine.trace.log[k];
    LogFacts(cfg, s.engine, i);
    LogFacts(cfg, s.engine, k);
    assert JobLinked(s, me, a.job) && JobLinked(s, me, b.job);
    DifferentJobs(cfg, s.engine, i, k);
    EngineSafety.StoredKeysDiffer(cfg, s.engine, a.job, b.job);
    PurgedKey(cfg, s.engine, a.job);
    PurgedKey(cfg, s.engine, b.job);
  }

  lemma LogFacts(cfg: EngineModel.Config, s: Engine, i: nat)
    requires EngineInvariant.Inv(cfg, s) && i < |s.trace.log|
    ensures s.trace.log[i].job in s.flow.requests && s.trace.log[i].client == s.flow.requests[s.trace.log[i].job].client
  {
    assert EngineInvariant.EntryOk(s.flow.place, s.flow.requests, s.trace.log[i]);
  }

  lemma DifferentJobs(cfg: EngineModel.Config, s: Engine, i: nat, k: nat)
    requires EngineInvariant.Inv(cfg, s) && i < k < |s.trace.log|
    ensures s.trace.log[i].job != s.trace.log[k].job
  {
  }

  lemma PurgedKey(cfg: EngineModel.Config, s: Engine, j: JobId)
    requires EngineInvariant.Inv(cfg, s) && j in s.flow.requests && s.flow.requests[j].key.Some?
    ensures j in s.tables.repo || (s.flow.requests[j].client, s.flow.requests[j].key.value) in s.tables.purgedKeys
  {
  }

  /** A print call rejected with NOT_PRINTED whose request was never put back is never submitted. */
  lemma NotPrintedEndToEnd(cfg: EngineModel.Config, reconnect: bool, me: ClientId, events: seq<Event>, r: SdkModel.ReqId, i: nat)
    requires EngineModel.ValidConfig(cfg) && Happens(cfg, reconnect, Start(), me, events)
    requires
      var s := After(cfg, reconnect, Start(), me, events);
      r in s.client.settled && s.client.settled[r] == SdkModel.Rejected(NotPrinted) && r !in s.client.requeued
    ensures !SubmissionOf(After(cfg, reconnect, Start(), me, events), me, i, r)
  {
    hide After, Happens, EngineInvariant.Inv;
    StartInv(cfg, me);
    EventsKeep(cfg, reconnect, Start(), me, events);
    var s := After(cfg, reconnect, Start(), me, events);
    assert SdkSafety.RequestOk(s.client, r);
    SubmittedWasSent(cfg, s, me, i, r);
  }

  lemma SubmittedWasSent(cfg: EngineModel.Config, s: System, me: ClientId, i: nat, r: SdkModel.ReqId)
    requires SystemInv(cfg, s, me)
    ensures SubmissionOf(s, me, i, r) ==> SdkSafety.OnWire(s.client.wire, r)
  {
    hide EngineInvariant.Inv, SdkSafety.ClientInv, SdkSafety.OnWire;
    if SubmissionOf(s, me, i, r) {
      LogFacts(cfg, s.engine, i);
      assert JobLinked(s, me, s.engine.trace.log[i].job);
    }
  }
}
