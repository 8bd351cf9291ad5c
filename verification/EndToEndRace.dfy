/**
 A run of the whole system in which the client is told NOT_PRINTED of a print call that the
 agent has submitted: the reply is lost with its socket, and the request times out in the queue.
 */
module EndToEndRace {
  import opened Wrappers
  import opened Jobs
  import opened EndToEnd
  import EngineModel
  import EngineScenes
  import SdkModel
  import SdkSafety

  function Me(): ClientId { EngineScenes.Client() }

  const CONFIG := EngineScenes.TINY

  /** Some events lead the system to `s`. */
  ghost predicate Occurs(s: System) {
    exists events :: Happens(CONFIG, true, Start(), Me(), events) && After(CONFIG, true, Start(), Me(), events) == s
  }

  lemma {:induction false} HappensExtend(s: System, events: seq<Event>, e: Event)
    requires Happens(CONFIG, true, s, Me(), events) && Possible(After(CONFIG, true, s, Me(), events), Me(), e)
    ensures Happens(CONFIG, true, s, Me(), events + [e])
    ensures After(CONFIG, true, s, Me(), events + [e]) == Next(CONFIG, true, After(CONFIG, true, s, Me(), events), Me(), e)
    decreases |events|
  {
    hide Next, Possible;
    if events == [] {
      assert events + [e] == [e] && [e][1..] == [];
    } else {
      assert (events + [e])[1..] == events[1..] + [e];
      HappensExtend(Next(CONFIG, true, s, Me(), events[0]), events[1..], e);
    }
  }

  lemma OccursNext(s: System, e: Event)
    requires Occurs(s) && Possible(s, Me(), e)
    ensures Occurs(Next(CONFIG, true, s, Me(), e))
  {
    hide Next, Possible;
    var events :| Happens(CONFIG, true, Start(), Me(), events) && After(CONFIG, true, Start(), Me(), events) == s;
    HappensExtend(Start(), events, e);
  }

  lemma StartOccurs()
    ensures Occurs(Start())
  {
    assert Happens(CONFIG, true, Start(), Me(), []) && After(CONFIG, true, Start(), Me(), []) == Start();
  }

  lemma {:induction false} ClientRun(s: System, actions: seq<SdkModel.Action>)
    requires Occurs(s) && SdkModel.Acts(s.client, actions, true)
    ensures Occurs(s.(client := SdkModel.ActAll(s.client, actions, true)))
    decreases |actions|
  {
    hide Occurs, SdkModel.Act, SdkModel.CanAct;
    if actions == [] {
      assert s.(client := s.client) == s;
    } else {
      OccursNext(s, AtClient(actions[0]));
      ClientRun(s.(client := SdkModel.Act(s.client, actions[0], true)), actions[1..]);
    }
  }

  lemma {:induction false} EngineRun(s: System, steps: seq<EngineModel.Step>)
    requires Occurs(s) && EngineModel.Runs(CONFIG, s.engine, steps) && EngineScenes.NoInsert(steps)
    ensures Occurs(s.(engine := EngineModel.After(CONFIG, s.engine, steps)))
    decreases |steps|
  {
    hide Occurs, EngineModel.Do, EngineModel.Enabled;
    if steps == [] {
      assert s.(engine := s.engine) == s;
    } else {
      assert !steps[0].SubmitInsert?;
      OccursNext(s, AtEngine(steps[0]));
      EngineRun(s.(engine := EngineModel.Do(CONFIG, s.engine, steps[0])), steps[1..]);
    }
  }

  lemma EngineServes(s: System)
    requires Occurs(s) && s.engine == EngineModel.Init()
    ensures Occurs(s.(engine := EngineModel.Init().(phase := EngineModel.Serving)))
  {
    hide Occurs;
    var e0 := s.engine;
    var e1 := e0.(phase := EngineModel.Reconciling(map[]));
    assert EngineModel.Do(CONFIG, e0, EngineModel.Boot).phase.todo == map[];
    OccursNext(s, AtEngine(EngineModel.Boot));
    OccursNext(s.(engine := e1), AtEngine(EngineModel.Serve));
  }

  /** The print call is on the wire of its first socket. */
  lemma PrintIsSent() returns (c: Client)
    ensures Occurs(System(c, EngineModel.Init(), map[]))
    ensures c.ws == Some(0) && !c.closing && c.queue == [] && c.settled == map[] && c.counter == 1
    ensures c.inFlight == map[1 := 0] && c.wire == [SdkModel.Frame(0, 1, 0, Some(EngineScenes.OrderKey()))]
    ensures c.pendings == map[0 := SdkModel.Pending(SdkModel.Ask(Some(EngineScenes.OrderKey()), true, true), Some(0))]
  {
    hide Occurs;
    c := SdkSafety.SentOnce(EngineScenes.OrderKey());
    var actions :| SdkModel.Acts(SdkModel.NewClient(), actions, true) && SdkModel.ActAll(SdkModel.NewClient(), actions, true) == c;
    StartOccurs();
    ClientRun(Start(), actions);
  }

  lemma PrintIsStored(c: Client)
    requires c.wire == [SdkModel.Frame(0, 1, 0, Some(EngineScenes.OrderKey()))]
    requires Occurs(System(c, EngineModel.Init().(phase := EngineModel.Serving), map[]))
    ensures Occurs(System(c, EngineScenes.InsertedState(), map[0 := 0]))
  {
    hide Occurs, EngineModel.Do, EngineModel.Enabled;
    var s := System(c, EngineModel.Init().(phase := EngineModel.Serving), map[]);
    EngineScenes.Inserts(s.engine);
    var e := Deliver(0, 1, 0);
    assert !EngineModel.KeyStored(s.engine.tables.repo, Me(), EngineScenes.OrderKey());
    assert Submit(s, Me(), e) == EngineModel.SubmitInsert(Me(), Some(EngineScenes.OrderKey()), 1, 0);
    OccursNext(s, e);
  }

  lemma PrintIsSubmitted(c: Client)
    requires Occurs(System(c, EngineScenes.InsertedState(), map[0 := 0]))
    ensures Occurs(System(c, EngineScenes.CallingState(), map[0 := 0]))
  {
    hide Occurs, EngineModel.Runs, EngineModel.After;
    EngineScenes.Calls();
    var steps :|
      EngineScenes.NoInsert(steps) && EngineModel.Runs(CONFIG, EngineScenes.InsertedState(), steps) &&
      EngineModel.After(CONFIG, EngineScenes.InsertedState(), steps) == EngineScenes.CallingState();
    EngineRun(System(c, EngineScenes.InsertedState(), map[0 := 0]), steps);
  }

  /** NOT_PRINTED, and submitted: the label's failure reaches from end to end. */
  lemma NotPrintedButSubmitted()
    ensures exists s: System ::
      Occurs(s) && 0 in s.client.settled && s.client.settled[0] == SdkModel.Rejected(NotPrinted) && SubmissionOf(s, Me(), 0, 0)
  {
    hide Occurs;
    var c := PrintIsSent();
    EngineServes(System(c, EngineModel.Init(), map[]));
    PrintIsStored(c);
    PrintIsSubmitted(c);
    var s := System(c, EngineScenes.CallingState(), map[0 := 0]);
    SdkSafety.LostOnce(c, c.pendings[0].ask);
    var c1 := SdkModel.Act(c, SdkModel.Lost(0), true);
    OccursNext(s, AtClient(SdkModel.Lost(0)));
    var c2 := SdkModel.Act(c1, SdkModel.Expire(0), true);
    OccursNext(s.(client := c1), AtClient(SdkModel.Expire(0)));
    assert SubmissionOf(s.(client := c2), Me(), 0, 0);
  }
}
