/** The steps of a printer's worker and of the provider calls it makes keep the invariant. */
module EngineWorker {
  import opened Wrappers
  import opened Jobs
  import opened EngineModel
  import opened EngineInvariant
  import opened EngineTokens
  import opened EngineRecords
  import opened EngineBudget
  import opened EngineSubmit

  lemma ReceiveKeepsInv(cfg: Config, s: State, g: Gen)
    requires Inv(cfg, s) && WorkerEnabled(s, WorkerReceive(g))
    ensures Inv(cfg, DoWorker(cfg, s, WorkerReceive(g)))
  {
    hide Tokens, History, Budget, Records, Keys, Watch, Order, Phases;
    var f, q := s.flow, s.flow.queues[g];
    var j, to := q.items[0], Taken(g, q.printer);
    QueueFacts(cfg, f, g);
    JobFacts(cfg, s, j);
    PopKeepsTokens(cfg, f, g, false);
    MoveKeepsHistory(f.place, f.requests, s.trace.log, j, to);
    MoveKeepsBudget(cfg, f.place, f.running, f.nextId, s.bytes, j, to);
    MoveKeepsRecords(s.tables, f.place, f.requests, s.phase, j, to);
    MoveKeepsWatch(s.tables, f.place, f.queues, s.desk, j, to);
    var s' := DoWorker(cfg, s, WorkerReceive(g));
    QueuesKeepWatch(s.tables, s'.flow.place, f.queues, s'.flow.queues, s.desk);
    PopKeepsOrder(f, s.trace, g, Has(j), s'.flow);
    ServingPhases(s');
  }

  /** Taking the head of a channel into the worker's hand leaves the backlog as it was. */
  lemma PopKeepsOrder(f: Flow, h: Trace, g: Gen, w: WorkerPc, f': Flow)
    requires Order(f, h) && g in f.queues && f.queues[g].items != []
    requires (f.queues[g].worker.Idle? && w == Has(f.queues[g].items[0])) || (f.queues[g].worker.Stopped? && w.Stopped?)
    requires f'.queues == f.queues[g := f.queues[g].(items := f.queues[g].items[1..], worker := w)]
    requires f'.senders == f.senders
    ensures Order(f', h)
  {
    hide Order;
    forall p ensures Waiters(f', p) == Waiters(f, p) {
      assert w.Has? ==> Backlog(f'.queues[g]) == Backlog(f.queues[g]);
    }
    QuietKeepsOrder(f, h, f');
  }

  lemma DrainKeepsInv(cfg: Config, s: State, g: Gen)
    requires Inv(cfg, s) && WorkerEnabled(s, WorkerDrain(g))
    ensures Inv(cfg, DoWorker(cfg, s, WorkerDrain(g)))
  {
    hide Tokens, History, Budget, Records, Keys, Watch, Order, Phases;
    var f, q := s.flow, s.flow.queues[g];
    var j := q.items[0];
    QueueFacts(cfg, f, g);
    JobFacts(cfg, s, j);
    PopKeepsTokens(cfg, f, g, true);
    MoveKeepsHistory(f.place, f.requests, s.trace.log, j, Gone);
    ReleaseKeepsBudget(cfg, f.place, f.running, f.nextId, s.bytes, j, Gone, f.running);
    MoveKeepsRecords(s.tables, f.place, f.requests, s.phase, j, Gone);
    MoveKeepsWatch(s.tables, f.place, f.queues, s.desk, j, Gone);
    var s' := DoWorker(cfg, s, WorkerDrain(g));
    QueuesKeepWatch(s.tables, s'.flow.place, f.queues, s'.flow.queues, s.desk);
    PopKeepsOrder(f, s.trace, g, Stopped, s'.flow);
    ServingPhases(s');
  }

  lemma ClaimKeepsInv(cfg: Config, s: State, g: Gen, ok: bool)
    requires Inv(cfg, s) && WorkerEnabled(s, WorkerClaim(g, ok)) && s.flow.queues[g].worker.job in s.tables.active
    ensures Inv(cfg, DoWorker(cfg, s, WorkerClaim(g, ok)))
  {
    hide Tokens, History, Budget, Records, Keys, Watch, Order, Phases, DoSubmit, SubmitEnabled, DoDesk, DeskEnabled, DoLifecycle, LifecycleEnabled;
    var f, q := s.flow, s.flow.queues[g];
    var j, to := q.worker.job, Claimed(g, q.printer);
    QueueFacts(cfg, f, g);
    JobFacts(cfg, s, j);
    ClaimKeepsTokens(cfg, f, g, j);
    MoveKeepsHistory(f.place, f.requests, s.trace.log, j, to);
    MoveKeepsBudget(cfg, f.place, f.running, f.nextId, s.bytes, j, to);
    MutateKeepsRecords(s.tables, f.place, f.requests, s.phase, j, Claim, ok, to);
    MutateKeepsKeys(s.tables, f.requests, j, Claim, ok);
    MutateKeepsWatch(s.tables, f.place, f.queues, s.desk, j, Claim, ok, to);
    var s' := DoWorker(cfg, s, WorkerClaim(g, ok));
    QueuesKeepWatch(s'.tables, s'.flow.place, f.queues, s'.flow.queues, s.desk);
    WorkerKeepsOrder(f, s.trace, g, Took(j), s'.flow);
    ServingPhases(s');
  }

  /** A worker whose hand (in the backlog's sense) does not change keeps the order. */
  lemma WorkerKeepsOrder(f: Flow, h: Trace, g: Gen, w: WorkerPc, f': Flow)
    requires Order(f, h) && g in f.queues
    requires w.Stopped? || (!f.queues[g].worker.Stopped?
                            && Backlog(f.queues[g].(worker := w)) == Backlog(f.queues[g]))
    requires f'.queues == f.queues[g := f.queues[g].(worker := w)] && f'.senders == f.senders
    ensures Order(f', h)
  {
    hide Order;
    forall p ensures Waiters(f', p) == Waiters(f, p) || Waiters(f', p) == [] {
    }
    QuietKeepsOrder(f, h, f');
  }

  /** The worker drops its job: no longer active, or no provider to hand it to. */
  lemma DropKeepsInv(cfg: Config, s: State, g: Gen, c: Change, ok: bool)
    requires Inv(cfg, s) && WorkerOf(s, g) && c.Fail?
    requires s.flow.queues[g].worker.Took?
             || (s.flow.queues[g].worker.Has? && s.flow.queues[g].worker.job !in s.tables.active)
    ensures
      var j := s.flow.queues[g].worker.job;
      Inv(cfg, Advance(ReleaseIn(MutateIn(s, j, c, ok), j), g, Idle, j, Gone))
  {
    hide Tokens, History, Budget, Records, Keys, Watch, Order, Phases, Apply, RowOk, Consistent, Proper;
    var f, q := s.flow, s.flow.queues[g];
    var j := q.worker.job;
    QueueFacts(cfg, f, g);
    JobFacts(cfg, s, j);
    DropIsProper(s.tables, f.place, j, c);
    DropKeepsTokens(cfg, f, g, j);
    MoveKeepsHistory(f.place, f.requests, s.trace.log, j, Gone);
    ReleaseKeepsBudget(cfg, f.place, f.running, f.nextId, s.bytes, j, Gone, f.running);
    MutateKeepsRecords(s.tables, f.place, f.requests, s.phase, j, c, ok, Gone);
    MutateKeepsKeys(s.tables, f.requests, j, c, ok);
    MutateKeepsWatch(s.tables, f.place, f.queues, s.desk, j, c, ok, Gone);
    var s' := Advance(ReleaseIn(MutateIn(s, j, c, ok), j), g, Idle, j, Gone);
    QueuesKeepWatch(s'.tables, s'.flow.place, f.queues, s'.flow.queues, s.desk);
    AdvanceKeepsOrder(f, s.trace, g, Idle, s'.flow, false);
    ServingPhases(s');
  }

  lemma DropIsProper(t: Tables, place: map<JobId, Place>, j: JobId, c: Change)
    requires j in place && c.Fail? && (place[j].Taken? || place[j].Claimed?)
    requires j in t.active ==> ActiveOk(t, place, j, t.active[j])
    ensures Proper(t, place, j, c, Gone)
  {
  }

  lemma CallKeepsInv(cfg: Config, s: State, g: Gen)
    requires Inv(cfg, s) && WorkerEnabled(s, WorkerCall(g))
    ensures Inv(cfg, DoWorker(cfg, s, WorkerCall(g)))
  {
    hide Tokens, History, Budget, Records, Keys, Watch, Order, Phases;
    var f, q := s.flow, s.flow.queues[g];
    var j, to := q.worker.job, Calling(g, q.printer);
    QueueFacts(cfg, f, g);
    JobFacts(cfg, s, j);
    CallKeepsTokens(cfg, f, g, j);
    CallKeepsHistory(f.place, f.requests, s.trace.log, j, to, q.printer);
    CallKeepsBudget(cfg, f.place, f.running, f.nextId, s.bytes, j, g, to);
    MoveKeepsRecords(s.tables, f.place, f.requests, s.phase, j, to);
    MoveKeepsWatch(s.tables, f.place, f.queues, s.desk, j, to);
    var s' := DoWorker(cfg, s, WorkerCall(g));
    QueuesKeepWatch(s.tables, s'.flow.place, f.queues, s'.flow.queues, s.desk);
    AdvanceKeepsOrder(f, s.trace, g, Waits(j, None, false), s'.flow, true);
    OrderIgnoresLog(s'.flow, Called(s.trace, q.printer, j, true), s'.trace);
    ServingPhases(s');
  }

  lemma OrderIgnoresLog(f: Flow, h: Trace, h': Trace)
    requires Order(f, h) && h'.sends == h.sends && h'.calls == h.calls
    ensures Order(f, h')
  {
    forall p ensures PrinterOrder(f, h', p) { assert PrinterOrder(f, h, p); }
  }

  lemma ReturnKeepsInv(cfg: Config, s: State, g: Gen, r: SubmitResult)
    requires Inv(cfg, s) && WorkerEnabled(s, ProviderReturn(g, r))
    ensures Inv(cfg, DoWorker(cfg, s, ProviderReturn(g, r)))
  {
    hide Tokens, History, Budget, Records, Keys, Watch, Order, Phases;
    var f, q := s.flow, s.flow.queues[g];
    var j := q.worker.job;
    QueueFacts(cfg, f, g);
    JobFacts(cfg, s, j);
    ReturnKeepsTokens(cfg, f, g, r);
    ReleaseKeepsBudget(cfg, f.place, f.running, f.nextId, s.bytes, j, f.place[j], f.running - {j});
    assert f.place[j := f.place[j]] == f.place;
    var s' := DoWorker(cfg, s, ProviderReturn(g, r));
    assert s'.flow.queues == f.queues[g := q.(worker := q.worker.(result := Some(r)))];
    SpoolKeepsWatch(s.tables, f.place, f.queues, s.desk, s'.desk);
    QueuesKeepWatch(s.tables, f.place, f.queues, s'.flow.queues, s'.desk);
    WorkerKeepsOrder(f, s.trace, g, q.worker.(result := Some(r)), s'.flow);
    ServingPhases(s');
  }

  lemma SpoolKeepsWatch(t: Tables, place: map<JobId, Place>, queues: map<Gen, Queue>, d: Desk, d': Desk)
    requires Watch(t, place, queues, d) && d'.monitors == d.monitors && d.nextSpool <= d'.nextSpool
    requires forall id :: id in d'.entries ==> id in d.entries || id < d'.nextSpool
    ensures Watch(t, place, queues, d')
  {
    forall j | j in d'.monitors ensures MonitorOk(t.active, place, d'.nextSpool, j, d'.monitors[j]) {
      assert MonitorOk(t.active, place, d.nextSpool, j, d.monitors[j]);
    }
    forall g | g in queues ensures ResultOk(queues[g].worker, d'.nextSpool) {
      assert ResultOk(queues[g].worker, d.nextSpool);
    }
  }

  /** The worker records the outcome of a call, or gives up waiting for it. */
  lemma FinishKeepsInv(cfg: Config, s: State, g: Gen, c: Change, ok: bool, w: WorkerPc)
    requires Inv(cfg, s) && WorkerOf(s, g) && s.flow.queues[g].worker.Waits? && !s.flow.queues[g].worker.timedOut
    requires (w == Idle && s.flow.queues[g].worker.result.Some?) || w == s.flow.queues[g].worker.(timedOut := true)
    requires c.Fail? || c.MarkDelivered? || (c.MarkSpooled? && c.spool < s.desk.nextSpool)
    ensures
      var j := s.flow.queues[g].worker.job;
      Inv(cfg, Advance(MutateIn(s, j, c, ok), g, w, j, Handed)) && j !in s.desk.monitors
  {
    hide Tokens, History, Budget, Records, Keys, Watch, Order, Phases, Proper, Apply, ActiveOk;
    var f, q := s.flow, s.flow.queues[g];
    var j := q.worker.job;
    WaitsFacts(cfg, s, g);
    FinishKeepsTokens(cfg, f, g, j, w);
    MoveKeepsHistory(f.place, f.requests, s.trace.log, j, Handed);
    MoveKeepsBudget(cfg, f.place, f.running, f.nextId, s.bytes, j, Handed);
    FinishKeepsTables(cfg, s, g, c, ok);
    var s' := Advance(MutateIn(s, j, c, ok), g, w, j, Handed);
    WorkerResult(s, g);
    QueuesKeepWatch(s'.tables, s'.flow.place, f.queues, s'.flow.queues, s.desk);
    WorkerKeepsOrder(f, s.trace, g, w, s'.flow);
    ServingPhases(s');
  }

  lemma WaitsFacts(cfg: Config, s: State, g: Gen)
    requires Inv(cfg, s) && g in s.flow.queues && s.flow.queues[g].worker.Waits? && !s.flow.queues[g].worker.timedOut
    ensures
      var j := s.flow.queues[g].worker.job;
      && j in s.flow.place && s.flow.place[j] == Calling(g, s.flow.queues[g].printer) && j !in s.desk.monitors
      && (j in s.tables.active ==> ActiveOk(s.tables, s.flow.place, j, s.tables.active[j])
                                   && j in s.tables.repo && SameIdentity(s.tables.repo[j], s.tables.active[j]))
  {
    QueueFacts(cfg, s.flow, g);
    JobFacts(cfg, s, s.flow.queues[g].worker.job);
  }

  lemma FinishKeepsTables(cfg: Config, s: State, g: Gen, c: Change, ok: bool)
    requires Inv(cfg, s) && WorkerOf(s, g) && s.flow.queues[g].worker.Waits? && !s.flow.queues[g].worker.timedOut
    requires c.Fail? || c.MarkDelivered? || (c.MarkSpooled? && c.spool < s.desk.nextSpool)
    ensures
      var j := s.flow.queues[g].worker.job;
      var t', place' := Mutate(s.tables, j, c, ok), s.flow.place[j := Handed];
      && Records(t', place', s.flow.requests, s.phase)
      && Keys(t', s.flow.requests)
      && Watch(t', place', s.flow.queues, s.desk)
  {
    hide Tokens, History, Budget, Records, Keys, Watch, Order, Phases, Proper, Apply, ActiveOk;
    var f := s.flow;
    var j := f.queues[g].worker.job;
    WaitsFacts(cfg, s, g);
    FinishIsProper(s.tables, f.place, j, c);
    MutateKeepsRecords(s.tables, f.place, f.requests, s.phase, j, c, ok, Handed);
    MutateKeepsKeys(s.tables, f.requests, j, c, ok);
    MutateKeepsWatch(s.tables, f.place, f.queues, s.desk, j, c, ok, Handed);
  }

  lemma FinishIsProper(t: Tables, place: map<JobId, Place>, j: JobId, c: Change)
    requires j in place && place[j].Calling? && (c.Fail? || c.MarkDelivered? || c.MarkSpooled?)
    requires j in t.active ==> ActiveOk(t, place, j, t.active[j])
    ensures Proper(t, place, j, c, Handed)
  {
  }

  lemma WorkerResult(s: State, g: Gen)
    requires Watch(s.tables, s.flow.place, s.flow.queues, s.desk) && g in s.flow.queues
    ensures ResultOk(s.flow.queues[g].worker, s.desk.nextSpool)
  {
  }

  lemma SettleKeepsInv(cfg: Config, s: State, g: Gen, ok: bool)
    requires Inv(cfg, s) && WorkerEnabled(s, WorkerSettle(g, ok))
    ensures Inv(cfg, DoWorker(cfg, s, WorkerSettle(g, ok)))
  {
    hide Tokens, History, Budget, Records, Keys, Watch, Order, Phases;
    var w := s.flow.queues[g].worker;
    var j, r := w.job, w.result.value;
    WorkerResult(s, g);
    QueueFacts(cfg, s.flow, g);
    FinishKeepsInv(cfg, s, g, ResultChange(r), ok, Idle);
    if r.Spooled? {
      var s1 := Advance(MutateIn(s, j, ResultChange(r), ok), g, Idle, j, Handed);
      JobFacts(cfg, s1, j);
      SpawnKeepsWatch(s1.tables, s1.flow.place, s1.flow.queues, s.desk, j, r.spool);
      ServingPhases(DoWorker(cfg, s, WorkerSettle(g, ok)));
    }
  }

  lemma SpawnKeepsWatch(t: Tables, place: map<JobId, Place>, queues: map<Gen, Queue>, d: Desk, j: JobId, spool: SpoolId)
    requires Watch(t, place, queues, d) && j in place && place[j].Handed? && spool < d.nextSpool
    requires j in t.active ==> t.active[j].spool == Some(spool)
    ensures Watch(t, place, queues, d.(monitors := d.monitors[j := Monitor(spool, Sleeping)]))
  {
    var d' := d.(monitors := d.monitors[j := Monitor(spool, Sleeping)]);
    forall k | k in d'.monitors ensures MonitorOk(t.active, place, d'.nextSpool, k, d'.monitors[k]) {
      assert k != j ==> MonitorOk(t.active, place, d.nextSpool, k, d.monitors[k]);
    }
  }

  lemma RestKeepsInv(cfg: Config, s: State, t: Step)
    requires Inv(cfg, s) && (t.WorkerLate? || t.WorkerExit?) && WorkerEnabled(s, t)
    ensures Inv(cfg, DoWorker(cfg, s, t))
  {
    hide Tokens, History, Budget, Records, Keys, Watch, Order, Phases;
    var f, g := s.flow, t.gen;
    var w := if t.WorkerLate? then Idle else Stopped;
    RestKeepsTokens(cfg, f, g, w);
    var s' := DoWorker(cfg, s, t);
    QueuesKeepWatch(s.tables, f.place, f.queues, s'.flow.queues, s.desk);
    WorkerKeepsOrder(f, s.trace, g, w, s'.flow);
    ServingPhases(s');
  }

  /** The job is no longer active: it is dropped unclaimed. */
  lemma SkipKeepsInv(cfg: Config, s: State, g: Gen, ok: bool)
    requires Inv(cfg, s) && WorkerEnabled(s, WorkerClaim(g, ok)) && s.flow.queues[g].worker.job !in s.tables.active
    ensures Inv(cfg, DoWorker(cfg, s, WorkerClaim(g, ok)))
  {
    hide Inv, Release, Apply;
    DropKeepsInv(cfg, s, g, Fail(ShuttingDown()), ok);
  }

  lemma WorkerKeepsInv(cfg: Config, s: State, t: Step)
    requires Inv(cfg, s) && IsWorkerStep(t) && Enabled(s, t)
    ensures Inv(cfg, Do(cfg, s, t))
  {
    hide Inv, Mutate, Release, Call, Return, Pop;
    WorkerDo(cfg, s, t);
    var q := s.flow.queues[t.gen];
    match t
    case WorkerReceive(g) => ReceiveKeepsInv(cfg, s, g);
    case WorkerClaim(g, ok) =>
      if q.worker.job in s.tables.active {
        ClaimKeepsInv(cfg, s, g, ok);
      } else {
        SkipKeepsInv(cfg, s, g, ok);
      }
    case WorkerNoProvider(g, e, ok) => DropKeepsInv(cfg, s, g, Fail(e), ok);
    case WorkerCall(g) => CallKeepsInv(cfg, s, g);
    case ProviderReturn(g, r) => ReturnKeepsInv(cfg, s, g, r);
    case WorkerSettle(g, ok) => SettleKeepsInv(cfg, s, g, ok);
    case WorkerTimeout(g, ok) => FinishKeepsInv(cfg, s, g, Fail(TimedOut()), ok, q.worker.(timedOut := true));
    case WorkerLate(g) => RestKeepsInv(cfg, s, t);
    case WorkerExit(g) => RestKeepsInv(cfg, s, t);
    case WorkerDrain(g) => DrainKeepsInv(cfg, s, g);
  }
}
