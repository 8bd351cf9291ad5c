/** The steps of `submit`, `prepare` and `enqueue` keep the engine invariant. */
module EngineSubmit {
  import opened Wrappers
  import opened Jobs
  import opened EngineModel
  import opened EngineInvariant
  import opened EngineTokens
  import opened EngineRecords
  import opened EngineBudget

  // ------------------------------------------------------------------ reading the invariant

  lemma FreshId(cfg: Config, s: State)
    requires Inv(cfg, s)
    ensures
      var j := s.flow.nextId;
      && j !in s.flow.place && j !in s.flow.requests && j !in s.tables.repo && j !in s.tables.active
      && j !in s.desk.monitors && s.flow.requests.Keys == s.flow.place.Keys
  {
  }

  /** What is known about a job wherever its submission is. */
  lemma JobFacts(cfg: Config, s: State, j: JobId)
    requires Inv(cfg, s) && j in s.flow.place
    ensures j < s.flow.nextId && 0 <= s.bytes.used
    ensures j in s.tables.active ==> ActiveOk(s.tables, s.flow.place, j, s.tables.active[j])
    ensures j in s.tables.repo ==> RowOk(s.tables, s.flow.place, s.flow.requests, s.phase, j, s.tables.repo[j])
    ensures j in s.desk.monitors ==> s.flow.place[j].Handed?
    ensures PlaceOk(s.flow, j, s.flow.place[j])
    ensures j in s.bytes.reservations <==> Holds(s.flow.place[j], j in s.flow.running)
    ensures Sends(s.flow.place[j]) || j !in s.flow.running
  {
    assert j in s.tables.active ==> ActiveOk(s.tables, s.flow.place, j, s.tables.active[j]);
    assert j in s.flow.running ==> RunningOk(s.flow, j, s.flow.running[j]);
  }

  lemma ServingPhases(s: State)
    requires s.phase.Serving?
    ensures Phases(s)
  {
  }

  lemma SameQueuesKeepOrder(f: Flow, h: Trace, f': Flow)
    requires Order(f, h) && f'.queues == f.queues && f'.senders == f.senders
    ensures Order(f', h)
  {
    forall p ensures PrinterOrder(f', h, p) {
      assert PrinterOrder(f, h, p) && Waiters(f', p) == Waiters(f, p);
    }
  }

  // ------------------------------------------------------------------ steps

  lemma InsertKeepsInv(cfg: Config, s: State, client: ClientId, key: Option<Key>, size: nat, now: nat)
    requires Inv(cfg, s) && Enabled(s, SubmitInsert(client, key, size, now))
    ensures Inv(cfg, Do(cfg, s, SubmitInsert(client, key, size, now)))
  {
    hide Tokens, History, Budget, Records, Keys, Watch, Order, Phases;
    var f, r := s.flow, Request(client, key, size);
    FreshId(cfg, s);
    InsertKeepsTokens(cfg, f, r);
    InsertKeepsHistory(f.place, f.requests, s.trace.log, f.nextId, r);
    InsertKeepsBudget(cfg, f.place, f.running, f.nextId, s.bytes);
    InsertKeepsRecords(s.tables, f.place, f.requests, s.phase, f.nextId, r, now);
    InsertKeepsKeys(s.tables, f.requests, f.nextId, r, now);
    InsertKeepsWatch(s.tables, f.place, f.queues, s.desk, f.nextId, NewJob(f.nextId, client, key, now));
    var s' := Do(cfg, s, SubmitInsert(client, key, size, now));
    SameQueuesKeepOrder(f, s.trace, s'.flow);
    ServingPhases(s');
  }

  lemma ActivateKeepsInv(cfg: Config, s: State, j: JobId)
    requires Inv(cfg, s) && Enabled(s, SubmitActivate(j))
    ensures Inv(cfg, Do(cfg, s, SubmitActivate(j)))
  {
    hide Tokens, History, Budget, Records, Keys, Watch, Order, Phases;
    var f, to := s.flow, AtSubmit(Tracked);
    JobFacts(cfg, s, j);
    ActivateKeepsTokens(cfg, f, j);
    MoveKeepsHistory(f.place, f.requests, s.trace.log, j, to);
    MoveKeepsBudget(cfg, f.place, f.running, f.nextId, s.bytes, j, to);
    ActivateKeepsRecords(s.tables, f.place, f.requests, s.phase, j);
    var s' := Do(cfg, s, SubmitActivate(j));
    KeysKept(s.tables, s'.tables, f.requests);
    MoveKeepsWatch(s.tables, f.place, f.queues, s.desk, j, to);
    LoadKeepsWatch(s.tables, f.place[j := to], f.queues, s.desk, j);
    SameQueuesKeepOrder(f, s.trace, s'.flow);
    ServingPhases(s');
  }

  /** A submit call changes its record (or not) and moves to its next point. */
  lemma TouchKeepsInv(cfg: Config, s: State, j: JobId, c: Option<Change>, ok: bool, to: Place)
    requires Inv(cfg, s) && SubmitAt(s, j) && !s.flow.place[j].pc.Inserted? && StaysInSubmit(s.flow, to)
    requires Holds(to, j in s.flow.running) == Holds(s.flow.place[j], j in s.flow.running)
    requires to.AtSubmit? && to.pc.Reserving? ==> 0 <= to.pc.seen
    requires if c.Some? then Proper(s.tables, s.flow.place, j, c.value, to) && !c.value.MarkSpooled?
             else j in s.tables.active ==> Fits(s.tables.active[j], to)
    ensures Inv(cfg, Move(if c.Some? then MutateIn(s, j, c.value, ok) else s, j, to))
  {
    hide Tokens, History, Budget, Records, Keys, Watch, Order, Phases;
    var f := s.flow;
    JobFacts(cfg, s, j);
    SubmitMoveKeepsTokens(cfg, f, j, to);
    MoveKeepsHistory(f.place, f.requests, s.trace.log, j, to);
    MoveKeepsBudget(cfg, f.place, f.running, f.nextId, s.bytes, j, to);
    if c.Some? {
      MutateKeepsRecords(s.tables, f.place, f.requests, s.phase, j, c.value, ok, to);
      MutateKeepsKeys(s.tables, f.requests, j, c.value, ok);
      MutateKeepsWatch(s.tables, f.place, f.queues, s.desk, j, c.value, ok, to);
    } else {
      MoveKeepsRecords(s.tables, f.place, f.requests, s.phase, j, to);
      MoveKeepsWatch(s.tables, f.place, f.queues, s.desk, j, to);
    }
    var s' := Move(if c.Some? then MutateIn(s, j, c.value, ok) else s, j, to);
    SameQueuesKeepOrder(f, s.trace, s'.flow);
    ServingPhases(s');
  }

  /** `enqueue` gives its reservation back: cancelled meanwhile, queue full or queue closed. */
  lemma GiveUpKeepsInv(cfg: Config, s: State, j: JobId, to: Place)
    requires Inv(cfg, s) && SubmitAt(s, j) && StaysInSubmit(s.flow, to)
    requires Holds(s.flow.place[j], false) && !Holds(to, false) && (to.AtSubmit? ==> to.pc.Failing?)
    requires j in s.tables.active ==> Fits(s.tables.active[j], to)
    ensures Inv(cfg, Move(ReleaseIn(s, j), j, to))
  {
    hide Tokens, History, Budget, Records, Keys, Watch, Order, Phases;
    var f := s.flow;
    JobFacts(cfg, s, j);
    SubmitMoveKeepsTokens(cfg, f, j, to);
    MoveKeepsHistory(f.place, f.requests, s.trace.log, j, to);
    ReleaseKeepsBudget(cfg, f.place, f.running, f.nextId, s.bytes, j, to, f.running);
    MoveKeepsRecords(s.tables, f.place, f.requests, s.phase, j, to);
    MoveKeepsWatch(s.tables, f.place, f.queues, s.desk, j, to);
    var s' := Move(ReleaseIn(s, j), j, to);
    SameQueuesKeepOrder(f, s.trace, s'.flow);
    ServingPhases(s');
  }

  lemma SwapKeepsInv(cfg: Config, s: State, j: JobId, spurious: bool)
    requires Inv(cfg, s) && Enabled(s, BudgetSwap(j, spurious))
    ensures Inv(cfg, Do(cfg, s, BudgetSwap(j, spurious)))
  {
    hide Tokens, History, Budget, Records, Keys, Watch, Order, Phases;
    var f, pc := s.flow, s.flow.place[j].pc;
    var size := f.requests[j].size;
    JobFacts(cfg, s, j);
    if pc.seen + size > U64_MAX || pc.seen + size > cfg.budgetLimit {
      TouchKeepsInv(cfg, s, j, None, true, AtSubmit(Failing(QueueFull(pc.printer))));
    } else if s.bytes.used == pc.seen && !spurious {
      var to := AtSubmit(Reserved(pc.printer));
      SubmitMoveKeepsTokens(cfg, f, j, to);
      MoveKeepsHistory(f.place, f.requests, s.trace.log, j, to);
      ReserveKeepsBudget(cfg, f.place, f.running, f.nextId, s.bytes, j, size, to);
      MoveKeepsRecords(s.tables, f.place, f.requests, s.phase, j, to);
      MoveKeepsWatch(s.tables, f.place, f.queues, s.desk, j, to);
      var s' := Do(cfg, s, BudgetSwap(j, spurious));
      SameQueuesKeepOrder(f, s.trace, s'.flow);
      ServingPhases(s');
    } else {
      TouchKeepsInv(cfg, s, j, None, true, AtSubmit(Reserving(pc.printer, s.bytes.used)));
    }
  }

  lemma SenderKeepsInv(cfg: Config, s: State, j: JobId)
    requires ValidConfig(cfg) && Inv(cfg, s) && Enabled(s, SubmitSender(j))
    ensures Inv(cfg, Do(cfg, s, SubmitSender(j)))
  {
    hide Tokens, History, Budget, Records, Keys, Watch, Order, Phases;
    var f, f' := s.flow, FetchSender(s.flow, j);
    var to := f'.place[j];
    JobFacts(cfg, s, j);
    FetchSenderKeepsTokens(cfg, f, j);
    MoveKeepsHistory(f.place, f.requests, s.trace.log, j, to);
    MoveKeepsBudget(cfg, f.place, f.running, f.nextId, s.bytes, j, to);
    MoveKeepsRecords(s.tables, f.place, f.requests, s.phase, j, to);
    MoveKeepsWatch(s.tables, f.place, f.queues, s.desk, j, to);
    QueuesKeepWatch(s.tables, f'.place, f.queues, f'.queues, s.desk);
    SenderKeepsOrder(cfg, f, s.trace, j);
    ServingPhases(Do(cfg, s, SubmitSender(j)));
  }

  lemma SenderKeepsOrder(cfg: Config, f: Flow, h: Trace, j: JobId)
    requires Tokens(cfg, f) && Order(f, h)
    requires j in f.place && f.place[j].AtSubmit? && f.place[j].pc.Marked?
    ensures Order(FetchSender(f, j), h)
  {
    hide Order;
    var f' := FetchSender(f, j);
    forall p ensures Waiters(f', p) == Waiters(f, p) {
      assert f.nextGen !in f.queues;
    }
    QuietKeepsOrder(f, h, f');
  }

  lemma SendKeepsInv(cfg: Config, s: State, j: JobId)
    requires Inv(cfg, s) && Enabled(s, SubmitSend(j))
    ensures Inv(cfg, Do(cfg, s, SubmitSend(j)))
  {
    hide Tokens, History, Budget, Records, Keys, Watch, Order, Phases;
    var f, pc := s.flow, s.flow.place[j].pc;
    var g, q := pc.gen, s.flow.queues[pc.gen];
    JobFacts(cfg, s, j);
    if q.worker.Stopped? {
      GiveUpKeepsInv(cfg, s, j, AtSubmit(Failing(ShuttingDown())));
    } else if |q.items| >= cfg.capacity {
      GiveUpKeepsInv(cfg, s, j, AtSubmit(Failing(QueueFull(q.printer))));
    } else {
      PushKeepsInv(cfg, s, j);
    }
  }

  /** The item is in the channel now. */
  lemma PushKeepsInv(cfg: Config, s: State, j: JobId)
    requires Inv(cfg, s) && SubmitEnabled(s, SubmitSend(j))
    requires
      var q := s.flow.queues[s.flow.place[j].pc.gen];
      !q.worker.Stopped? && |q.items| < cfg.capacity
    ensures Inv(cfg, TrySend(cfg, s, j))
  {
    hide Tokens, History, Budget, Records, Keys, Watch, Order, Phases;
    var f, g := s.flow, s.flow.place[j].pc.gen;
    var q := f.queues[g];
    var to := AtQueue(g, q.printer);
    JobFacts(cfg, s, j);
    QueueFacts(cfg, f, g);
    PushKeepsTokens(cfg, f, g, j);
    MoveKeepsHistory(f.place, f.requests, s.trace.log, j, to);
    MoveKeepsBudget(cfg, f.place, f.running, f.nextId, s.bytes, j, to);
    MoveKeepsRecords(s.tables, f.place, f.requests, s.phase, j, to);
    MoveKeepsWatch(s.tables, f.place, f.queues, s.desk, j, to);
    var s' := TrySend(cfg, s, j);
    QueuesKeepWatch(s.tables, s'.flow.place, f.queues, s'.flow.queues, s.desk);
    PushKeepsOrder(f, s.trace, g, j);
    ServingPhases(s');
  }

  lemma QueueFacts(cfg: Config, f: Flow, g: Gen)
    requires Tokens(cfg, f) && g in f.queues
    ensures SendersOk(f) && QueueOk(cfg, f, g, f.queues[g])
    ensures !f.queues[g].worker.Stopped? ==> Current(f, g)
  {
  }

  lemma PrepareKeepsInv(cfg: Config, s: State, t: Step)
    requires Inv(cfg, s) && (t.SubmitValidate? || t.SubmitResolve?) && SubmitEnabled(s, t)
    ensures Inv(cfg, DoSubmit(cfg, s, t))
  {
    hide Inv, Mutate;
    var j, ok := t.job, t.ok;
    JobFacts(cfg, s, j);
    if t.SubmitValidate? {
      TouchKeepsInv(cfg, s, j, Some(StartValidating), ok, AtSubmit(Preparing));
    } else {
      TouchKeepsInv(cfg, s, j, Some(RecordPrinter(t.printer)), ok, AtSubmit(Resolved(t.printer)));
    }
  }

  lemma LeaveKeepsInv(cfg: Config, s: State, t: Step)
    requires Inv(cfg, s) && (t.SubmitReject? || t.SubmitAbort? || t.BudgetLoad?) && SubmitEnabled(s, t)
    ensures Inv(cfg, DoSubmit(cfg, s, t))
  {
    hide Inv, Mutate;
    var j := t.job;
    JobFacts(cfg, s, j);
    var to := if t.SubmitReject? then AtSubmit(Failing(t.error)) else if t.SubmitAbort? then Gone
              else AtSubmit(Reserving(s.flow.place[j].pc.printer, s.bytes.used));
    TouchKeepsInv(cfg, s, j, None, true, to);
  }

  lemma MarkKeepsInv(cfg: Config, s: State, j: JobId, ok: bool)
    requires Inv(cfg, s) && SubmitEnabled(s, SubmitMark(j, ok))
    ensures Inv(cfg, DoSubmit(cfg, s, SubmitMark(j, ok)))
  {
    hide Inv, Mutate, Release;
    JobFacts(cfg, s, j);
    if j in s.tables.active {
      TouchKeepsInv(cfg, s, j, Some(MarkQueued), ok, AtSubmit(Marked(s.flow.place[j].pc.printer)));
    } else {
      GiveUpKeepsInv(cfg, s, j, Gone);
    }
  }

  lemma FailKeepsInv(cfg: Config, s: State, j: JobId, ok: bool)
    requires Inv(cfg, s) && SubmitEnabled(s, SubmitFail(j, ok))
    ensures Inv(cfg, DoSubmit(cfg, s, SubmitFail(j, ok)))
  {
    hide Inv, Mutate, Release;
    JobFacts(cfg, s, j);
    TouchKeepsInv(cfg, s, j, Some(Fail(s.flow.place[j].pc.error)), ok, Gone);
  }

  lemma SubmitKeepsInv(cfg: Config, s: State, t: Step)
    requires ValidConfig(cfg) && Inv(cfg, s) && IsSubmitStep(t) && Enabled(s, t)
    ensures Inv(cfg, Do(cfg, s, t))
  {
    hide Inv, Do, Enabled, DoSubmit, SubmitEnabled;
    SubmitDo(cfg, s, t);
    match t
    case SubmitInsert(client, key, size, now) => InsertKeepsInv(cfg, s, client, key, size, now);
    case SubmitExisting(client, known) => ExistingKeepsInv(cfg, s, client, known);
    case SubmitActivate(j) => ActivateKeepsInv(cfg, s, j);
    case BudgetSwap(j, spurious) => SwapKeepsInv(cfg, s, j, spurious);
    case SubmitSender(j) => SenderKeepsInv(cfg, s, j);
    case SubmitSend(j) => SendKeepsInv(cfg, s, j);
    case SubmitMark(j, ok) => MarkKeepsInv(cfg, s, j, ok);
    case SubmitFail(j, ok) => FailKeepsInv(cfg, s, j, ok);
    case SubmitValidate(_, _) => PrepareKeepsInv(cfg, s, t);
    case SubmitResolve(_, _, _) => PrepareKeepsInv(cfg, s, t);
    case _ => LeaveKeepsInv(cfg, s, t);
  }

  lemma ExistingKeepsInv(cfg: Config, s: State, client: ClientId, known: Key)
    requires Inv(cfg, s) && Enabled(s, SubmitExisting(client, known))
    ensures Inv(cfg, Do(cfg, s, SubmitExisting(client, known)))
  {
    hide Inv;
  }
}
