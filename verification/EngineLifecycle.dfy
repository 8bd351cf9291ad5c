/** Shutdown, retention, crash and restart keep the invariant; so every step of a run does. */
module EngineLifecycle {
  import opened Wrappers
  import opened Jobs
  import opened EngineModel
  import opened EngineInvariant
  import opened EngineTokens
  import opened EngineRecords
  import opened EngineBudget
  import opened EngineSubmit
  import opened EngineWorker
  import opened EngineDesk

  lemma ShutdownKeepsInv(cfg: Config, s: State, t: Step)
    requires Inv(cfg, s) && (t.ShutdownSignal? || t.ShutdownSnapshot? || t.ShutdownFail?) && Enabled(s, t)
    ensures Inv(cfg, Do(cfg, s, t))
  {
    hide Tokens, History, Budget, Records, Keys, Watch, Order, Phases;
    if t.ShutdownFail? && t.job in s.tables.active {
      ActiveIsPlaced(cfg, s, t.job);
      EditKeepsInv(cfg, s, t.job, Fail(NotSent()), t.ok);
    }
    ServingPhases(Do(cfg, s, t));
  }

  lemma PurgeKeepsInv(cfg: Config, s: State, cutoff: nat)
    requires Inv(cfg, s) && Enabled(s, Purge(cutoff))
    ensures Inv(cfg, Do(cfg, s, Purge(cutoff)))
  {
    hide Tokens, History, Budget, Records, Keys, Watch, Order, Phases;
    PurgeKeepsRecords(s.tables, s.flow.place, s.flow.requests, s.phase, cutoff);
    PurgeKeepsKeys(s.tables, s.flow.place, s.flow.requests, s.phase, cutoff);
    PurgeKeepsWatch(s.tables, s.flow.place, s.flow.queues, s.desk, cutoff);
    ServingPhases(Do(cfg, s, Purge(cutoff)));
  }

  lemma PurgeKeepsWatch(t: Tables, place: map<JobId, Place>, queues: map<Gen, Queue>, d: Desk, cutoff: nat)
    requires Watch(t, place, queues, d)
    ensures Watch(PurgeRows(t, cutoff), place, queues, d)
  {
  }

  lemma CrashKeepsInv(cfg: Config, s: State)
    requires Inv(cfg, s) && Enabled(s, Crash)
    ensures Inv(cfg, Do(cfg, s, Crash))
  {
    hide Tokens, History, Budget, Records, Keys, Watch, Order;
    var f := s.flow;
    CrashKeepsTokens(cfg, f);
    CrashKeepsHistory(f.place, f.requests, s.trace.log);
    CrashKeepsBudget(cfg, f.place, f.nextId);
    CrashKeepsRecords(s.tables, f.place, f.requests, s.phase);
    var s' := Do(cfg, s, Crash);
    KeysKept(s.tables, s'.tables, f.requests);
    CrashKeepsWatch(s, s');
    EmptyOrder(s'.flow, s'.trace);
  }

  lemma CrashKeepsWatch(s: State, s': State)
    requires Watch(s.tables, s.flow.place, s.flow.queues, s.desk)
    requires s'.tables.repo == s.tables.repo && s'.tables.active == map[] && s'.flow.queues == map[]
    requires s'.desk.monitors == map[] && s'.desk.entries == s.desk.entries && s'.desk.nextSpool == s.desk.nextSpool
    ensures Watch(s'.tables, s'.flow.place, s'.flow.queues, s'.desk)
  {
  }

  lemma EmptyOrder(f: Flow, h: Trace)
    requires f.queues == map[] && h.sends == map[] && h.calls == map[]
    ensures Order(f, h)
  {
    forall p ensures PrinterOrder(f, h, p) {
      assert Embeds([], [], []) && Sent(h.sends, p)[..0] == [];
    }
  }

  lemma BootKeepsInv(cfg: Config, s: State, t: Step)
    requires Inv(cfg, s) && (t.Boot? || t.Serve?) && Enabled(s, t)
    ensures Inv(cfg, Do(cfg, s, t))
  {
    hide Tokens, History, Budget, Records, Keys, Watch, Order;
    PhaseKeepsRecords(s.tables, s.flow.place, s.flow.requests, s.phase, Do(cfg, s, t).phase);
  }

  lemma ReconcileKeepsInv(cfg: Config, s: State, j: JobId, known: bool, ok: bool)
    requires Inv(cfg, s) && Enabled(s, Reconcile(j, known, ok))
    ensures Inv(cfg, Do(cfg, s, Reconcile(j, known, ok)))
  {
    hide Tokens, History, Budget, Records, Keys, Watch, Order, Phases, RestartChange, Apply, ActiveOk;
    var t, f, todo := s.tables, s.flow, s.phase.todo;
    TodoIsPlaced(cfg, s, j);
    ReconcileKeepsRecords(t, f.place, f.requests, todo, j, known, ok);
    ReconcileKeepsRest(cfg, s, j, known, ok);
    ReconcileKeepsPhases(cfg, s, j, known, ok);
  }

  lemma ReconcileKeepsRest(cfg: Config, s: State, j: JobId, known: bool, ok: bool)
    requires Inv(cfg, s) && Enabled(s, Reconcile(j, known, ok))
    ensures
      var s' := Do(cfg, s, Reconcile(j, known, ok));
      Keys(s'.tables, s.flow.requests) && Watch(s'.tables, s.flow.place, s.flow.queues, s'.desk)
  {
    hide Tokens, History, Budget, Records, Keys, Watch, Order, Phases, RestartChange, Apply, ActiveOk;
    var t, f, todo := s.tables, s.flow, s.phase.todo;
    TodoIsPlaced(cfg, s, j);
    JobFacts(cfg, s, j);
    LoadKeepsWatch(t, f.place, f.queues, s.desk, j);
    var loaded := t.(active := t.active[j := todo[j]]);
    KeysKept(t, loaded, f.requests);
    if Resumes(todo[j], known) {
      SpoolIsOld(s, j);
      SpawnKeepsWatch(loaded, f.place, f.queues, s.desk, j, todo[j].spool.value);
    } else {
      MutateKeepsKeys(loaded, f.requests, j, RestartChange(todo[j]), ok);
      NotSpooling(todo[j]);
      assert f.place[j := f.place[j]] == f.place;
      MutateKeepsWatch(loaded, f.place, f.queues, s.desk, j, RestartChange(todo[j]), ok, f.place[j]);
    }
  }

  lemma ReconcileKeepsPhases(cfg: Config, s: State, j: JobId, known: bool, ok: bool)
    requires Inv(cfg, s) && Enabled(s, Reconcile(j, known, ok))
    ensures Phases(Do(cfg, s, Reconcile(j, known, ok)))
  {
    hide Tokens, History, Budget, Records, Keys, Watch, Order;
  }

  lemma NotSpooling(row: Job)
    ensures !RestartChange(row).MarkSpooled?
  {
  }

  lemma TodoIsPlaced(cfg: Config, s: State, j: JobId)
    requires Inv(cfg, s) && s.phase.Reconciling? && j in s.phase.todo
    ensures j in s.flow.place && s.flow.place[j] != AtSubmit(Inserted)
    ensures j in s.tables.repo && s.phase.todo[j] == s.tables.repo[j] && !IsTerminal(s.tables.repo[j].status)
    ensures j !in s.tables.active && j !in s.desk.monitors
  {
    assert RowOk(s.tables, s.flow.place, s.flow.requests, s.phase, j, s.tables.repo[j]);
  }

  lemma SpoolIsOld(s: State, j: JobId)
    requires Watch(s.tables, s.flow.place, s.flow.queues, s.desk) && j in s.tables.repo && s.tables.repo[j].spool.Some?
    ensures s.tables.repo[j].spool.value < s.desk.nextSpool
  {
  }

  lemma LifecycleKeepsInv(cfg: Config, s: State, t: Step)
    requires Inv(cfg, s) && IsLifecycleStep(t) && Enabled(s, t)
    ensures Inv(cfg, Do(cfg, s, t))
  {
    hide Inv, Do, Enabled;
    match t
    case Purge(cutoff) => PurgeKeepsInv(cfg, s, cutoff);
    case Crash => CrashKeepsInv(cfg, s);
    case Boot => BootKeepsInv(cfg, s, t);
    case Serve => BootKeepsInv(cfg, s, t);
    case Reconcile(j, known, ok) => ReconcileKeepsInv(cfg, s, j, known, ok);
    case _ => ShutdownKeepsInv(cfg, s, t);
  }

  /** Every step of every interleaving keeps the invariant. */
  lemma StepKeepsInv(cfg: Config, s: State, t: Step)
    requires ValidConfig(cfg) && Inv(cfg, s) && Enabled(s, t)
    ensures Inv(cfg, Do(cfg, s, t))
  {
    hide Inv, Do, Enabled;
    if IsSubmitStep(t) {
      SubmitKeepsInv(cfg, s, t);
    } else if IsWorkerStep(t) {
      WorkerKeepsInv(cfg, s, t);
    } else if IsDeskStep(t) {
      DeskStepKeepsInv(cfg, s, t);
    } else {
      LifecycleKeepsInv(cfg, s, t);
    }
  }

  lemma {:induction false} RunKeepsInv(cfg: Config, s: State, steps: seq<Step>)
    requires ValidConfig(cfg) && Inv(cfg, s) && Runs(cfg, s, steps)
    ensures Inv(cfg, After(cfg, s, steps))
    decreases |steps|
  {
    hide Inv, Do, Enabled;
    if steps != [] {
      StepKeepsInv(cfg, s, steps[0]);
      RunKeepsInv(cfg, Do(cfg, s, steps[0]), steps[1..]);
    }
  }
}
