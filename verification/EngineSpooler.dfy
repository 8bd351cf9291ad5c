/**
 The engine and the OS spooler: a monitor watches, and a cancellation deletes, no entry but its own
 job's; an open job that reached the spooler is being watched; and a job is marked as being cancelled
 only while one of its cancellations is under way.
 */
module EngineSpooler {
  import opened Wrappers
  import opened Jobs
  import opened EngineModel
  import opened EngineInvariant
  import opened EngineSubmit
  import opened EngineLifecycle
  import opened EngineSafety
  import opened EngineOutcomes
  import opened EngineCancel

  // ------------------------------------------------------------------ whose entry it is

  /** The id was given out, and its entry, if it is still there, is that of `j`. */
  predicate Mine(d: Desk, j: JobId, id: SpoolId) {
    id < d.nextSpool && (id in d.entries ==> d.entries[id] == j)
  }

  predicate RowOwns(d: Desk, j: JobId, row: Job) {
    row.spool.Some? ==> Mine(d, j, row.spool.value)
  }

  predicate RowsOwn(t: Tables, d: Desk, j: JobId) {
    (j in t.active ==> RowOwns(d, j, t.active[j])) && (j in t.repo ==> RowOwns(d, j, t.repo[j]))
  }

  predicate MonitorOwns(d: Desk, j: JobId) {
    j in d.monitors ==> Mine(d, j, d.monitors[j].spool)
  }

  ghost predicate CallsOwn(d: Desk, j: JobId) {
    forall c :: CallOn(d.cancels, c, j) && Aims(d.cancels[c].stage) ==> Mine(d, j, d.cancels[c].stage.spool)
  }

  predicate ResultOwns(d: Desk, j: JobId, w: WorkerPc) {
    w.Waits? && w.job == j && w.result.Some? && w.result.value.Spooled? ==> Mine(d, j, w.result.value.spool)
  }

  ghost predicate ResultsOwn(queues: map<Gen, Queue>, d: Desk, j: JobId) {
    forall g :: g in queues ==> ResultOwns(d, j, queues[g].worker)
  }

  /** Whoever holds a spooler id for `j`: its records, its monitor, its cancellations, its worker. */
  ghost predicate Owns(s: State, j: JobId) {
    && RowsOwn(s.tables, s.desk, j) && MonitorOwns(s.desk, j)
    && CallsOwn(s.desk, j) && ResultsOwn(s.flow.queues, s.desk, j)
  }

  /** Ids are given out once: an old id never gets a new entry. */
  predicate Later(d: Desk, d': Desk) {
    && d.nextSpool <= d'.nextSpool
    && forall id :: id in d'.entries && id < d.nextSpool ==> id in d.entries && d'.entries[id] == d.entries[id]
  }

  lemma RowsOwnLater(t: Tables, d: Desk, d': Desk, j: JobId)
    requires RowsOwn(t, d, j) && Later(d, d')
    ensures RowsOwn(t, d', j)
  {
  }

  lemma ResultsOwnLater(queues: map<Gen, Queue>, d: Desk, d': Desk, j: JobId)
    requires ResultsOwn(queues, d, j) && Later(d, d')
    ensures ResultsOwn(queues, d', j)
  {
  }

  /** The id comes with the provider's answer and stays with the record. */
  lemma EditOwns(t: Tables, d: Desk, k: JobId, c: Change, ok: bool, j: JobId)
    requires RowsOwn(t, d, j) && (c.MarkSpooled? && k == j ==> Mine(d, j, c.spool))
    ensures RowsOwn(Mutate(t, k, c, ok), d, j)
  {
    hide Mine;
  }

  lemma TableStepOwns(cfg: Config, s: State, t: Step, j: JobId)
    requires Inv(cfg, s) && Enabled(s, t) && ChangesTables(t) && RowsOwn(s.tables, s.desk, j)
    ensures RowsOwn(Do(cfg, s, t).tables, s.desk, j)
  {
    hide Inv, Do, Enabled, Mine, Apply, RestartChange, Mutate;
    TablesAfterIs(cfg, s, t);
    if t.SubmitActivate? {
      EngineTokens.SubmitDo(cfg, s, t);
    } else if t.Reconcile? {
      TodoIsRow(cfg, s, t);
      var row := s.phase.todo[t.job];
      NoSpoolFromRestart(row);
      EditOwns(s.tables.(active := s.tables.active[t.job := row]), s.desk, t.job, RestartChange(row), t.ok, j);
    }
  }

  lemma NoSpoolFromRestart(row: Job)
    ensures !RestartChange(row).MarkSpooled?
  {
  }

  lemma TodoIsRow(cfg: Config, s: State, t: Step)
    requires Inv(cfg, s) && Enabled(s, t) && t.Reconcile?
    ensures s.phase.Reconciling? && t.job in s.phase.todo && t.job in s.tables.repo && s.phase.todo[t.job] == s.tables.repo[t.job]
  {
    hide Tokens, History, Budget, Records, Keys, Watch, Order;
  }

  /** Only a settled answer of the provider records a spooler id. */
  lemma SpooledEdits(cfg: Config, s: State, t: Step)
    requires Inv(cfg, s) && Enabled(s, t) && EditOf(s, t).Edit? && EditOf(s, t).change.MarkSpooled?
    ensures t.WorkerSettle? && t.gen in s.flow.queues
    ensures
      var w := s.flow.queues[t.gen].worker;
      w.Waits? && w.job == EditOf(s, t).job && w.result == Some(Spooled(EditOf(s, t).change.spool))
  {
    hide Inv;
    if t.MonitorApply? { EngineDesk.MonitorFacts(cfg, s, t.job); }
  }

  lemma RowsStep(cfg: Config, s: State, t: Step, j: JobId)
    requires Inv(cfg, s) && Enabled(s, t) && Owns(s, j)
    ensures RowsOwn(Do(cfg, s, t).tables, s.desk, j)
  {
    hide Inv, Do, Enabled, Apply, Mutate, EditOf, Mine, RowsOwn;
    if ChangesTables(t) {
      TableStepOwns(cfg, s, t, j);
    } else {
      EditsAreMutations(cfg, s, t);
      var e := EditOf(s, t);
      if e.Edit? {
        if e.change.MarkSpooled? { SpooledEdits(cfg, s, t); }
        EditOwns(s.tables, s.desk, e.job, e.change, e.ok, j);
      }
    }
  }

  // ------------------------------------------------------------------ the other holders

  /** Submit calls start workers, but no worker of theirs holds an answer. */
  lemma SubmitWorkers(cfg: Config, s: State, t: Step, g: Gen)
    requires Enabled(s, t) && IsSubmitStep(t) && g in Do(cfg, s, t).flow.queues
    ensures
      var w := Do(cfg, s, t).flow.queues[g].worker;
      w.Idle? || (g in s.flow.queues && s.flow.queues[g].worker == w)
  {
    hide Do, Enabled, Mutate, Release;
    EngineTokens.SubmitDo(cfg, s, t);
  }

  lemma SubmitOwns(cfg: Config, s: State, t: Step, j: JobId)
    requires Inv(cfg, s) && Enabled(s, t) && IsSubmitStep(t) && Owns(s, j)
    ensures Owns(Do(cfg, s, t), j)
  {
    hide Inv, Do, Enabled, Mine, RowsOwn;
    RowsStep(cfg, s, t, j);
    SubmitFrame(cfg, s, t);
    forall g | g in Do(cfg, s, t).flow.queues ensures ResultOwns(s.desk, j, Do(cfg, s, t).flow.queues[g].worker) {
      SubmitWorkers(cfg, s, t, g);
    }
  }

  /** An answer makes its entry for the job that was submitted. */
  lemma ReturnOwns(s: State, g: Gen, r: SubmitResult, j: JobId)
    requires WorkerEnabled(s, ProviderReturn(g, r)) && ResultsOwn(s.flow.queues, s.desk, j)
    ensures ResultsOwn(Return(s, g, r).flow.queues, Return(s, g, r).desk, j) && Later(s.desk, Return(s, g, r).desk)
  {
    hide Release;
  }

  /** Every other step of a worker leaves the answers and the entries alone. */
  lemma WorkerAnswers(cfg: Config, s: State, t: Step, g: Gen)
    requires IsWorkerStep(t) && WorkerEnabled(s, t) && !t.ProviderReturn?
    ensures DoWorker(cfg, s, t).desk.entries == s.desk.entries && DoWorker(cfg, s, t).desk.nextSpool == s.desk.nextSpool
    ensures DoWorker(cfg, s, t).flow.queues.Keys == s.flow.queues.Keys
    ensures g in s.flow.queues ==>
      var w, w' := s.flow.queues[g].worker, DoWorker(cfg, s, t).flow.queues[g].worker;
      w'.Waits? && w'.result.Some? ==> w.Waits? && w'.job == w.job && w'.result == w.result
  {
    hide Mutate, Release, ResultChange;
  }

  /** The worker's answer is old, or the entry was made for its job in this step. */
  lemma WorkerResults(cfg: Config, s: State, t: Step, j: JobId)
    requires Enabled(s, t) && IsWorkerStep(t) && ResultsOwn(s.flow.queues, s.desk, j)
    ensures ResultsOwn(Do(cfg, s, t).flow.queues, Do(cfg, s, t).desk, j) && Later(s.desk, Do(cfg, s, t).desk)
  {
    hide Do, Enabled, DoWorker, WorkerEnabled, Return;
    EngineTokens.WorkerDo(cfg, s, t);
    var s' := Do(cfg, s, t);
    if t.ProviderReturn? {
      ReturnDo(cfg, s, t);
      ReturnOwns(s, t.gen, t.result, j);
    } else {
      forall g | g in s'.flow.queues ensures ResultOwns(s'.desk, j, s'.flow.queues[g].worker) {
        WorkerAnswers(cfg, s, t, g);
      }
      WorkerAnswers(cfg, s, t, t.gen);
    }
  }

  lemma ReturnDo(cfg: Config, s: State, t: Step)
    requires t.ProviderReturn? && WorkerEnabled(s, t)
    ensures DoWorker(cfg, s, t) == Return(s, t.gen, t.result) && WorkerEnabled(s, ProviderReturn(t.gen, t.result))
  {
    hide Return;
  }

  lemma WorkerDesk(cfg: Config, s: State, t: Step)
    requires Enabled(s, t) && IsWorkerStep(t)
    ensures
      var d, d' := s.desk, Do(cfg, s, t).desk;
      && d'.cancels == d.cancels && d'.cancelling == d.cancelling && t.gen in s.flow.queues
      && (d'.monitors == d.monitors ||
          (&& t.WorkerSettle? && s.flow.queues[t.gen].worker.Waits? && s.flow.queues[t.gen].worker.result.Some?
           && s.flow.queues[t.gen].worker.result.value.Spooled?
           && d'.monitors == d.monitors[s.flow.queues[t.gen].worker.job := Monitor(s.flow.queues[t.gen].worker.result.value.spool, Sleeping)]))
  {
    hide Do, Enabled, Mutate, Release, ResultChange;
    EngineTokens.WorkerDo(cfg, s, t);
  }

  lemma WorkerOwns(cfg: Config, s: State, t: Step, j: JobId)
    requires Inv(cfg, s) && Enabled(s, t) && IsWorkerStep(t) && Owns(s, j)
    ensures Owns(Do(cfg, s, t), j)
  {
    hide Inv, Do, Enabled, RowsOwn;
    RowsStep(cfg, s, t, j);
    WorkerResults(cfg, s, t, j);
    WorkerDesk(cfg, s, t);
    assert ResultOwns(s.desk, j, s.flow.queues[t.gen].worker);
    RowsOwnLater(Do(cfg, s, t).tables, s.desk, Do(cfg, s, t).desk, j);
  }

  /** What a cancellation reads is a record of the job. */
  lemma ReadOwns(t: Tables, d: Desk, j: JobId, fromStore: bool)
    requires RowsOwn(t, d, j) && JobRead(t, j, fromStore).Some?
    ensures RowOwns(d, j, JobRead(t, j, fromStore).value)
  {
  }

  lemma MonitorStepDesk(cfg: Config, s: State, t: Step, j: JobId)
    requires Enabled(s, t) && IsDeskStep(t) && MonitorOwns(s.desk, j)
    ensures MonitorOwns(Do(cfg, s, t).desk, j) && Later(s.desk, Do(cfg, s, t).desk)
  {
    hide Mutate, DoSubmit, DoWorker, DoLifecycle, SubmitEnabled, WorkerEnabled, LifecycleEnabled;
  }

  lemma CallsStepDesk(cfg: Config, s: State, t: Step, j: JobId, c: CallId)
    requires Enabled(s, t) && IsDeskStep(t) && RowsOwn(s.tables, s.desk, j) && CallsOwn(s.desk, j)
    requires
      var d' := Do(cfg, s, t).desk;
      CallOn(d'.cancels, c, j) && Aims(d'.cancels[c].stage)
    ensures Mine(s.desk, j, Do(cfg, s, t).desk.cancels[c].stage.spool)
  {
    hide Mutate, Mine, RowsOwn, JobRead, DoSubmit, DoWorker, DoLifecycle, SubmitEnabled, WorkerEnabled, LifecycleEnabled;
    if t.CancelRead? && t.job == j { ReadOwns(s.tables, s.desk, j, t.fromStore); }
  }

  lemma DeskOwns(cfg: Config, s: State, t: Step, j: JobId)
    requires Inv(cfg, s) && Enabled(s, t) && IsDeskStep(t) && Owns(s, j)
    ensures Owns(Do(cfg, s, t), j)
  {
    hide Inv, Do, Enabled, DoDesk, DeskEnabled, MonitorOwns, ResultsOwn, RowsOwn;
    var d' := Do(cfg, s, t).desk;
    RowsStep(cfg, s, t, j);
    MonitorStepDesk(cfg, s, t, j);
    DeskFlow(cfg, s, t);
    RowsOwnLater(Do(cfg, s, t).tables, s.desk, d', j);
    ResultsOwnLater(s.flow.queues, s.desk, d', j);
    forall c | CallOn(d'.cancels, c, j) && Aims(d'.cancels[c].stage) ensures Mine(d', j, d'.cancels[c].stage.spool) {
      CallsStepDesk(cfg, s, t, j, c);
    }
  }

  lemma DeskFlow(cfg: Config, s: State, t: Step)
    requires Enabled(s, t) && IsDeskStep(t)
    ensures Do(cfg, s, t).flow == s.flow && Do(cfg, s, t).phase == s.phase
  {
    hide DoSubmit, DoWorker, DoLifecycle, DoDesk, SubmitEnabled, WorkerEnabled, LifecycleEnabled, DeskEnabled;
    DeskLeavesFlow(cfg, s, t);
  }

  /** A restart resumes the monitor of a row that it can watch. */
  ghost function MonitorsAfter(s: State, t: Step): map<JobId, Monitor>
    requires t.Reconcile? && Enabled(s, t)
  {
    var row := s.phase.todo[t.job];
    if Resumes(row, t.printerKnown) then s.desk.monitors[t.job := Monitor(row.spool.value, Sleeping)] else s.desk.monitors
  }

  lemma LifecycleDesk(cfg: Config, s: State, t: Step)
    requires Enabled(s, t) && IsLifecycleStep(t)
    ensures
      var d, d' := s.desk, Do(cfg, s, t).desk;
      && d'.entries == d.entries && d'.nextSpool == d.nextSpool
      && (d'.cancels == d.cancels || d'.cancels == map[])
      && (d'.cancelling == d.cancelling || d'.cancelling == {})
      && (t.Crash? ==> d'.cancels == map[] && d'.cancelling == {} && d'.monitors == map[])
      && (!t.Crash? ==> d'.cancels == d.cancels && d'.cancelling == d.cancelling)
      && (!t.Crash? && !t.Reconcile? ==> d'.monitors == d.monitors)
      && (t.Reconcile? ==> d'.monitors == MonitorsAfter(s, t))
    ensures Do(cfg, s, t).flow.queues == s.flow.queues || Do(cfg, s, t).flow.queues == map[]
  {
    hide Mutate, RestartChange, DoSubmit, DoWorker, DoDesk, SubmitEnabled, WorkerEnabled, DeskEnabled;
  }

  lemma LifecycleOwns(cfg: Config, s: State, t: Step, j: JobId)
    requires Inv(cfg, s) && Enabled(s, t) && IsLifecycleStep(t) && Owns(s, j)
    ensures Owns(Do(cfg, s, t), j)
  {
    hide Inv, Do, Enabled, RestartChange, Mutate;
    RowsStep(cfg, s, t, j);
    LifecycleDesk(cfg, s, t);
    if t.Reconcile? { TodoIsRow(cfg, s, t); }
  }

  lemma OwnsStep(cfg: Config, s: State, t: Step, j: JobId)
    requires Inv(cfg, s) && Enabled(s, t) && Owns(s, j)
    ensures Owns(Do(cfg, s, t), j)
  {
    hide Inv, Do, Enabled, Owns;
    if IsSubmitStep(t) {
      SubmitOwns(cfg, s, t, j);
    } else if IsWorkerStep(t) {
      WorkerOwns(cfg, s, t, j);
    } else if IsDeskStep(t) {
      DeskOwns(cfg, s, t, j);
    } else {
      LifecycleOwns(cfg, s, t, j);
    }
  }

  lemma {:induction false} OwnsRun(cfg: Config, s: State, steps: seq<Step>, j: JobId)
    requires ValidConfig(cfg) && Inv(cfg, s) && Runs(cfg, s, steps) && Owns(s, j)
    ensures Owns(After(cfg, s, steps), j)
    decreases |steps|
  {
    hide Inv, Do, Enabled, Owns;
    if steps != [] {
      OwnsStep(cfg, s, steps[0], j);
      StepKeepsInv(cfg, s, steps[0]);
      OwnsRun(cfg, Do(cfg, s, steps[0]), steps[1..], j);
    }
  }

  lemma InitOwns(j: JobId)
    ensures Owns(Init(), j)
  {
  }

  lemma ReachableOwns(cfg: Config, s: State, j: JobId)
    requires ValidConfig(cfg) && Reachable(cfg, s)
    ensures Owns(s, j)
  {
    hide Inv, Do, Enabled, Owns, Init;
    var steps :| Runs(cfg, Init(), steps) && After(cfg, Init(), steps) == s;
    InitInv(cfg);
    InitOwns(j);
    OwnsRun(cfg, Init(), steps, j);
  }

  /** A deletion takes its own job's entry out of the spooler and no other, in every reachable state. */
  lemma DeletesOwnEntry(cfg: Config, s: State, c: CallId)
    requires ValidConfig(cfg) && Reachable(cfg, s) && Enabled(s, CancelDelete(c, true))
    ensures
      var d, d' := s.desk, Do(cfg, s, CancelDelete(c, true)).desk;
      && d'.entries.Keys < d.entries.Keys
      && (forall id :: id in d.entries && id !in d'.entries ==> d.entries[id] == d.cancels[c].job)
      && (forall id :: id in d'.entries ==> d'.entries[id] == d.entries[id])
      && d'.deleted == d.deleted + {d.cancels[c].job}
  {
    hide Reachable, RowsOwn, MonitorOwns, ResultsOwn, DoSubmit, DoWorker, DoLifecycle, SubmitEnabled, WorkerEnabled, LifecycleEnabled;
    var call := s.desk.cancels[c];
    ReachableOwns(cfg, s, call.job);
    assert CallOn(s.desk.cancels, c, call.job) && Aims(call.stage);
    assert call.stage.spool !in s.desk.entries - {call.stage.spool};
  }

  /** A monitor asks about no entry but its own job's, in every reachable state. */
  lemma WatchesOwnEntry(cfg: Config, s: State, j: JobId)
    requires ValidConfig(cfg) && Reachable(cfg, s) && j in s.desk.monitors
    ensures s.desk.monitors[j].spool in s.desk.entries ==> s.desk.entries[s.desk.monitors[j].spool] == j
    ensures j in s.tables.active ==> s.tables.active[j].spool == Some(s.desk.monitors[j].spool)
  {
    hide Reachable, Inv;
    ReachableOwns(cfg, s, j);
    ReachableInv(cfg, s);
    EngineDesk.MonitorFacts(cfg, s, j);
  }

  // ------------------------------------------------------------------ open jobs are watched

  predicate OpenSpooled(t: Tables, j: JobId) {
    j in t.active && t.active[j].delivery == SpoolerAccepted
  }

  /** An open job that reached the spooler has its monitor. */
  predicate Attended(s: State, j: JobId) {
    OpenSpooled(s.tables, j) ==> j in s.desk.monitors
  }

  lemma SpooledByEdit(t: Tables, k: JobId, c: Change, ok: bool, j: JobId)
    requires OpenSpooled(Mutate(t, k, c, ok), j)
    ensures OpenSpooled(t, j) || (c.MarkSpooled? && k == j)
  {
  }

  /** A job becomes spooled by a settled answer of the provider or by a restart that resumes it. */
  lemma SpooledByStep(cfg: Config, s: State, t: Step, j: JobId)
    requires Inv(cfg, s) && Enabled(s, t) && OpenSpooled(Do(cfg, s, t).tables, j) && !OpenSpooled(s.tables, j)
    ensures j in Do(cfg, s, t).desk.monitors
  {
    hide Inv, Do, Enabled, Mutate, EditOf, Apply;
    if ChangesTables(t) {
      SpooledByTableStep(cfg, s, t, j);
    } else {
      EditsAreMutations(cfg, s, t);
      var e := EditOf(s, t);
      if e.Edit? {
        SpooledByEdit(s.tables, e.job, e.change, e.ok, j);
        SpooledEdits(cfg, s, t);
        SettleWatches(cfg, s, t);
      }
    }
  }

  lemma SettleWatches(cfg: Config, s: State, t: Step)
    requires Enabled(s, t) && t.WorkerSettle? && s.flow.queues[t.gen].worker.result.value.Spooled?
    ensures s.flow.queues[t.gen].worker.job in Do(cfg, s, t).desk.monitors
  {
    hide Do, Enabled, Mutate, ResultChange;
    EngineTokens.WorkerDo(cfg, s, t);
  }

  lemma SpooledByTableStep(cfg: Config, s: State, t: Step, j: JobId)
    requires Inv(cfg, s) && Enabled(s, t) && ChangesTables(t)
    requires OpenSpooled(Do(cfg, s, t).tables, j) && !OpenSpooled(s.tables, j)
    ensures j in Do(cfg, s, t).desk.monitors
  {
    hide Inv, Do, Enabled;
    TablesAfterIs(cfg, s, t);
    if t.SubmitActivate? {
      NewIsUnsent(cfg, s, t);
    } else if t.Reconcile? {
      TodoIsConsistent(cfg, s, t);
      LifecycleDesk(cfg, s, t);
    }
  }

  lemma NewIsUnsent(cfg: Config, s: State, t: Step)
    requires Inv(cfg, s) && Enabled(s, t) && t.SubmitActivate?
    ensures t.job in s.tables.repo && s.tables.repo[t.job].delivery == RequestAccepted
  {
    hide Tokens, History, Budget, Keys, Watch, Order, Phases;
    assert RowOk(s.tables, s.flow.place, s.flow.requests, s.phase, t.job, s.tables.repo[t.job]);
  }

  lemma TodoIsConsistent(cfg: Config, s: State, t: Step)
    requires Inv(cfg, s) && Enabled(s, t) && t.Reconcile?
    ensures s.phase.Reconciling? && t.job in s.phase.todo
    ensures Consistent(s.phase.todo[t.job]) && !IsTerminal(s.phase.todo[t.job].status)
  {
    hide Tokens, History, Budget, Keys, Watch, Order;
    TodoIsRow(cfg, s, t);
    assert RowOk(s.tables, s.flow.place, s.flow.requests, s.phase, t.job, s.tables.repo[t.job]);
  }

  /** A monitor goes away only with its job, with the process, or by stopping. */
  lemma MonitorStays(cfg: Config, s: State, t: Step, j: JobId)
    requires Enabled(s, t) && t != MonitorStop(j) && !t.Crash? && j in s.desk.monitors
    ensures j in Do(cfg, s, t).desk.monitors || j !in Do(cfg, s, t).tables.active
  {
    hide Mutate, DoSubmit, DoWorker, DoLifecycle, SubmitEnabled, WorkerEnabled, LifecycleEnabled;
    if IsSubmitStep(t) {
      SubmitFrame(cfg, s, t);
    } else if IsWorkerStep(t) {
      WorkerDesk(cfg, s, t);
    } else if IsLifecycleStep(t) {
      LifecycleDesk(cfg, s, t);
    }
  }

  lemma AttendedStep(cfg: Config, s: State, t: Step, j: JobId)
    requires Inv(cfg, s) && Enabled(s, t) && t != MonitorStop(j) && Attended(s, j)
    ensures Attended(Do(cfg, s, t), j)
  {
    hide Inv, Do, Enabled;
    if t.Crash? {
      TablesAfterIs(cfg, s, t);
    } else if !OpenSpooled(s.tables, j) {
      if OpenSpooled(Do(cfg, s, t).tables, j) { SpooledByStep(cfg, s, t, j); }
    } else {
      MonitorStays(cfg, s, t, j);
    }
  }

  lemma {:induction false} AttendedRun(cfg: Config, s: State, steps: seq<Step>, j: JobId)
    requires ValidConfig(cfg) && Inv(cfg, s) && Runs(cfg, s, steps) && MonitorStop(j) !in steps && Attended(s, j)
    ensures Attended(After(cfg, s, steps), j)
    decreases |steps|
  {
    hide Inv, Do, Enabled, Attended;
    if steps != [] {
      AttendedStep(cfg, s, steps[0], j);
      StepKeepsInv(cfg, s, steps[0]);
      AttendedRun(cfg, Do(cfg, s, steps[0]), steps[1..], j);
    }
  }

  /** Unless its monitor stopped (its provider is gone, or the agent shuts down), every open job that
      reached the spooler is watched, on its own spooler id, also after crashes and restarts. */
  lemma SpooledJobsAreWatched(cfg: Config, steps: seq<Step>, j: JobId)
    requires ValidConfig(cfg) && Runs(cfg, Init(), steps) && MonitorStop(j) !in steps
    requires j in After(cfg, Init(), steps).tables.active
    requires After(cfg, Init(), steps).tables.active[j].delivery == SpoolerAccepted
    ensures
      var s := After(cfg, Init(), steps);
      && j in s.desk.monitors && s.tables.active[j].spool == Some(s.desk.monitors[j].spool)
      && (s.desk.monitors[j].spool in s.desk.entries ==> s.desk.entries[s.desk.monitors[j].spool] == j)
  {
    hide Inv, Runs, After;
    InitInv(cfg);
    AttendedRun(cfg, Init(), steps, j);
    WatchesOwnEntry(cfg, After(cfg, Init(), steps), j);
  }

  // ------------------------------------------------------------------ who is being cancelled

  ghost predicate UnderWay(d: Desk, j: JobId) {
    exists c :: CallOn(d.cancels, c, j) && EngineCancel.Marked(d.cancels[c].stage)
  }

  ghost predicate MarkedTrue(d: Desk, j: JobId) {
    j in d.cancelling ==> UnderWay(d, j)
  }

  lemma MarkStep(cfg: Config, s: State, t: Step, j: JobId)
    requires Enabled(s, t) && IsDeskStep(t) && MarkedTrue(s.desk, j)
    ensures MarkedTrue(Do(cfg, s, t).desk, j)
  {
    hide Mutate, JobRead, DoSubmit, DoWorker, DoLifecycle, SubmitEnabled, WorkerEnabled, LifecycleEnabled;
    var d, d' := s.desk, Do(cfg, s, t).desk;
    if j in d'.cancelling {
      if j in d.cancelling {
        var c :| CallOn(d.cancels, c, j) && EngineCancel.Marked(d.cancels[c].stage);
        assert CallOn(d'.cancels, c, j) && EngineCancel.Marked(d'.cancels[c].stage);
      } else {
        assert CallOn(d'.cancels, t.call, j) && EngineCancel.Marked(d'.cancels[t.call].stage);
      }
    }
  }

  lemma MarkedStep(cfg: Config, s: State, t: Step, j: JobId)
    requires Enabled(s, t) && MarkedTrue(s.desk, j)
    ensures MarkedTrue(Do(cfg, s, t).desk, j)
  {
    hide Do, Enabled;
    if IsSubmitStep(t) {
      SubmitFrame(cfg, s, t);
    } else if IsWorkerStep(t) {
      WorkerDesk(cfg, s, t);
    } else if IsDeskStep(t) {
      MarkStep(cfg, s, t, j);
    } else {
      LifecycleDesk(cfg, s, t);
    }
  }

  lemma {:induction false} MarkedRun(cfg: Config, s: State, steps: seq<Step>, j: JobId)
    requires Runs(cfg, s, steps) && MarkedTrue(s.desk, j)
    ensures MarkedTrue(After(cfg, s, steps).desk, j)
    decreases |steps|
  {
    hide Do, Enabled, MarkedTrue;
    if steps != [] {
      MarkedStep(cfg, s, steps[0], j);
      MarkedRun(cfg, Do(cfg, s, steps[0]), steps[1..], j);
    }
  }

  /** In every reachable state a marked job has a cancellation under way that went to the spooler; so
      a mark never outlives the cancellations of its job. */
  lemma MarksAreLive(cfg: Config, s: State, j: JobId)
    requires Reachable(cfg, s) && j in s.desk.cancelling
    ensures exists c :: CallOn(s.desk.cancels, c, j) && EngineCancel.Marked(s.desk.cancels[c].stage)
  {
    hide Do, Enabled;
    var steps :| Runs(cfg, Init(), steps) && After(cfg, Init(), steps) == s;
    MarkedRun(cfg, Init(), steps, j);
  }

  /** An entry that vanishes while nobody cancels its job is recorded as printed, not as cancelled. */
  lemma VanishedUncancelledIsPrinted(cfg: Config, s: State, j: JobId, steps: seq<Step>)
    requires ValidConfig(cfg) && Reachable(cfg, s)
    requires j in s.desk.monitors && s.desk.monitors[j].pc == Observed(Vanished)
    requires forall c :: !CallOn(s.desk.cancels, c, j)
    requires Enabled(s, MonitorDecide(j)) && Runs(cfg, Do(cfg, s, MonitorDecide(j)), steps)
    requires forall i :: 0 <= i < |steps| ==> Leaves(steps[i], j)
    requires j in After(cfg, Do(cfg, s, MonitorDecide(j)), steps).tables.active
    ensures
      var s' := After(cfg, Do(cfg, s, MonitorDecide(j)), steps);
      && Enabled(s', MonitorApply(j, true))
      && var t := Do(cfg, s', MonitorApply(j, true)).tables;
         j in t.repo && t.repo[j].completion == Some(SpoolerJobRetired) && t.repo[j].status != Cancelled
  {
    hide Do, Enabled, Runs, After, Leaves, Reachable;
    if j in s.desk.cancelling { MarksAreLive(cfg, s, j); }
    DecisionRetiresIff(cfg, s, j, steps);
  }
}
