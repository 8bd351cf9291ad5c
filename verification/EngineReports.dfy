/**
 What the stored record says after the engine has learnt something about a job, over every
 reachable state: answers of a provider, timeouts, reports of the spooler, shutdown, restart.
 */
module EngineReports {
  import opened Wrappers
  import opened Jobs
  import opened Reports
  import opened EngineModel
  import opened EngineInvariant
  import opened EngineSubmit
  import opened EngineLifecycle
  import opened EngineSafety
  import opened EngineOutcomes
  import opened EngineCancel
  import opened EngineTruth

  /** The record of an active job, or the stored one of a job that has ended. */
  function RecordOf(t: Tables, j: JobId): Job
    requires j in t.active || j in t.repo
  {
    if j in t.active then t.active[j] else t.repo[j]
  }

  lemma MutateRecord(t: Tables, j: JobId, c: Change)
    requires j in t.active && j in t.repo && !IsTerminal(t.active[j].status)
    ensures
      var t' := Mutate(t, j, c, true);
      && j in t'.repo && RecordOf(t', j) == Apply(c, t.active[j])
      && (j in t'.active <==> !IsTerminal(Apply(c, t.active[j]).status))
  {
    hide Apply;
  }

  // ------------------------------------------------------------------ the provider's answer

  lemma CallingFacts(cfg: Config, s: State, g: Gen)
    requires Inv(cfg, s) && g in s.flow.queues && s.flow.queues[g].worker.Waits? && !s.flow.queues[g].worker.timedOut
    ensures Logged(s.trace.log, s.flow.queues[g].worker.job)
    ensures
      var j := s.flow.queues[g].worker.job;
      j in s.tables.active ==>
        && s.tables.active[j].status == Queued && s.tables.active[j].delivery == Submitting
        && s.tables.active[j].id == j && j in s.tables.repo
  {
    hide Budget, Keys, Watch, Phases, Order;
    WorkerFacts(cfg, s, g);
    var j := s.flow.queues[g].worker.job;
    assert j in s.tables.active ==> ActiveOk(s.tables, s.flow.place, j, s.tables.active[j]);
  }

  /** The answer of `provider.submit` is recorded as it was given, and a spooled job is watched under
      the spooler id that the provider returned. */
  lemma AnswerIsRecorded(cfg: Config, s: State, g: Gen)
    requires ValidConfig(cfg) && Reachable(cfg, s) && Enabled(s, WorkerSettle(g, true))
    requires s.flow.queues[g].worker.job in s.tables.active
    ensures
      var j, r, s' := s.flow.queues[g].worker.job, s.flow.queues[g].worker.result.value, Do(cfg, s, WorkerSettle(g, true));
      && Logged(s.trace.log, j) && j in s'.tables.repo
      && Answered(r, s.tables.active[j], RecordOf(s'.tables, j))
      && (j in s'.tables.active <==> r.Spooled?)
      && (r.Spooled? ==> j in s'.desk.monitors && s'.desk.monitors[j] == Monitor(r.spool, Sleeping))
  {
    hide Inv, Reachable, Logged, Mutate, Apply, ResultChange, Do, Enabled;
    ReachableInv(cfg, s);
    EngineTokens.WorkerDo(cfg, s, WorkerSettle(g, true));
    CallingFacts(cfg, s, g);
    var j, r := s.flow.queues[g].worker.job, s.flow.queues[g].worker.result.value;
    AnswerSays(r, s.tables.active[j]);
    MutateRecord(s.tables, j, ResultChange(r));
  }

  /** A call that outlives its timeout was made, so the record says TIMEOUT with outcome UNKNOWN; and
      a provider that panics is INTERNAL, UNKNOWN. */
  lemma TimeoutSaysUnknown(cfg: Config, s: State, g: Gen)
    requires ValidConfig(cfg) && Reachable(cfg, s) && Enabled(s, WorkerTimeout(g, true))
    requires s.flow.queues[g].worker.job in s.tables.active
    ensures
      var j, s' := s.flow.queues[g].worker.job, Do(cfg, s, WorkerTimeout(g, true));
      && Logged(s.trace.log, j) && j in s'.tables.repo && j !in s'.tables.active
      && FailedAs(s'.tables.repo[j], CodeTimeout, Unknown)
  {
    hide Inv, Reachable, Logged, Do, Enabled;
    ReachableInv(cfg, s);
    EngineTokens.WorkerDo(cfg, s, WorkerTimeout(g, true));
    CallingFacts(cfg, s, g);
  }

  // ------------------------------------------------------------------ spooler reports

  lemma MonitoredIsWatched(cfg: Config, s: State, j: JobId)
    requires Inv(cfg, s) && j in s.tables.active && j in s.desk.monitors
    ensures Watched(s.tables.active[j]) && j in s.tables.repo
  {
    assert ActiveOk(s.tables, s.flow.place, j, s.tables.active[j]);
    EngineDesk.MonitorFacts(cfg, s, j);
  }

  lemma DecideStep(cfg: Config, s: State, j: JobId)
    requires Enabled(s, MonitorDecide(j))
    ensures
      var report := s.desk.monitors[j].pc.state;
      DecidedOn(Do(cfg, s, MonitorDecide(j)), j, ChangeFor(report, j in s.desk.cancelling))
  {
    hide ChangeFor;
  }

  lemma ApplyStep(cfg: Config, s: State, j: JobId, c: Change)
    requires DecidedOn(s, j, c)
    ensures Enabled(s, MonitorApply(j, true))
    ensures Do(cfg, s, MonitorApply(j, true)).tables == Mutate(s.tables, j, c, true)
  {
    hide Mutate;
  }

  /**
   Every spooler report, from the moment the monitor looks at it and through everything else
   that happens to the job before it is recorded: the record ends with exactly what the report
   said. Only an entry that vanished is read differently while the job is being cancelled.
   */
  lemma ReportIsRecorded(cfg: Config, s: State, j: JobId, steps: seq<Step>)
    requires ValidConfig(cfg) && Reachable(cfg, s) && Enabled(s, MonitorDecide(j))
    requires Runs(cfg, Do(cfg, s, MonitorDecide(j)), steps)
    requires forall i :: 0 <= i < |steps| ==> Leaves(steps[i], j)
    requires j in After(cfg, Do(cfg, s, MonitorDecide(j)), steps).tables.active
    ensures
      var report, s' := s.desk.monitors[j].pc.state, After(cfg, Do(cfg, s, MonitorDecide(j)), steps);
      && Enabled(s', MonitorApply(j, true))
      && var t := Do(cfg, s', MonitorApply(j, true)).tables;
         && j in t.repo && Reported(report, j in s.desk.cancelling, s'.tables.active[j], RecordOf(t, j))
         && (j !in t.active <==> report.FailedIn? || report.DeletedIn? || report.Printed? || report.Vanished?)
  {
    hide Inv, Runs, After, Leaves, Reachable, Do, Enabled, Mutate, Apply, ChangeFor, DecidedOn;
    DecideEnabled(s, j);
    var report, c := s.desk.monitors[j].pc.state, ChangeFor(s.desk.monitors[j].pc.state, j in s.desk.cancelling);
    ReachableInv(cfg, s);
    StepKeepsInv(cfg, s, MonitorDecide(j));
    DecideStep(cfg, s, j);
    DecisionStaysRun(cfg, Do(cfg, s, MonitorDecide(j)), steps, j, c);
    var s' := After(cfg, Do(cfg, s, MonitorDecide(j)), steps);
    DecidedIsMonitored(s', j, c);
    MonitoredIsWatched(cfg, s', j);
    ApplyStep(cfg, s', j, c);
    ReportSays(report, j in s.desk.cancelling, s'.tables.active[j]);
    MutateRecord(s'.tables, j, c);
  }

  lemma DecideEnabled(s: State, j: JobId)
    requires Enabled(s, MonitorDecide(j))
    ensures j in s.desk.monitors && s.desk.monitors[j].pc.Observed?
  {
  }

  lemma DecidedIsMonitored(s: State, j: JobId, c: Change)
    requires DecidedOn(s, j, c)
    ensures j in s.desk.monitors
  {
  }

  // ------------------------------------------------------------------ failures of the engine's own

  /** A failure is recorded as it happened: `submit` and a worker without a provider record the error they
      got, shutdown records PRINT_FAILED with NOT_PRINTED. */
  lemma FailureIsRecorded(cfg: Config, s: State, t: Step, j: JobId)
    requires ValidConfig(cfg) && Reachable(cfg, s) && Enabled(s, t) && j in s.tables.active
    requires (t.SubmitFail? || t.ShutdownFail? || t.WorkerNoProvider?) && EditOf(s, t).job == j && t.ok
    ensures
      var t' := Do(cfg, s, t).tables;
      && j in t'.repo && j !in t'.active
      && (t.SubmitFail? ==> FailedWith(t'.repo[j], s.flow.place[j].pc.error))
      && (t.WorkerNoProvider? ==> FailedWith(t'.repo[j], t.error))
      && (t.ShutdownFail? ==> FailedAs(t'.repo[j], CodePrintFailed, NotPrinted))
  {
    hide Inv, Reachable, Do, Enabled;
    ReachableInv(cfg, s);
    ActiveFacts(cfg, s, j);
    EditsAreMutations(cfg, s, t);
    FailSays(s.tables.active[j], EditOf(s, t).change.error);
  }

  lemma FailSays(job: Job, e: PrintError)
    requires !IsTerminal(job.status)
    ensures FailedWith(Apply(Fail(e), job), e)
  {
  }

  /** A successful deletion in the spooler ends the open record as CANCELLED, whatever came between. */
  lemma CancelIsRecorded(cfg: Config, s: State, c: CallId)
    requires ValidConfig(cfg) && Reachable(cfg, s) && Enabled(s, CancelSettle(c, true))
    requires s.desk.cancels[c].job in s.tables.active
    ensures
      var j, t' := s.desk.cancels[c].job, Do(cfg, s, CancelSettle(c, true)).tables;
      && j in t'.repo && j !in t'.active && t'.repo[j].status == Cancelled
      && t'.repo[j].error.None? && t'.repo[j].completion.None? && SameJob(s.tables.active[j], t'.repo[j])
  {
    hide Inv, Reachable, DoSubmit, DoWorker, SubmitEnabled, WorkerEnabled;
    ReachableInv(cfg, s);
    ActiveFacts(cfg, s, s.desk.cancels[c].job);
  }

  /** Shutdown's snapshot holds exactly the jobs that are REQUEST_ACCEPTED at that moment. */
  lemma SnapshotIsUnsent(cfg: Config, s: State, j: JobId)
    requires Enabled(s, ShutdownSnapshot)
    ensures
      j in Do(cfg, s, ShutdownSnapshot).doomed <==>
      j in s.doomed || (j in s.tables.active && s.tables.active[j].delivery == RequestAccepted)
  {
    hide DoSubmit, DoWorker, DoDesk, SubmitEnabled, WorkerEnabled, DeskEnabled;
  }

  /** Why a submit call is about to fail: what it was told, or the one of three limits it ran into. */
  ghost predicate FailsFor(cfg: Config, s: State, t: Step, j: JobId, e: PrintError)
    requires Enabled(s, t)
  {
    || t == SubmitReject(j, e)
    || (&& t.BudgetSwap? && t.job == j
        && s.flow.place[j].pc.seen + s.flow.requests[j].size > cfg.budgetLimit
        && e.code == CodeQueueFull && e.outcome == Unstated && e.printer == Some(s.flow.place[j].pc.printer))
    || (&& t.SubmitSend? && t.job == j
        && s.flow.queues[s.flow.place[j].pc.gen].worker.Stopped?
        && e.code == CodeUnsupportedOperation && e.outcome == Unstated)
    || (&& t.SubmitSend? && t.job == j
        && !s.flow.queues[s.flow.place[j].pc.gen].worker.Stopped?
        && |s.flow.queues[s.flow.place[j].pc.gen].items| >= cfg.capacity
        && e.code == CodeQueueFull && e.outcome == Unstated
        && e.printer == Some(s.flow.queues[s.flow.place[j].pc.gen].printer))
  }

  predicate AboutToFail(f: Flow, j: JobId, e: PrintError) {
    j in f.place && f.place[j] == AtSubmit(Failing(e))
  }

  lemma WorkerFailsNobody(cfg: Config, s: State, t: Step, j: JobId, e: PrintError)
    requires Enabled(s, t) && IsWorkerStep(t) && AboutToFail(Do(cfg, s, t).flow, j, e)
    ensures AboutToFail(s.flow, j, e)
  {
    hide Mutate, Release, ResultChange, Do, Enabled;
    EngineTokens.WorkerDo(cfg, s, t);
  }

  lemma SwapFails(cfg: Config, s: State, k: JobId, spurious: bool, j: JobId, e: PrintError)
    requires ValidConfig(cfg) && SubmitEnabled(s, BudgetSwap(k, spurious))
    requires AboutToFail(Swap(cfg, s, k, spurious).flow, j, e) && !AboutToFail(s.flow, j, e)
    ensures Enabled(s, BudgetSwap(k, spurious)) && FailsFor(cfg, s, BudgetSwap(k, spurious), j, e)
  {
  }

  lemma SendFails(cfg: Config, s: State, k: JobId, j: JobId, e: PrintError)
    requires SubmitEnabled(s, SubmitSend(k))
    requires AboutToFail(TrySend(cfg, s, k).flow, j, e) && !AboutToFail(s.flow, j, e)
    ensures Enabled(s, SubmitSend(k)) && FailsFor(cfg, s, SubmitSend(k), j, e)
  {
    hide Release;
  }

  lemma SubmitFailsFor(cfg: Config, s: State, t: Step, j: JobId, e: PrintError)
    requires ValidConfig(cfg) && Enabled(s, t) && IsSubmitStep(t)
    requires AboutToFail(Do(cfg, s, t).flow, j, e) && !AboutToFail(s.flow, j, e)
    ensures FailsFor(cfg, s, t, j, e)
  {
    hide Mutate, Release, Do, Enabled, Swap, TrySend;
    EngineTokens.SubmitDo(cfg, s, t);
    if t.BudgetSwap? {
      SwapFails(cfg, s, t.job, t.spurious, j, e);
    } else if t.SubmitSend? {
      SendFails(cfg, s, t.job, j, e);
    }
  }

  /** A submit call fails only for a reason, and with the code of that reason: what the caller or a
      renderer told it, a budget that is spent, a queue that is full, or an agent that shuts down. */
  lemma FailuresHaveReasons(cfg: Config, s: State, t: Step, j: JobId, e: PrintError)
    requires ValidConfig(cfg) && Enabled(s, t)
    requires AboutToFail(Do(cfg, s, t).flow, j, e) && !AboutToFail(s.flow, j, e)
    ensures FailsFor(cfg, s, t, j, e)
  {
    hide Mutate, RestartChange, DoSubmit, DoWorker, SubmitEnabled, WorkerEnabled, FailsFor;
    if IsSubmitStep(t) {
      SubmitFailsFor(cfg, s, t, j, e);
    } else if IsWorkerStep(t) {
      WorkerFailsNobody(cfg, s, t, j, e);
    }
  }

  lemma ActiveFacts(cfg: Config, s: State, j: JobId)
    requires Inv(cfg, s) && j in s.tables.active
    ensures !IsTerminal(s.tables.active[j].status) && s.tables.active[j].id == j && j in s.tables.repo
    ensures s.tables.active[j].error.None? && s.tables.active[j].completion.None?
  {
    assert ActiveOk(s.tables, s.flow.place, j, s.tables.active[j]);
  }

  /** A leftover row that is not watched again is settled by its delivery stage, with the code and
      outcome that stage calls for; it is watched again iff it is spooled and its printer is known. */
  lemma RestartIsRecorded(cfg: Config, s: State, j: JobId, known: bool)
    requires ValidConfig(cfg) && Reachable(cfg, s) && Enabled(s, Reconcile(j, known, true))
    ensures
      var row, s' := s.phase.todo[j], Do(cfg, s, Reconcile(j, known, true));
      if row.delivery == SpoolerAccepted && known then
        && j in s'.tables.active && s'.tables.active[j] == row && row.spool.Some?
        && j in s'.desk.monitors && s'.desk.monitors[j] == Monitor(row.spool.value, Sleeping)
      else
        j !in s'.tables.active && j in s'.tables.repo && Restarted(row, s'.tables.repo[j])
  {
    hide Inv, Reachable, DoSubmit, SubmitEnabled, DoWorker, WorkerEnabled, DoDesk, DeskEnabled, Apply, RestartChange;
    ReachableInv(cfg, s);
    TodoIsPlaced(cfg, s, j);
    JobFacts(cfg, s, j);
    RestartSaysFields(s.phase.todo[j]);
  }

  /** A record that says COMPLETED is one of a job that was submitted. */
  lemma CompletedWasSubmitted(cfg: Config, s: State, j: JobId)
    requires ValidConfig(cfg) && Reachable(cfg, s)
    requires j in s.tables.repo && s.tables.repo[j].status == Completed
    ensures Logged(s.trace.log, j)
  {
    hide Inv, Reachable, Logged;
    ReachableInv(cfg, s);
    RecordsAreConsistent(cfg, s, j);
    SpooledIsLogged(cfg, s, j);
  }
}
