/**
 What a record says about whether its job was printed, against the submission log: a cancelled
 job was either never submitted or reached the spooler, and NOT_PRINTED is said only of a job
 that is never submitted, except where the engine repeats somebody else's word.
 */
module EngineTruth {
  import opened Wrappers
  import opened Jobs
  import opened EngineModel
  import opened EngineInvariant
  import opened EngineSubmit
  import opened EngineLifecycle
  import opened EngineSafety
  import opened EngineOutcomes
  import opened EngineCancel

  // ------------------------------------------------------------------ handed over for good

  lemma SwapPlaces(cfg: Config, s: State, k: JobId, spurious: bool, j: JobId)
    requires SubmitEnabled(s, BudgetSwap(k, spurious)) && j in s.flow.place && !s.flow.place[j].AtSubmit?
    ensures j in Swap(cfg, s, k, spurious).flow.place && Swap(cfg, s, k, spurious).flow.place[j] == s.flow.place[j]
  {
  }

  lemma SendPlaces(cfg: Config, s: State, k: JobId, j: JobId)
    requires SubmitEnabled(s, SubmitSend(k)) && j in s.flow.place && !s.flow.place[j].AtSubmit?
    ensures j in TrySend(cfg, s, k).flow.place && TrySend(cfg, s, k).flow.place[j] == s.flow.place[j]
  {
    hide Release;
  }

  lemma SenderPlaces(s: State, k: JobId, j: JobId)
    requires SubmitEnabled(s, SubmitSender(k)) && j in s.flow.place && !s.flow.place[j].AtSubmit?
    ensures j in FetchSender(s.flow, k).place && FetchSender(s.flow, k).place[j] == s.flow.place[j]
  {
  }

  /** Submit calls only move jobs that are at their submit call. */
  lemma SubmitPlaces(cfg: Config, s: State, t: Step, j: JobId)
    requires Inv(cfg, s) && IsSubmitStep(t) && Enabled(s, t) && j in s.flow.place && !s.flow.place[j].AtSubmit?
    ensures j in Do(cfg, s, t).flow.place && Do(cfg, s, t).flow.place[j] == s.flow.place[j]
  {
    hide Inv, Do, Enabled, Mutate, Release, Swap, FetchSender, TrySend;
    EngineTokens.SubmitDo(cfg, s, t);
    FreshId(cfg, s);
    if t.BudgetSwap? {
      SwapPlaces(cfg, s, t.job, t.spurious, j);
    } else if t.SubmitSender? {
      SenderPlaces(s, t.job, j);
    } else if t.SubmitSend? {
      SendPlaces(cfg, s, t.job, j);
    }
  }

  /** A worker's step moves the job that it holds or takes, and after a call hands it over. */
  lemma WorkerMoves(cfg: Config, s: State, t: Step, j: JobId)
    requires IsWorkerStep(t) && WorkerEnabled(s, t) && j in s.flow.place
    ensures j in DoWorker(cfg, s, t).flow.place
    ensures
      var q, to := s.flow.queues[t.gen], DoWorker(cfg, s, t).flow.place[j];
      || to == s.flow.place[j] || to.Handed?
      || (q.items != [] && j == q.items[0]) || ((q.worker.Has? || q.worker.Took?) && j == q.worker.job)
  {
    hide Mutate, Release, ResultChange, Call, Return;
    if t.WorkerCall? {
      CallPlaces(s, t.gen);
    } else if t.ProviderReturn? {
      ReturnPlaces(s, t.gen, t.result);
    }
  }

  lemma CallPlaces(s: State, g: Gen)
    requires WorkerEnabled(s, WorkerCall(g))
    ensures
      var q := s.flow.queues[g];
      Call(s, g).flow.place == s.flow.place[q.worker.job := Calling(g, q.printer)]
  {
  }

  lemma ReturnPlaces(s: State, g: Gen, r: SubmitResult)
    requires WorkerEnabled(s, ProviderReturn(g, r))
    ensures Return(s, g, r).flow.place == s.flow.place
  {
    hide Release;
  }

  /** No worker touches a job that has left it. */
  lemma WorkerPlaces(cfg: Config, s: State, t: Step, j: JobId)
    requires Inv(cfg, s) && IsWorkerStep(t) && Enabled(s, t) && j in s.flow.place && s.flow.place[j].Handed?
    ensures j in Do(cfg, s, t).flow.place && Do(cfg, s, t).flow.place[j].Handed?
  {
    hide Inv, Do, Enabled, DoWorker;
    EngineTokens.WorkerDo(cfg, s, t);
    WorkerMoves(cfg, s, t, j);
    WorkerFacts(cfg, s, t.gen);
  }

  lemma HandedStays(cfg: Config, s: State, t: Step, j: JobId)
    requires Inv(cfg, s) && Enabled(s, t) && j in s.flow.place && s.flow.place[j].Handed?
    ensures j in Do(cfg, s, t).flow.place && Do(cfg, s, t).flow.place[j].Handed?
  {
    hide Inv, DoSubmit, DoWorker, DoDesk, SubmitEnabled, WorkerEnabled, DeskEnabled, Mutate, RestartChange;
    if IsSubmitStep(t) {
      SubmitPlaces(cfg, s, t, j);
    } else if IsWorkerStep(t) {
      WorkerPlaces(cfg, s, t, j);
    } else if IsDeskStep(t) {
      DeskLeavesFlow(cfg, s, t);
    }
  }

  // ------------------------------------------------------------------ cancelled records

  /** A cancellation that goes to the spooler is one of a job that was handed over. */
  predicate AimsAtSpooler(st: CancelStage) {
    st.InSpooler? || st.Marking? || st.Deleted?
  }

  ghost predicate CallsTrue(s: State, j: JobId) {
    forall c :: CallOn(s.desk.cancels, c, j) && AimsAtSpooler(s.desk.cancels[c].stage) ==>
      j in s.flow.place && s.flow.place[j].Handed?
  }

  predicate CancelledTrue(s: State, j: JobId) {
    j in s.tables.repo && s.tables.repo[j].status == Cancelled ==>
      || (s.tables.repo[j].delivery == RequestAccepted && NeverAgain(s, j))
      || s.tables.repo[j].delivery == SpoolerAccepted
  }

  lemma ReadIsHanded(cfg: Config, s: State, j: JobId, fromStore: bool)
    requires Inv(cfg, s) && JobRead(s.tables, j, fromStore).Some?
    requires JobRead(s.tables, j, fromStore).value.delivery == SpoolerAccepted
    ensures j in s.flow.place && s.flow.place[j].Handed?
  {
    assert j in s.tables.active ==> ActiveOk(s.tables, s.flow.place, j, s.tables.active[j]);
    assert j in s.tables.repo ==> RowOk(s.tables, s.flow.place, s.flow.requests, s.phase, j, s.tables.repo[j]);
  }

  /** A call that goes to the spooler did so before, or has just read a spooled record. */
  lemma DeskCall(cfg: Config, s: State, t: Step, j: JobId, c: CallId)
    requires IsDeskStep(t) && DeskEnabled(s, t)
    requires CallOn(DoDesk(cfg, s, t).desk.cancels, c, j) && AimsAtSpooler(DoDesk(cfg, s, t).desk.cancels[c].stage)
    ensures
      || (CallOn(s.desk.cancels, c, j) && AimsAtSpooler(s.desk.cancels[c].stage))
      || (&& t.CancelRead? && t.job == j && JobRead(s.tables, j, t.fromStore).Some?
          && JobRead(s.tables, j, t.fromStore).value.delivery == SpoolerAccepted)
  {
    hide Mutate, JobRead;
  }

  lemma DeskCalls(cfg: Config, s: State, t: Step, j: JobId)
    requires Inv(cfg, s) && IsDeskStep(t) && Enabled(s, t) && CallsTrue(s, j)
    ensures CallsTrue(Do(cfg, s, t), j)
  {
    hide Inv, Mutate, JobRead, DoDesk, DeskEnabled, DoSubmit, DoWorker, DoLifecycle, SubmitEnabled, WorkerEnabled, LifecycleEnabled;
    var s' := Do(cfg, s, t);
    DeskLeavesFlow(cfg, s, t);
    forall c | CallOn(s'.desk.cancels, c, j) && AimsAtSpooler(s'.desk.cancels[c].stage)
      ensures j in s.flow.place && s.flow.place[j].Handed?
    {
      DeskCall(cfg, s, t, j, c);
      if !CallOn(s.desk.cancels, c, j) || !AimsAtSpooler(s.desk.cancels[c].stage) {
        ReadIsHanded(cfg, s, j, t.fromStore);
      }
    }
  }

  lemma OtherCalls(cfg: Config, s: State, t: Step)
    requires Enabled(s, t) && !IsDeskStep(t)
    ensures Do(cfg, s, t).desk.cancels == if t.Crash? then map[] else s.desk.cancels
  {
    hide Mutate, Release, RestartChange, ResultChange, Swap, TrySend, FetchSender;
    if IsWorkerStep(t) { EngineTokens.WorkerDo(cfg, s, t); }
    if IsSubmitStep(t) { SubmitFrame(cfg, s, t); }
  }

  lemma CallsStep(cfg: Config, s: State, t: Step, j: JobId)
    requires Inv(cfg, s) && Enabled(s, t) && CallsTrue(s, j)
    ensures CallsTrue(Do(cfg, s, t), j)
  {
    hide Inv, Do, Enabled;
    if IsDeskStep(t) {
      DeskCalls(cfg, s, t, j);
    } else {
      OtherCalls(cfg, s, t);
      if j in s.flow.place && s.flow.place[j].Handed? { HandedStays(cfg, s, t, j); }
    }
  }

  /** The record that ends in `Cancelled`, and why its delivery stage is what it is. */
  lemma CancelEdits(cfg: Config, s: State, t: Step, j: JobId)
    requires Inv(cfg, s) && Enabled(s, t) && CallsTrue(s, j)
    requires EditOf(s, t).Edit? && EditOf(s, t).job == j && j in s.tables.active
    requires Apply(EditOf(s, t).change, s.tables.active[j]).status == Cancelled
    ensures
      var after := Apply(EditOf(s, t).change, s.tables.active[j]);
      && after.delivery == s.tables.active[j].delivery
      && (after.delivery == RequestAccepted || after.delivery == SpoolerAccepted)
  {
    hide Inv;
    OpenActive(cfg, s, j);
    HandedIsSpooled(cfg, s, j);
    if t.MonitorApply? {
      EngineDesk.MonitorFacts(cfg, s, j);
    } else if t.CancelSettle? {
      assert CallOn(s.desk.cancels, t.call, j) && AimsAtSpooler(s.desk.cancels[t.call].stage);
    }
  }

  lemma HandedIsSpooled(cfg: Config, s: State, j: JobId)
    requires Inv(cfg, s) && j in s.tables.active
    ensures j in s.flow.place && (s.flow.place[j].Handed? ==> s.tables.active[j].delivery == SpoolerAccepted)
  {
    assert ActiveOk(s.tables, s.flow.place, j, s.tables.active[j]);
  }

  lemma RestartNeverCancels(row: Job)
    requires Consistent(row) && !IsTerminal(row.status)
    ensures Apply(RestartChange(row), row).status != Cancelled
  {
  }

  /** A step that cancels a record leaves it in one of the two truthful forms. */
  lemma NewlyCancelled(cfg: Config, s: State, t: Step, j: JobId)
    requires ValidConfig(cfg) && Inv(cfg, s) && Enabled(s, t) && !ChangesTables(t) && CallsTrue(s, j)
    requires EditOf(s, t).Edit? && EditOf(s, t).job == j && j in s.tables.active
    requires Apply(EditOf(s, t).change, s.tables.active[j]).status == Cancelled
    ensures
      var d := Apply(EditOf(s, t).change, s.tables.active[j]).delivery;
      d == SpoolerAccepted || (d == RequestAccepted && NeverAgain(Do(cfg, s, t), j))
  {
    hide Inv, Do, Enabled, Apply, EditOf;
    CancelEdits(cfg, s, t, j);
    if s.tables.active[j].delivery == RequestAccepted {
      UnsentIsUnclaimed(cfg, s, j);
      EndsUnsent(cfg, s, t, j);
    }
  }

  /** The steps whose `mutate` call can end an unsent job. */
  predicate CanEndUnsent(t: Step) {
    t.SubmitFail? || t.CancelQueued? || t.CancelSettle? || t.ShutdownFail?
  }

  lemma OnlyTheseEndUnsent(cfg: Config, s: State, t: Step, j: JobId)
    requires Inv(cfg, s) && Enabled(s, t) && j in s.tables.active && s.tables.active[j].delivery == RequestAccepted
    requires EditOf(s, t).Edit? && EditOf(s, t).job == j
    requires IsTerminal(Apply(EditOf(s, t).change, s.tables.active[j]).status)
    ensures CanEndUnsent(t)
  {
    hide Inv;
    OpenActive(cfg, s, j);
    if IsWorkerStep(t) {
      WorkerFacts(cfg, s, t.gen);
      UnsentIsUnclaimed(cfg, s, j);
    } else if t.MonitorApply? {
      EngineDesk.MonitorFacts(cfg, s, j);
      UnsentIsUnclaimed(cfg, s, j);
    }
  }

  lemma EndingStep(cfg: Config, s: State, t: Step)
    requires Enabled(s, t) && CanEndUnsent(t)
    ensures Do(cfg, s, t).phase.Serving?
    ensures Do(cfg, s, t).flow.place == if t.SubmitFail? then s.flow.place[t.job := Gone] else s.flow.place
  {
    hide Mutate, KeyStored;
  }

  /** A step that ends an unsent job leaves nothing that could submit it. */
  lemma EndsUnsent(cfg: Config, s: State, t: Step, j: JobId)
    requires Inv(cfg, s) && Enabled(s, t) && !ChangesTables(t)
    requires j in s.tables.active && s.tables.active[j].delivery == RequestAccepted
    requires EditOf(s, t).Edit? && EditOf(s, t).job == j
    requires IsTerminal(Apply(EditOf(s, t).change, s.tables.active[j]).status)
    ensures NeverAgain(Do(cfg, s, t), j)
  {
    hide Inv, Do, Enabled, EditOf, Apply;
    OnlyTheseEndUnsent(cfg, s, t, j);
    UnsentIsUnclaimed(cfg, s, j);
    EndingStep(cfg, s, t);
    EditsAreMutations(cfg, s, t);
  }

  lemma CancelledEdit(cfg: Config, s: State, t: Step, j: JobId)
    requires ValidConfig(cfg) && Inv(cfg, s) && Enabled(s, t) && !ChangesTables(t)
    requires CallsTrue(s, j) && CancelledTrue(s, j)
    ensures CancelledTrue(Do(cfg, s, t), j)
  {
    hide Inv, Do, Enabled, Apply, EditOf, NeverAgain;
    EditsAreMutations(cfg, s, t);
    var e := EditOf(s, t);
    if NeverAgain(s, j) { NeverAgainStep(cfg, s, t, j); }
    if e.Edit? && e.job == j && j in s.tables.active && Apply(e.change, s.tables.active[j]).status == Cancelled {
      NewlyCancelled(cfg, s, t, j);
    }
  }

  lemma CancelledTableStep(cfg: Config, s: State, t: Step, j: JobId)
    requires ValidConfig(cfg) && Inv(cfg, s) && Enabled(s, t) && ChangesTables(t) && CancelledTrue(s, j)
    ensures CancelledTrue(Do(cfg, s, t), j)
  {
    hide Inv, Do, Enabled, Apply, RestartChange, NeverAgain;
    TablesAfterIs(cfg, s, t);
    if NeverAgain(s, j) { NeverAgainStep(cfg, s, t, j); }
    if t.Reconcile? { ReconcileRows(cfg, s, t.job, t.printerKnown, t.ok, j); }
  }

  lemma ReconcileRows(cfg: Config, s: State, k: JobId, known: bool, ok: bool, j: JobId)
    requires Inv(cfg, s) && Enabled(s, Reconcile(k, known, ok))
    ensures
      var t' := Do(cfg, s, Reconcile(k, known, ok)).tables;
      j in t'.repo && t'.repo[j].status == Cancelled ==> j in s.tables.repo && t'.repo[j] == s.tables.repo[j]
  {
    hide Inv, Do, Enabled, Apply, RestartChange, Consistent;
    TodoEnabled(s, k, known, ok);
    TablesAfterIs(cfg, s, Reconcile(k, known, ok));
    TodoIsPlaced(cfg, s, k);
    JobFacts(cfg, s, k);
    RestartNeverCancels(s.phase.todo[k]);
  }

  lemma TodoEnabled(s: State, k: JobId, known: bool, ok: bool)
    requires Enabled(s, Reconcile(k, known, ok))
    ensures s.phase.Reconciling? && k in s.phase.todo
  {
  }

  lemma CancelledStep(cfg: Config, s: State, t: Step, j: JobId)
    requires ValidConfig(cfg) && Inv(cfg, s) && Enabled(s, t) && CallsTrue(s, j) && CancelledTrue(s, j)
    ensures CancelledTrue(Do(cfg, s, t), j)
  {
    hide Inv, Do, Enabled, CallsTrue, CancelledTrue;
    if ChangesTables(t) { CancelledTableStep(cfg, s, t, j); } else { CancelledEdit(cfg, s, t, j); }
  }

  lemma {:induction false} CancelledRun(cfg: Config, s: State, steps: seq<Step>, j: JobId)
    requires ValidConfig(cfg) && Inv(cfg, s) && Runs(cfg, s, steps) && CallsTrue(s, j) && CancelledTrue(s, j)
    ensures CancelledTrue(After(cfg, s, steps), j)
    decreases |steps|
  {
    hide Inv, Do, Enabled, CallsTrue, CancelledTrue;
    if steps != [] {
      CancelledStep(cfg, s, steps[0], j);
      CallsStep(cfg, s, steps[0], j);
      StepKeepsInv(cfg, s, steps[0]);
      CancelledRun(cfg, Do(cfg, s, steps[0]), steps[1..], j);
    }
  }

  /**
   A record that says CANCELLED is true about the job: it never got further than
   REQUEST_ACCEPTED, and then it was not submitted and no continuation submits it, or it was
   handed to the spooler. There is no third kind.
   */
  lemma CancelledIsTruthful(cfg: Config, s: State, j: JobId, steps: seq<Step>)
    requires ValidConfig(cfg) && Reachable(cfg, s) && Runs(cfg, s, steps)
    requires j in s.tables.repo && s.tables.repo[j].status == Cancelled
    ensures s.tables.repo[j].delivery == RequestAccepted || s.tables.repo[j].delivery == SpoolerAccepted
    ensures s.tables.repo[j].delivery == RequestAccepted ==>
      !Logged(s.trace.log, j) && !Logged(After(cfg, s, steps).trace.log, j)
    ensures s.tables.repo[j].delivery == SpoolerAccepted ==> Logged(s.trace.log, j)
  {
    hide Inv, Do, Enabled, Logged;
    var steps0 :| Runs(cfg, Init(), steps0) && After(cfg, Init(), steps0) == s;
    InitInv(cfg);
    CancelledRun(cfg, Init(), steps0, j);
    ReachableInv(cfg, s);
    if s.tables.repo[j].delivery == RequestAccepted {
      NotLogged(cfg, s, j);
      NeverAgainRun(cfg, s, steps, j);
    } else {
      SpooledIsLogged(cfg, s, j);
    }
  }

  lemma SpooledIsLogged(cfg: Config, s: State, j: JobId)
    requires Inv(cfg, s) && j in s.tables.repo && Rank(s.tables.repo[j].delivery) == 2
    ensures Logged(s.trace.log, j)
  {
    assert RowOk(s.tables, s.flow.place, s.flow.requests, s.phase, j, s.tables.repo[j]);
  }

  /** A cancel that read REQUEST_ACCEPTED takes effect iff the job still is at that stage; a job that
      moved on is left alone. */
  lemma CancelTakesEffectIff(cfg: Config, s: State, c: CallId, ok: bool)
    requires ValidConfig(cfg) && Reachable(cfg, s) && Enabled(s, CancelQueued(c, ok))
    requires s.desk.cancels[c].job in s.tables.active
    ensures
      var j, t' := s.desk.cancels[c].job, Do(cfg, s, CancelQueued(c, ok)).tables;
      && (s.tables.active[j].delivery != RequestAccepted ==> t' == s.tables)
      && (j !in t'.active <==> s.tables.active[j].delivery == RequestAccepted)
      && (ok && s.tables.active[j].delivery == RequestAccepted ==> j in t'.repo && t'.repo[j].status == Cancelled)
  {
    hide Inv, Reachable;
    ReachableInv(cfg, s);
    UnsentIsUnclaimed(cfg, s, s.desk.cancels[c].job);
  }

  // ------------------------------------------------------------------ NOT_PRINTED

  /** No continuation submits the job, and it was not submitted. */
  ghost predicate NeverSubmitted(cfg: Config, s: State, j: JobId) {
    forall steps :: Runs(cfg, s, steps) ==> !Logged(After(cfg, s, steps).trace.log, j)
  }

  predicate SaysNotPrinted(job: Job) {
    job.status == Failed && job.error.Some? && job.error.value.outcome == NotPrinted
  }

  /** The step stores a new record of the job. */
  predicate Stores(t: Tables, t': Tables, j: JobId) {
    j in t'.repo && !(j in t.repo && t'.repo[j] == t.repo[j])
  }

  /** A provider said itself that it printed nothing, in its answer to `submit` or as a spooler report. */
  predicate ProviderSaid(s: State, t: Step, j: JobId) {
    || (&& t.WorkerSettle? && t.gen in s.flow.queues && s.flow.queues[t.gen].worker.Waits?
        && s.flow.queues[t.gen].worker.job == j
        && s.flow.queues[t.gen].worker.result.Some? && s.flow.queues[t.gen].worker.result.value.Errored?
        && s.flow.queues[t.gen].worker.result.value.error.outcome == NotPrinted)
    || (&& t.MonitorApply? && t.job == j && j in s.desk.monitors && s.desk.monitors[j].pc.Decided?
        && s.desk.monitors[j].pc.change.Fail? && s.desk.monitors[j].pc.change.error.outcome == NotPrinted)
  }

  lemma QuietForEver(cfg: Config, s: State, j: JobId)
    requires ValidConfig(cfg) && Inv(cfg, s) && NeverAgain(s, j)
    ensures NeverSubmitted(cfg, s, j)
  {
    hide Inv, Do, Enabled, NeverAgain;
    forall steps | Runs(cfg, s, steps) ensures !Logged(After(cfg, s, steps).trace.log, j) {
      NeverAgainRun(cfg, s, steps, j);
    }
  }

  lemma FailedBy(c: Change, job: Job)
    requires !IsTerminal(job.status) && SaysNotPrinted(Apply(c, job)) && job.error.None?
    ensures c.Fail? && c.error.outcome == NotPrinted
  {
  }

  lemma NoProviderStep(cfg: Config, s: State, g: Gen, e: PrintError, ok: bool)
    requires Enabled(s, WorkerNoProvider(g, e, ok))
    ensures
      var j, s' := s.flow.queues[g].worker.job, Do(cfg, s, WorkerNoProvider(g, e, ok));
      j in s'.flow.place && s'.flow.place[j].Gone?
  {
    hide Mutate, Release;
  }

  /** Whose word a record repeats that an edit of a claimed job fails with NOT_PRINTED. */
  lemma SentFailure(cfg: Config, s: State, t: Step, j: JobId)
    requires Inv(cfg, s) && Enabled(s, t) && !ChangesTables(t)
    requires EditOf(s, t).Edit? && EditOf(s, t).job == j && j in s.tables.active
    requires s.tables.active[j].delivery != RequestAccepted
    requires EditOf(s, t).change.Fail? && EditOf(s, t).change.error.outcome == NotPrinted
    ensures t.WorkerNoProvider? || ProviderSaid(s, t, j) || (t.ShutdownFail? && t.job == j)
  {
    hide Inv;
    UnsentIsUnclaimed(cfg, s, j);
  }

  lemma EditSaysTrue(cfg: Config, s: State, t: Step, j: JobId)
    requires ValidConfig(cfg) && Inv(cfg, s) && Enabled(s, t) && !ChangesTables(t)
    requires Stores(s.tables, Do(cfg, s, t).tables, j) && SaysNotPrinted(Do(cfg, s, t).tables.repo[j])
    ensures
      || NeverAgain(Do(cfg, s, t), j)
      || (t.ShutdownFail? && t.job == j && j in s.tables.active && s.tables.active[j].delivery != RequestAccepted)
      || ProviderSaid(s, t, j)
  {
    hide Inv, Do, Enabled, Apply, EditOf, NeverAgain, ProviderSaid;
    EditsAreMutations(cfg, s, t);
    var e := EditOf(s, t);
    OpenActive(cfg, s, j);
    NoErrorYet(cfg, s, j);
    FailedBy(e.change, s.tables.active[j]);
    if s.tables.active[j].delivery == RequestAccepted {
      EndsUnsent(cfg, s, t, j);
    } else {
      SentFailure(cfg, s, t, j);
      if t.WorkerNoProvider? { NoProviderGone(cfg, s, t, j); }
    }
  }

  lemma NoProviderGone(cfg: Config, s: State, t: Step, j: JobId)
    requires Enabled(s, t) && t.WorkerNoProvider? && EditOf(s, t).job == j
    ensures NeverAgain(Do(cfg, s, t), j)
  {
    hide Do;
    NoProviderStep(cfg, s, t.gen, t.error, t.ok);
  }

  lemma NoErrorYet(cfg: Config, s: State, j: JobId)
    requires Inv(cfg, s) && j in s.tables.active
    ensures s.tables.active[j].error.None?
  {
    assert ActiveOk(s.tables, s.flow.place, j, s.tables.active[j]);
  }

  lemma RestartSaysTrue(cfg: Config, s: State, k: JobId, known: bool, ok: bool, j: JobId)
    requires ValidConfig(cfg) && Inv(cfg, s) && Enabled(s, Reconcile(k, known, ok))
    requires Stores(s.tables, Do(cfg, s, Reconcile(k, known, ok)).tables, j)
    requires SaysNotPrinted(Do(cfg, s, Reconcile(k, known, ok)).tables.repo[j])
    ensures j == k && (j in s.tables.dirty || NeverAgain(Do(cfg, s, Reconcile(k, known, ok)), j))
  {
    hide Inv, Do, Enabled, Apply, RestartChange, Consistent;
    TodoEnabled(s, k, known, ok);
    TablesAfterIs(cfg, s, Reconcile(k, known, ok));
    TodoIsPlaced(cfg, s, k);
    JobFacts(cfg, s, k);
    RestartSays(s.phase.todo[k]);
    if j !in s.tables.dirty {
      RestartFacts(cfg, s, k);
      RestartDoes(cfg, s, k, known, ok);
    }
  }

  lemma TableStepSays(cfg: Config, s: State, t: Step, j: JobId)
    requires ValidConfig(cfg) && Inv(cfg, s) && Enabled(s, t) && ChangesTables(t)
    requires Stores(s.tables, Do(cfg, s, t).tables, j) && SaysNotPrinted(Do(cfg, s, t).tables.repo[j])
    ensures t.Reconcile?
  {
    hide Inv, Do, Enabled, Apply, RestartChange;
    TablesAfterIs(cfg, s, t);
  }

  /**
   Whenever any step stores a record that says FAILED with NOT_PRINTED, the job was not submitted
   and no continuation submits it, unless one of exactly these speaks: `shutdown` about a job that
   a worker claimed after the snapshot, a provider about its own work, or a restart that read a
   row whose last update had been lost.
   */
  lemma NotPrintedIsTruthful(cfg: Config, s: State, t: Step, j: JobId)
    requires ValidConfig(cfg) && Reachable(cfg, s) && Enabled(s, t)
    requires Stores(s.tables, Do(cfg, s, t).tables, j) && SaysNotPrinted(Do(cfg, s, t).tables.repo[j])
    ensures
      || NeverSubmitted(cfg, Do(cfg, s, t), j)
      || (t.ShutdownFail? && t.job == j && j in s.tables.active && s.tables.active[j].delivery != RequestAccepted)
      || ProviderSaid(s, t, j)
      || (t.Reconcile? && t.job == j && j in s.tables.dirty)
  {
    hide Inv, Do, Enabled, NeverAgain, NeverSubmitted, SaysNotPrinted, ProviderSaid, Stores;
    ReachableInv(cfg, s);
    StepKeepsInv(cfg, s, t);
    if ChangesTables(t) {
      TableStepSays(cfg, s, t, j);
      RestartSaysTrue(cfg, s, t.job, t.printerKnown, t.ok, j);
    } else {
      EditSaysTrue(cfg, s, t, j);
    }
    if NeverAgain(Do(cfg, s, t), j) { QuietForEver(cfg, Do(cfg, s, t), j); }
  }
}
