/**
 What a client may conclude from a record: a terminal record is final, a cancelled unsent job
 is never printed, a restart calls a job unsent only if it was, and shutdown may be wrong
 about it exactly when it raced with the worker.
 */
module EngineOutcomes {
  import opened Wrappers
  import opened Jobs
  import opened EngineModel
  import opened EngineInvariant
  import opened EngineRecords
  import opened EngineSubmit
  import opened EngineLifecycle
  import opened EngineSafety

  // ------------------------------------------------------------------ runs

  lemma {:induction false} RunsExtend(cfg: Config, s: State, steps: seq<Step>, t: Step)
    requires Runs(cfg, s, steps) && Enabled(After(cfg, s, steps), t)
    ensures Runs(cfg, s, steps + [t])
    ensures After(cfg, s, steps + [t]) == Do(cfg, After(cfg, s, steps), t)
    decreases |steps|
  {
    hide Do, Enabled;
    if steps == [] {
      assert steps + [t] == [t] && [t][1..] == [];
    } else {
      assert (steps + [t])[1..] == steps[1..] + [t];
      RunsExtend(cfg, Do(cfg, s, steps[0]), steps[1..], t);
    }
  }

  lemma ReachableStep(cfg: Config, s: State, t: Step)
    requires Reachable(cfg, s) && Enabled(s, t)
    ensures Reachable(cfg, Do(cfg, s, t))
  {
    hide Do, Enabled;
    var steps :| Runs(cfg, Init(), steps) && After(cfg, Init(), steps) == s;
    RunsExtend(cfg, Init(), steps, t);
  }

  lemma InitReachable(cfg: Config)
    ensures Reachable(cfg, Init())
  {
    assert Runs(cfg, Init(), []) && After(cfg, Init(), []) == Init();
  }

  // ------------------------------------------------------------------ terminal records

  /** The job has ended with `row`, or had and its row has expired. */
  ghost predicate Ended(s: State, j: JobId, row: Job) {
    && j in s.flow.place && IsTerminal(row.status)
    && (j in s.tables.repo ==> s.tables.repo[j] == row)
  }

  lemma TableStepStaysOut(cfg: Config, s: State, t: Step, j: JobId)
    requires Inv(cfg, s) && Enabled(s, t) && ChangesTables(t) && j in s.flow.place && j !in s.tables.repo
    ensures j !in Do(cfg, s, t).tables.repo
  {
    hide Inv, Apply, Do, RestartChange, DoWorker, WorkerEnabled, DoDesk, DeskEnabled;
    TablesAfterIs(cfg, s, t);
    if t.SubmitInsert? {
      FreshId(cfg, s);
    } else if t.Reconcile? {
      TodoIsPlaced(cfg, s, t.job);
    }
  }

  lemma PurgedStaysOut(cfg: Config, s: State, t: Step, j: JobId)
    requires Inv(cfg, s) && Enabled(s, t) && j in s.flow.place && j !in s.tables.repo
    ensures j !in Do(cfg, s, t).tables.repo
  {
    hide Inv, Apply, Do, Enabled, EditOf;
    if ChangesTables(t) {
      TableStepStaysOut(cfg, s, t, j);
    } else {
      EditsAreMutations(cfg, s, t);
      if EditOf(s, t).Edit? { OpenRow(cfg, s, EditOf(s, t).job); }
    }
  }

  /** What a step leaves of the phase and of the supply of ids. */
  predicate Onward(s: State, s': State) {
    s.flow.nextId <= s'.flow.nextId && s'.phase == s.phase
  }

  lemma SwapIds(cfg: Config, s: State, j: JobId, spurious: bool)
    requires SubmitEnabled(s, BudgetSwap(j, spurious))
    ensures Onward(s, Swap(cfg, s, j, spurious))
  {
  }

  lemma SendIds(cfg: Config, s: State, j: JobId)
    requires SubmitEnabled(s, SubmitSend(j))
    ensures Onward(s, TrySend(cfg, s, j))
  {
    hide Release;
  }

  lemma SenderIds(s: State, j: JobId)
    requires SubmitEnabled(s, SubmitSender(j))
    ensures FetchSender(s.flow, j).nextId == s.flow.nextId
  {
  }

  lemma SubmitIds(cfg: Config, s: State, t: Step)
    requires Enabled(s, t) && IsSubmitStep(t)
    ensures Onward(s, Do(cfg, s, t))
  {
    hide Mutate, Release, Swap, TrySend, FetchSender, DoWorker, DoDesk, DoLifecycle;
    if t.BudgetSwap? {
      SwapIds(cfg, s, t.job, t.spurious);
    } else if t.SubmitSend? {
      SendIds(cfg, s, t.job);
    } else if t.SubmitSender? {
      SenderIds(s, t.job);
    }
  }

  lemma CallIds(s: State, g: Gen)
    requires WorkerEnabled(s, WorkerCall(g))
    ensures Onward(s, Call(s, g))
  {
  }

  lemma ReturnIds(s: State, g: Gen, r: SubmitResult)
    requires WorkerEnabled(s, ProviderReturn(g, r))
    ensures Onward(s, Return(s, g, r))
  {
    hide Release;
  }

  lemma WorkerIds(cfg: Config, s: State, t: Step)
    requires Enabled(s, t) && IsWorkerStep(t)
    ensures Onward(s, Do(cfg, s, t))
  {
    hide MutateIn, ReleaseIn, ResultChange, Call, Return, DoSubmit, DoDesk, DoLifecycle, Onward;
    if t.WorkerCall? {
      CallIds(s, t.gen);
    } else if t.ProviderReturn? {
      ReturnIds(s, t.gen, t.result);
    } else {
      WorkerRestIds(cfg, s, t);
    }
  }

  lemma WorkerRestIds(cfg: Config, s: State, t: Step)
    requires IsWorkerStep(t) && WorkerEnabled(s, t) && !t.WorkerCall? && !t.ProviderReturn?
    ensures Onward(s, DoWorker(cfg, s, t))
  {
    hide Mutate, Release, ResultChange;
  }

  lemma PlacesStay(cfg: Config, s: State, t: Step, j: JobId)
    requires ValidConfig(cfg) && Inv(cfg, s) && Enabled(s, t) && j in s.flow.place
    ensures j in Do(cfg, s, t).flow.place
  {
    hide Mutate, Release, DoSubmit, DoWorker, SubmitEnabled, WorkerEnabled, Inv;
    StepKeepsInv(cfg, s, t);
    Placed(cfg, s, j);
    if IsSubmitStep(t) { SubmitIds(cfg, s, t); } else if IsWorkerStep(t) { WorkerIds(cfg, s, t); }
    Placed(cfg, Do(cfg, s, t), j);
  }

  lemma Placed(cfg: Config, s: State, j: JobId)
    requires Inv(cfg, s)
    ensures j in s.flow.place <==> j < s.flow.nextId
  {
  }

  lemma EndedStep(cfg: Config, s: State, t: Step, j: JobId, row: Job)
    requires ValidConfig(cfg) && Inv(cfg, s) && Enabled(s, t) && Ended(s, j, row)
    ensures Ended(Do(cfg, s, t), j, row)
  {
    hide Inv, Do, Enabled;
    PlacesStay(cfg, s, t, j);
    if j in s.tables.repo {
      StepAdvances(cfg, s, t, j);
    } else {
      PurgedStaysOut(cfg, s, t, j);
    }
  }

  lemma {:induction false} EndedRun(cfg: Config, s: State, steps: seq<Step>, j: JobId, row: Job)
    requires ValidConfig(cfg) && Inv(cfg, s) && Runs(cfg, s, steps) && Ended(s, j, row)
    ensures Ended(After(cfg, s, steps), j, row) && Inv(cfg, After(cfg, s, steps))
    decreases |steps|
  {
    hide Inv, Do, Enabled, Ended;
    if steps != [] {
      EndedStep(cfg, s, steps[0], j, row);
      StepKeepsInv(cfg, s, steps[0]);
      EndedRun(cfg, Do(cfg, s, steps[0]), steps[1..], j, row);
    }
  }

  /** A terminal record never changes again, and its job is never active again, through any later
      step, crash or restart; at most it expires. */
  lemma TerminalIsFinal(cfg: Config, s: State, steps: seq<Step>, j: JobId)
    requires ValidConfig(cfg) && Reachable(cfg, s) && Runs(cfg, s, steps)
    requires j in s.tables.repo && IsTerminal(s.tables.repo[j].status)
    ensures
      var s' := After(cfg, s, steps);
      j !in s'.tables.active && (j in s'.tables.repo ==> s'.tables.repo[j] == s.tables.repo[j])
  {
    hide Inv, Do, Enabled;
    ReachableInv(cfg, s);
    StoredIsPlaced(cfg, s, j);
    EndedRun(cfg, s, steps, j, s.tables.repo[j]);
    OpenRow(cfg, After(cfg, s, steps), j);
  }

  lemma StoredIsPlaced(cfg: Config, s: State, j: JobId)
    requires Inv(cfg, s) && j in s.tables.repo
    ensures j in s.flow.place
  {
    assert RowOk(s.tables, s.flow.place, s.flow.requests, s.phase, j, s.tables.repo[j]);
  }

  // ------------------------------------------------------------------ never submitted

  /** Nothing that is left in the system can submit the job. */
  predicate NeverAgain(s: State, j: JobId) {
    && j in s.flow.place && Unclaimed(s.flow.place[j])
    && (|| s.flow.place[j].Gone?
        || (s.phase.Serving? && j !in s.tables.active && s.flow.place[j] != AtSubmit(Inserted)))
  }

  lemma NotLogged(cfg: Config, s: State, j: JobId)
    requires Inv(cfg, s) && j in s.flow.place && !Sends(s.flow.place[j])
    ensures !Logged(s.trace.log, j)
  {
    forall i | 0 <= i < |s.trace.log| ensures s.trace.log[i].job != j {
      assert EntryOk(s.flow.place, s.flow.requests, s.trace.log[i]);
    }
  }

  lemma TableStepInactive(cfg: Config, s: State, t: Step, j: JobId)
    requires Enabled(s, t) && ChangesTables(t) && s.phase.Serving? && j !in s.tables.active
    requires j in s.flow.place && s.flow.place[j] != AtSubmit(Inserted)
    ensures j !in Do(cfg, s, t).tables.active
  {
    hide Mutate, Do, RestartChange, PurgeRows, DoWorker, WorkerEnabled, DoDesk, DeskEnabled;
    TablesAfterIs(cfg, s, t);
    if t.Purge? { PurgeKeepsActive(s.tables, t.cutoff); }
  }

  lemma PurgeKeepsActive(t: Tables, cutoff: nat)
    ensures PurgeRows(t, cutoff).active == t.active
  {
  }

  lemma InactiveStays(cfg: Config, s: State, t: Step, j: JobId)
    requires Inv(cfg, s) && Enabled(s, t) && s.phase.Serving? && j !in s.tables.active
    requires j in s.flow.place && s.flow.place[j] != AtSubmit(Inserted)
    ensures j !in Do(cfg, s, t).tables.active
  {
    hide Inv, Apply, EditOf, Do, Enabled;
    if ChangesTables(t) {
      TableStepInactive(cfg, s, t, j);
    } else {
      EditsAreMutations(cfg, s, t);
    }
  }

  /** Where a step of somebody's submit call can put a job that is not to be submitted. */
  predicate Quiet(from: Place, place: map<JobId, Place>, j: JobId) {
    && j in place && Unclaimed(place[j]) && place[j] != AtSubmit(Inserted)
    && (from.Gone? ==> place[j].Gone?)
  }

  lemma NeverAgainSwap(cfg: Config, s: State, k: JobId, spurious: bool, j: JobId)
    requires SubmitEnabled(s, BudgetSwap(k, spurious)) && NeverAgain(s, j)
    ensures Quiet(s.flow.place[j], Swap(cfg, s, k, spurious).flow.place, j)
  {
    var place := Swap(cfg, s, k, spurious).flow.place;
    assert place[k].AtSubmit? && !place[k].pc.Inserted?;
    assert place == s.flow.place[k := place[k]];
  }

  lemma NeverAgainSender(s: State, k: JobId, j: JobId)
    requires SubmitEnabled(s, SubmitSender(k)) && NeverAgain(s, j)
    ensures Quiet(s.flow.place[j], FetchSender(s.flow, k).place, j)
  {
  }

  /** `try_send` moves one job, to the channel or to its failure. */
  lemma NeverAgainSend(cfg: Config, s: State, k: JobId, j: JobId)
    requires SubmitEnabled(s, SubmitSend(k)) && NeverAgain(s, j)
    ensures Quiet(s.flow.place[j], TrySend(cfg, s, k).flow.place, j)
  {
    hide Release, KeyStored;
    var q := s.flow.queues[s.flow.place[k].pc.gen];
    if q.worker.Stopped? {
      MovedIsQuiet(s, j, k, AtSubmit(Failing(ShuttingDown())));
    } else if |q.items| >= cfg.capacity {
      MovedIsQuiet(s, j, k, AtSubmit(Failing(QueueFull(q.printer))));
    } else {
      MovedIsQuiet(s, j, k, AtQueue(s.flow.place[k].pc.gen, q.printer));
    }
  }

  lemma MovedIsQuiet(s: State, j: JobId, k: JobId, to: Place)
    requires NeverAgain(s, j) && k in s.flow.place && s.flow.place[k].AtSubmit? && Unclaimed(to) && to != AtSubmit(Inserted)
    ensures Quiet(s.flow.place[j], s.flow.place[k := to], j)
  {
  }

  lemma NeverAgainEdit(cfg: Config, s: State, t: Step, j: JobId)
    requires (t.SubmitValidate? || t.SubmitResolve? || t.SubmitFail? || t.SubmitMark?) && SubmitEnabled(s, t) && NeverAgain(s, j)
    ensures Quiet(s.flow.place[j], DoSubmit(cfg, s, t).flow.place, j)
  {
    hide Mutate, Release, Quiet, NeverAgain;
    var to := if t.SubmitValidate? then AtSubmit(Preparing) else if t.SubmitResolve? then AtSubmit(Resolved(t.printer))
              else if t.SubmitMark? && t.job in s.tables.active then AtSubmit(Marked(s.flow.place[t.job].pc.printer)) else Gone;
    MovedIsQuiet(s, j, t.job, to);
  }

  lemma NeverAgainMove(cfg: Config, s: State, t: Step, j: JobId)
    requires (t.SubmitReject? || t.SubmitAbort? || t.BudgetLoad? || t.SubmitActivate?) && SubmitEnabled(s, t) && NeverAgain(s, j)
    ensures Quiet(s.flow.place[j], DoSubmit(cfg, s, t).flow.place, j)
  {
    hide Mutate, Release, Quiet, NeverAgain;
    var to := if t.SubmitReject? then AtSubmit(Failing(t.error)) else if t.SubmitAbort? then Gone
              else if t.BudgetLoad? then AtSubmit(Reserving(s.flow.place[t.job].pc.printer, s.bytes.used)) else AtSubmit(Tracked);
    MovedIsQuiet(s, j, t.job, to);
  }

  lemma NeverAgainExisting(cfg: Config, s: State, t: Step, j: JobId)
    requires t.SubmitExisting? && SubmitEnabled(s, t) && NeverAgain(s, j)
    ensures Quiet(s.flow.place[j], DoSubmit(cfg, s, t).flow.place, j)
  {
  }

  lemma NeverAgainInsert(cfg: Config, s: State, t: Step, j: JobId)
    requires Inv(cfg, s) && t.SubmitInsert? && SubmitEnabled(s, t) && NeverAgain(s, j)
    ensures Quiet(s.flow.place[j], DoSubmit(cfg, s, t).flow.place, j)
  {
    hide Inv;
    FreshId(cfg, s);
  }

  lemma NeverAgainSubmit(cfg: Config, s: State, t: Step, j: JobId)
    requires Inv(cfg, s) && IsSubmitStep(t) && Enabled(s, t) && NeverAgain(s, j)
    ensures Quiet(s.flow.place[j], Do(cfg, s, t).flow.place, j)
  {
    hide Inv, Do, Enabled, Mutate, Release, Swap, FetchSender, TrySend, Quiet, NeverAgain;
    EngineTokens.SubmitDo(cfg, s, t);
    if t.BudgetSwap? {
      NeverAgainSwap(cfg, s, t.job, t.spurious, j);
    } else if t.SubmitSender? {
      NeverAgainSender(s, t.job, j);
    } else if t.SubmitSend? {
      NeverAgainSend(cfg, s, t.job, j);
    } else if t.SubmitInsert? {
      NeverAgainInsert(cfg, s, t, j);
    } else if t.SubmitExisting? {
      NeverAgainExisting(cfg, s, t, j);
    } else if t.SubmitReject? || t.SubmitAbort? || t.BudgetLoad? || t.SubmitActivate? {
      NeverAgainMove(cfg, s, t, j);
    } else {
      NeverAgainEdit(cfg, s, t, j);
    }
  }

  lemma NeverAgainTake(cfg: Config, s: State, t: Step, j: JobId)
    requires Inv(cfg, s) && IsWorkerStep(t) && Enabled(s, t) && NeverAgain(s, j)
    requires t.WorkerReceive? || t.WorkerClaim? || t.WorkerNoProvider? || t.WorkerCall?
    ensures Quiet(s.flow.place[j], Do(cfg, s, t).flow.place, j)
  {
    hide Inv, Mutate, Release, DoSubmit, SubmitEnabled, DoDesk, DeskEnabled, DoLifecycle, LifecycleEnabled;
    WorkerFacts(cfg, s, t.gen);
  }

  lemma NeverAgainWorker(cfg: Config, s: State, t: Step, j: JobId)
    requires Inv(cfg, s) && IsWorkerStep(t) && Enabled(s, t) && NeverAgain(s, j)
    ensures Quiet(s.flow.place[j], Do(cfg, s, t).flow.place, j)
  {
    hide Inv, Mutate, Release, ResultChange, Call, DoSubmit, SubmitEnabled, DoDesk, DeskEnabled, DoLifecycle, LifecycleEnabled;
    if t.WorkerReceive? || t.WorkerClaim? || t.WorkerNoProvider? || t.WorkerCall? {
      NeverAgainTake(cfg, s, t, j);
    } else {
      WorkerFacts(cfg, s, t.gen);
    }
  }

  lemma WorkerFacts(cfg: Config, s: State, g: Gen)
    requires Inv(cfg, s) && g in s.flow.queues
    ensures WorkerOk(s.flow, g, s.flow.queues[g].printer, s.flow.queues[g].worker)
    ensures s.flow.queues[g].items != [] ==>
      var j := s.flow.queues[g].items[0];
      j in s.flow.place && s.flow.place[j] == AtQueue(g, s.flow.queues[g].printer)
  {
    QueueFacts(cfg, s.flow, g);
  }

  lemma NeverAgainElsewhere(cfg: Config, s: State, t: Step, j: JobId)
    requires Enabled(s, t) && (IsDeskStep(t) || IsLifecycleStep(t)) && NeverAgain(s, j) && !t.Crash?
    ensures Quiet(s.flow.place[j], Do(cfg, s, t).flow.place, j) && (s.phase.Serving? ==> Do(cfg, s, t).phase.Serving?)
  {
    hide DoSubmit, DoWorker, DoDesk, DoLifecycle, SubmitEnabled, WorkerEnabled, DeskEnabled, LifecycleEnabled;
    if IsDeskStep(t) { DeskLeavesFlow(cfg, s, t); } else { LifecycleLeavesFlow(cfg, s, t); }
  }

  lemma LifecycleLeavesFlow(cfg: Config, s: State, t: Step)
    requires IsLifecycleStep(t) && LifecycleEnabled(s, t) && !t.Crash?
    ensures DoLifecycle(cfg, s, t).flow == s.flow && (s.phase.Serving? ==> DoLifecycle(cfg, s, t).phase.Serving?)
  {
    hide Mutate, RestartChange;
  }

  lemma DeskLeavesFlow(cfg: Config, s: State, t: Step)
    requires IsDeskStep(t) && DeskEnabled(s, t)
    ensures DoDesk(cfg, s, t).flow == s.flow && DoDesk(cfg, s, t).phase == s.phase
  {
    hide Mutate;
  }

  lemma NeverAgainCrash(cfg: Config, s: State, j: JobId)
    requires Enabled(s, Crash) && NeverAgain(s, j)
    ensures NeverAgain(Do(cfg, s, Crash), j)
  {
    hide Mutate, DoSubmit, DoWorker, DoDesk;
  }

  lemma NeverAgainStep(cfg: Config, s: State, t: Step, j: JobId)
    requires Inv(cfg, s) && Enabled(s, t) && NeverAgain(s, j)
    ensures NeverAgain(Do(cfg, s, t), j)
  {
    hide Inv, Do, Enabled;
    if t.Crash? {
      NeverAgainCrash(cfg, s, j);
    } else {
      if !s.flow.place[j].Gone? { InactiveStays(cfg, s, t, j); }
      if IsSubmitStep(t) {
        NeverAgainSubmit(cfg, s, t, j);
        SubmitIds(cfg, s, t);
      } else if IsWorkerStep(t) {
        NeverAgainWorker(cfg, s, t, j);
        WorkerIds(cfg, s, t);
      } else {
        NeverAgainElsewhere(cfg, s, t, j);
      }
    }
  }

  lemma {:induction false} NeverAgainRun(cfg: Config, s: State, steps: seq<Step>, j: JobId)
    requires ValidConfig(cfg) && Inv(cfg, s) && Runs(cfg, s, steps) && NeverAgain(s, j)
    ensures !Logged(After(cfg, s, steps).trace.log, j)
    decreases |steps|
  {
    hide Inv, Do, Enabled;
    if steps == [] {
      NotLogged(cfg, s, j);
    } else {
      NeverAgainStep(cfg, s, steps[0], j);
      StepKeepsInv(cfg, s, steps[0]);
      NeverAgainRun(cfg, Do(cfg, s, steps[0]), steps[1..], j);
    }
  }

  // ------------------------------------------------------------------ cancelling an unsent job

  /** A cancel that succeeds while the job is REQUEST_ACCEPTED: no continuation ever submits it. */
  lemma CancelledUnsentIsNeverSubmitted(cfg: Config, s: State, c: CallId, ok: bool, steps: seq<Step>)
    requires ValidConfig(cfg) && Reachable(cfg, s) && Enabled(s, CancelQueued(c, ok))
    requires s.desk.cancels[c].job in s.tables.active
    requires s.tables.active[s.desk.cancels[c].job].delivery == RequestAccepted
    requires Runs(cfg, Do(cfg, s, CancelQueued(c, ok)), steps)
    ensures !Logged(After(cfg, Do(cfg, s, CancelQueued(c, ok)), steps).trace.log, s.desk.cancels[c].job)
    ensures ok ==>
      var j, t' := s.desk.cancels[c].job, Do(cfg, s, CancelQueued(c, ok)).tables;
      j in t'.repo && t'.repo[j].status == Cancelled
  {
    hide Inv, Runs, After;
    var j, s' := s.desk.cancels[c].job, Do(cfg, s, CancelQueued(c, ok));
    ReachableInv(cfg, s);
    StepKeepsInv(cfg, s, CancelQueued(c, ok));
    UnsentIsUnclaimed(cfg, s, j);
    NeverAgainRun(cfg, s', steps, j);
  }

  lemma UnsentIsUnclaimed(cfg: Config, s: State, j: JobId)
    requires Inv(cfg, s) && j in s.tables.active
    ensures j in s.flow.place && j in s.tables.repo && s.flow.place[j] != AtSubmit(Inserted)
    ensures !IsTerminal(s.tables.active[j].status)
    ensures s.tables.active[j].delivery == RequestAccepted <==> Unclaimed(s.flow.place[j])
  {
    assert ActiveOk(s.tables, s.flow.place, j, s.tables.active[j]);
  }

  // ------------------------------------------------------------------ restart

  /**
   After a crash at any point, and given that the row's last write succeeded: restart says
   NOT_PRINTED only of a job that was never submitted and never will be, and a job that was
   submitted is either watched again or failed with outcome UNKNOWN.
   */
  lemma RestartIsTruthful(cfg: Config, s: State, j: JobId, known: bool, ok: bool, steps: seq<Step>)
    requires ValidConfig(cfg) && Reachable(cfg, s) && Enabled(s, Reconcile(j, known, ok)) && j !in s.tables.dirty
    requires Runs(cfg, Do(cfg, s, Reconcile(j, known, ok)), steps)
    ensures
      var row, s' := s.phase.todo[j], Do(cfg, s, Reconcile(j, known, ok));
      var settled := Apply(RestartChange(row), row);
      if Resumes(row, known) then
        j in s'.tables.active && j in s'.desk.monitors && s.phase.todo[j].spool == Some(s'.desk.monitors[j].spool)
      else
        && j !in s'.tables.active && settled.error.Some?
        && (settled.error.value.outcome == NotPrinted ==>
              !Logged(s.trace.log, j) && !Logged(After(cfg, s', steps).trace.log, j))
        && (Logged(s.trace.log, j) ==> settled.error.value.outcome == Unknown)
        && (ok ==> j in s'.tables.repo && s'.tables.repo[j] == settled)
  {
    hide Inv, Runs, After, Do, Reachable, Apply, RestartChange, Consistent, Logged, SubmitEnabled, WorkerEnabled, DeskEnabled;
    var row, s' := s.phase.todo[j], Do(cfg, s, Reconcile(j, known, ok));
    ReachableInv(cfg, s);
    StepKeepsInv(cfg, s, Reconcile(j, known, ok));
    TodoIsPlaced(cfg, s, j);
    RestartFacts(cfg, s, j);
    RestartSays(row);
    RestartDoes(cfg, s, j, known, ok);
    if row.delivery == RequestAccepted {
      NotLogged(cfg, s, j);
      NeverAgainRun(cfg, s', steps, j);
    }
  }

  /** What the settled record says, by how far the job had gone. */
  lemma RestartSays(row: Job)
    requires Consistent(row) && !IsTerminal(row.status)
    ensures
      var settled := Apply(RestartChange(row), row);
      && settled.error.Some? && IsTerminal(settled.status)
      && settled.error.value.outcome == if row.delivery == RequestAccepted then NotPrinted else Unknown
  {
  }

  lemma RestartDoes(cfg: Config, s: State, j: JobId, known: bool, ok: bool)
    requires Enabled(s, Reconcile(j, known, ok)) && IsTerminal(Apply(RestartChange(s.phase.todo[j]), s.phase.todo[j]).status)
    requires !IsTerminal(s.phase.todo[j].status) && j in s.flow.place
    ensures
      var row, s' := s.phase.todo[j], Do(cfg, s, Reconcile(j, known, ok));
      && s'.flow == s.flow && s'.trace == s.trace
      && (if Resumes(row, known) then
            j in s'.tables.active && j in s'.desk.monitors && row.spool == Some(s'.desk.monitors[j].spool)
          else
            j !in s'.tables.active && (ok ==> j in s'.tables.repo && s'.tables.repo[j] == Apply(RestartChange(row), row)))
  {
    hide Apply, RestartChange, DoSubmit, SubmitEnabled, DoWorker, WorkerEnabled, DoDesk, DeskEnabled;
  }

  lemma RestartFacts(cfg: Config, s: State, j: JobId)
    requires Inv(cfg, s) && s.phase.Reconciling? && j in s.phase.todo && j !in s.tables.dirty
    ensures j in s.flow.place && j in s.tables.repo && Consistent(s.tables.repo[j])
    ensures s.tables.repo[j].delivery == RequestAccepted ==> s.flow.place[j].Gone?
  {
    assert RowOk(s.tables, s.flow.place, s.flow.requests, s.phase, j, s.tables.repo[j]);
  }

  // ------------------------------------------------------------------ shutdown

  /**
   Shutdown's label NOT_PRINTED is right about a job, now and for ever, exactly when the
   job's delivery is still REQUEST_ACCEPTED at the moment the label is written: the recheck
   that `cancel` makes and `shutdown` does not.
   */
  lemma ShutdownLabelIsRightIff(cfg: Config, s: State, j: JobId, ok: bool)
    requires ValidConfig(cfg) && Reachable(cfg, s) && Enabled(s, ShutdownFail(j, ok)) && j in s.tables.active
    ensures
      var s' := Do(cfg, s, ShutdownFail(j, ok));
      s.tables.active[j].delivery == RequestAccepted <==>
      forall steps :: Runs(cfg, s', steps) ==> !Logged(After(cfg, s', steps).trace.log, j)
  {
    hide Inv, Runs, After;
    var s' := Do(cfg, s, ShutdownFail(j, ok));
    ReachableInv(cfg, s);
    StepKeepsInv(cfg, s, ShutdownFail(j, ok));
    UnsentIsUnclaimed(cfg, s, j);
    if s.tables.active[j].delivery == RequestAccepted {
      forall steps | Runs(cfg, s', steps) ensures !Logged(After(cfg, s', steps).trace.log, j) {
        NeverAgainRun(cfg, s', steps, j);
      }
    } else {
      var steps := ClaimedGetsLogged(cfg, s', j);
    }
  }

  /** A claimed job is submitted already, or its worker submits it next. */
  lemma ClaimedGetsLogged(cfg: Config, s: State, j: JobId) returns (steps: seq<Step>)
    requires Inv(cfg, s) && s.phase.Serving? && j in s.flow.place && !Unclaimed(s.flow.place[j])
    ensures Runs(cfg, s, steps) && Logged(After(cfg, s, steps).trace.log, j)
  {
    hide Tokens, Budget, Records, Keys, Watch, Order, Phases, Do, Enabled;
    if s.flow.place[j].Claimed? {
      steps := [WorkerCall(s.flow.place[j].gen)];
      ClaimedIsCalled(cfg, s, j);
      assert steps[1..] == [];
    } else {
      steps := [];
    }
  }

  lemma ClaimedIsCalled(cfg: Config, s: State, j: JobId)
    requires Inv(cfg, s) && s.phase.Serving? && j in s.flow.place && s.flow.place[j].Claimed?
    ensures
      var t := WorkerCall(s.flow.place[j].gen);
      Enabled(s, t) && Logged(Do(cfg, s, t).trace.log, j)
  {
    hide Budget, Records, Keys, Watch, Order, Phases, History;
    var g := s.flow.place[j].gen;
    assert PlaceOk(s.flow, j, s.flow.place[j]);
    assert Do(cfg, s, WorkerCall(g)).trace.log[|s.trace.log|].job == j;
  }
}
