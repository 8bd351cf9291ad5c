/**
 Concrete runs that show where the engine's promises end: a shutdown that races with the
 worker, two cancellations of one spooled job, and a crash inside a cancellation.
 */
module EngineRaces {
  import opened Wrappers
  import opened Jobs
  import opened EngineModel
  import opened EngineInvariant
  import EngineDesk
  import opened EngineSafety
  import opened EngineOutcomes
  import opened EngineScenes
  import opened EngineCancel

  // ------------------------------------------------------------------ shutdown against worker

  predicate SaysNotPrinted(s: State, j: JobId) {
    j in s.tables.repo && s.tables.repo[j].error.Some? && s.tables.repo[j].error.value.outcome == NotPrinted
  }

  /**
   A reachable record says NOT_PRINTED of a job that was submitted: the worker claimed the job
   between shutdown's snapshot and its write.
   */
  lemma ShutdownRace()
    ensures exists s: State :: Reachable(TINY, s) && SaysNotPrinted(s, 0) && Logged(s.trace.log, 0)
  {
    hide Reachable, Later;
    var s1 := RaceClaims();
    var s2 := Do(TINY, s1, ShutdownFail(0, true));
    Go(s1, ShutdownFail(0, true), s2);
    var s3 := Do(TINY, s2, WorkerCall(0));
    Go(s2, WorkerCall(0), s3);
    LaterIsReachable(s3);
    assert s3.trace.log[0].job == 0;
  }

  lemma RaceClaims() returns (s: State)
    ensures s == ClaimedState().(shutdown := true, doomed := {0}) && Later(s)
  {
    hide Reachable, Later;
    Receives();
    var s0 := TakenState();
    var s1 := s0.(shutdown := true);
    Go(s0, ShutdownSignal, s1);
    var s2 := s1.(doomed := {0});
    assert Do(TINY, s1, ShutdownSnapshot).doomed == {0};
    Go(s1, ShutdownSnapshot, s2);
    s := ClaimedState().(shutdown := true, doomed := {0});
    Claims(s2);
    Go(s2, WorkerClaim(0, true), s);
  }

  // ------------------------------------------------------------------ cancel against monitor

  /** A poll of the monitor that finds the entry gone, up to the change of the record. */
  function PollGone(cfg: Config, s: State, j: JobId): State
    requires j in s.desk.monitors && s.desk.monitors[j].pc.Sleeping? && s.desk.monitors[j].spool !in s.desk.entries
  {
    var s1 := DoDesk(cfg, s, MonitorPoll(j, Vanished));
    var s2 := DoDesk(cfg, s1, MonitorDecide(j));
    DoDesk(cfg, s2, MonitorApply(j, true))
  }

  lemma PollIsRun(cfg: Config, s: State, j: JobId)
    requires Reachable(cfg, s)
    requires j in s.desk.monitors && s.desk.monitors[j].pc.Sleeping? && s.desk.monitors[j].spool !in s.desk.entries
    ensures Reachable(cfg, PollGone(cfg, s, j))
  {
    hide Reachable, MutateIn;
    var s1 := Do(cfg, s, MonitorPoll(j, Vanished));
    ReachableStep(cfg, s, MonitorPoll(j, Vanished));
    var s2 := Do(cfg, s1, MonitorDecide(j));
    ReachableStep(cfg, s1, MonitorDecide(j));
    ReachableStep(cfg, s2, MonitorApply(j, true));
  }

  /** A poll with nothing between its report, its decision and its change. */
  lemma UndisturbedPoll(cfg: Config, s: State, j: JobId)
    requires ValidConfig(cfg) && Reachable(cfg, s) && j in s.tables.active
    requires j in s.desk.monitors && s.desk.monitors[j].pc.Sleeping? && s.desk.monitors[j].spool !in s.desk.entries
    ensures
      var t := PollGone(cfg, s, j).tables;
      && j in t.repo && j !in t.active
      && (t.repo[j].completion == Some(SpoolerJobRetired) <==> j !in s.desk.cancelling)
      && (t.repo[j].status == Cancelled <==> j in s.desk.cancelling)
  {
    hide Reachable, Inv;
    ReachableInv(cfg, s);
    SpooledRecord(cfg, s, j);
    RetiresIff(s.tables.active[j]);
    var s1 := DoDesk(cfg, s, MonitorPoll(j, Vanished));
    assert s1.desk.monitors[j].pc == Observed(Vanished) && s1.tables == s.tables;
    var s2 := DoDesk(cfg, s1, MonitorDecide(j));
    assert s2.desk.monitors[j].pc == Decided(if j in s.desk.cancelling then Cancel else Retire) && s2.tables == s.tables;
  }

  /** The state in which job 0's entry was deleted by call 0, with the given rest of the desk. */
  function DeletedState(cancelling: set<JobId>, cancels: map<CallId, CancelCall>): State {
    SpooledState().(desk := Desk(map[0 := Monitor(0, Sleeping)], cancelling, cancels, map[], 1, {0}))
  }

  function CallsDesk(cancelling: set<JobId>, cancels: map<CallId, CancelCall>): State {
    SpooledState().(desk := SpoolDesk(Sleeping).(cancelling := cancelling, cancels := cancels))
  }

  const READ := CancelCall(0, InSpooler(0))
  const MARKING := CancelCall(0, Marking(0))

  lemma BothRead()
    ensures Later(CallsDesk({}, map[0 := READ, 1 := READ]))
  {
    hide Later, DoSubmit, DoWorker, DoLifecycle, SubmitEnabled, WorkerEnabled, LifecycleEnabled, MutateIn;
    Spools();
    var s1 := CallsDesk({}, map[0 := READ]);
    assert SpooledState().desk.cancels[0 := READ] == map[0 := READ];
    Go(SpooledState(), CancelRead(0, 0, false), s1);
    assert s1.desk.cancels[1 := READ] == map[0 := READ, 1 := READ];
    Go(s1, CancelRead(1, 0, false), CallsDesk({}, map[0 := READ, 1 := READ]));
  }

  lemma OneMarks()
    ensures Later(CallsDesk({0}, map[0 := MARKING, 1 := READ]))
  {
    hide Later, DoSubmit, DoWorker, DoLifecycle, SubmitEnabled, WorkerEnabled, LifecycleEnabled, MutateIn;
    BothRead();
    var s := CallsDesk({}, map[0 := READ, 1 := READ]);
    var s1 := CallsDesk({0}, map[0 := MARKING, 1 := READ]);
    assert s.desk.cancels[0 := MARKING] == s1.desk.cancels && {} + {0} == {0};
    Go(s, CancelMark(0), s1);
  }

  lemma BothMark()
    ensures Later(CallsDesk({0}, map[0 := MARKING, 1 := MARKING]))
  {
    hide Later, DoSubmit, DoWorker, DoLifecycle, SubmitEnabled, WorkerEnabled, LifecycleEnabled, MutateIn;
    OneMarks();
    var s := CallsDesk({0}, map[0 := MARKING, 1 := READ]);
    var s1 := CallsDesk({0}, map[0 := MARKING, 1 := MARKING]);
    assert s.desk.cancels[1 := MARKING] == s1.desk.cancels && {0} + {0} == {0};
    Go(s, CancelMark(1), s1);
  }

  lemma OneFails()
    ensures Later(CallsDesk({0}, map[0 := MARKING, 1 := CancelCall(0, Settled)]))
  {
    hide Later, DoSubmit, DoWorker, DoLifecycle, SubmitEnabled, WorkerEnabled, LifecycleEnabled, MutateIn;
    BothMark();
    var s := CallsDesk({0}, map[0 := MARKING, 1 := MARKING]);
    var s1 := CallsDesk({0}, map[0 := MARKING, 1 := CancelCall(0, Settled)]);
    assert s.desk.cancels[1 := CancelCall(0, Settled)] == s1.desk.cancels;
    Go(s, CancelDelete(1, false), s1);
  }

  /** Call 1 fails and takes the shared mark away; call 0 then deletes the entry. */
  lemma OneUnmarks()
    ensures Later(CallsDesk({}, map[0 := MARKING]))
  {
    hide Later, DoSubmit, DoWorker, DoLifecycle, SubmitEnabled, WorkerEnabled, LifecycleEnabled, MutateIn;
    OneFails();
    var s1 := CallsDesk({0}, map[0 := MARKING, 1 := CancelCall(0, Settled)]);
    var s2 := CallsDesk({}, map[0 := MARKING]);
    assert s1.desk.cancels - {1} == s2.desk.cancels && {0} - {0} == {};
    Go(s1, CancelUnmark(1), s2);
  }

  ghost predicate SaysRetired(s: State, j: JobId) {
    j in s.tables.repo && s.tables.repo[j].completion == Some(SpoolerJobRetired)
  }

  /** Two cancellations of one job: the entry we deleted is recorded as a finished print. */
  lemma TwoCancelsRetire()
    ensures exists s: State :: Reachable(TINY, s) && 0 in s.desk.deleted && SaysRetired(s, 0)
  {
    hide Reachable, Later, DoSubmit, DoWorker, DoLifecycle, SubmitEnabled, WorkerEnabled, LifecycleEnabled, MutateIn;
    OneUnmarks();
    var s := CallsDesk({}, map[0 := MARKING]);
    var s1 := DeletedState({}, map[0 := CancelCall(0, Deleted)]);
    assert s.desk.cancels[0 := CancelCall(0, Deleted)] == s1.desk.cancels;
    assert s.desk.entries - {0} == map[] && {} + {0} == {0};
    Go(s, CancelDelete(0, true), s1);
    LaterIsReachable(s1);
    UnmarkedRetires(s1);
  }

  /** Job 0's entry is gone, its monitor has seen that, and it is still marked by call 1. */
  function SeenState(cancelling: set<JobId>, cancels: map<CallId, CancelCall>): State {
    SpooledState().(desk := Desk(map[0 := Monitor(0, Observed(Vanished))], cancelling, cancels, map[], 1, {0}))
  }

  const TWO := map[0 := CancelCall(0, Deleted), 1 := CancelCall(0, Settled)]

  lemma GoneIsLater()
    ensures Later(DeletedState({0}, TWO))
  {
    hide Later, DoSubmit, DoWorker, DoLifecycle, SubmitEnabled, WorkerEnabled, LifecycleEnabled, MutateIn;
    OneFails();
    var s := CallsDesk({0}, map[0 := MARKING, 1 := CancelCall(0, Settled)]);
    var s1 := DeletedState({0}, TWO);
    assert s.desk.cancels[0 := CancelCall(0, Deleted)] == TWO;
    assert s.desk.entries - {0} == map[] && {} + {0} == {0};
    Go(s, CancelDelete(0, true), s1);
  }

  lemma SeenIsLater()
    ensures Later(SeenState({0}, TWO))
  {
    hide Later, DoSubmit, DoWorker, DoLifecycle, SubmitEnabled, WorkerEnabled, LifecycleEnabled, MutateIn;
    GoneIsLater();
    var s1, s2 := DeletedState({0}, TWO), SeenState({0}, TWO);
    assert s1.desk.monitors[0 := Monitor(0, Observed(Vanished))] == s2.desk.monitors;
    Go(s1, MonitorPoll(0, Vanished), s2);
  }

  /**
   Being in the set when the poll finds the entry gone is not enough: the other cancellation can
   take the mark away before the monitor looks.
   */
  lemma LateUnmarkRetires()
    ensures exists s: State ::
      Reachable(TINY, s) && 0 in s.desk.cancelling && 0 in s.desk.deleted && 0 in s.desk.monitors &&
      s.desk.monitors[0].pc == Observed(Vanished) && CanEndRetired(s, 0)
  {
    hide Reachable, Later, CanEndRetired;
    SeenIsLater();
    LaterIsReachable(SeenState({0}, TWO));
    LateUnmark();
  }

  ghost predicate CanEndRetired(s: State, j: JobId) {
    exists steps :: Runs(TINY, s, steps) && SaysRetired(After(TINY, s, steps), j)
  }

  lemma LateUnmark()
    ensures CanEndRetired(SeenState({0}, TWO), 0)
  {
    hide Reachable, Later, DoSubmit, DoWorker, DoLifecycle, SubmitEnabled, WorkerEnabled, LifecycleEnabled, Runs, After, CanEndRetired;
    var s := SeenState({0}, TWO);
    var s1 := SeenState({}, map[0 := CancelCall(0, Deleted)]);
    assert TWO - {1} == map[0 := CancelCall(0, Deleted)] && {0} - {0} == {};
    assert Enabled(s, CancelUnmark(1)) && Do(TINY, s, CancelUnmark(1)) == s1;
    SeenIsLater();
    Go(s, CancelUnmark(1), s1);
    LaterIsReachable(s1);
    DecidesNow(s1);
    EndsRetired(s, CancelUnmark(1), MonitorDecide(0), MonitorApply(0, true));
  }

  lemma DecidesNow(s: State)
    requires s == SeenState({}, map[0 := CancelCall(0, Deleted)]) && Reachable(TINY, s)
    ensures Enabled(s, MonitorDecide(0)) && Enabled(Do(TINY, s, MonitorDecide(0)), MonitorApply(0, true))
    ensures SaysRetired(Do(TINY, Do(TINY, s, MonitorDecide(0)), MonitorApply(0, true)), 0)
  {
    hide Reachable, DoSubmit, DoWorker, DoLifecycle, SubmitEnabled, WorkerEnabled, LifecycleEnabled, MutateIn;
    var s1 := Do(TINY, s, MonitorDecide(0));
    assert s1.tables == s.tables;
    assert Runs(TINY, s1, []) && After(TINY, s1, []) == s1;
    DecisionRetiresIff(TINY, s, 0, []);
  }

  lemma EndsRetired(s: State, t1: Step, t2: Step, t3: Step)
    requires Enabled(s, t1) && Enabled(Do(TINY, s, t1), t2) && Enabled(Do(TINY, Do(TINY, s, t1), t2), t3)
    requires SaysRetired(Do(TINY, Do(TINY, Do(TINY, s, t1), t2), t3), 0)
    ensures CanEndRetired(s, 0)
  {
    hide Do, Enabled;
    var s1, s2 := Do(TINY, s, t1), Do(TINY, Do(TINY, s, t1), t2);
    assert Runs(TINY, s, []) && After(TINY, s, []) == s;
    RunsExtend(TINY, s, [], t1);
    RunsExtend(TINY, s, [] + [t1], t2);
    RunsExtend(TINY, s, [] + [t1] + [t2], t3);
  }

  lemma UnmarkedRetires(s: State)
    requires s == DeletedState({}, map[0 := CancelCall(0, Deleted)]) && Reachable(TINY, s)
    ensures exists s': State :: Reachable(TINY, s') && 0 in s'.desk.deleted && SaysRetired(s', 0)
  {
    hide Reachable, MutateIn;
    UndisturbedPoll(TINY, s, 0);
    PollIsRun(TINY, s, 0);
  }

  function Reloaded(cfg: Config, s: State, j: JobId): State
    requires LifecycleEnabled(s, Crash) && j in s.tables.repo && !IsTerminal(s.tables.repo[j].status)
  {
    var s1 := DoLifecycle(cfg, s, Crash);
    var s2 := DoLifecycle(cfg, s1, Boot);
    DoLifecycle(cfg, s2, Reconcile(j, true, true))
  }

  lemma LifecycleReaches(cfg: Config, s: State, t: Step)
    requires Reachable(cfg, s) && IsLifecycleStep(t) && LifecycleEnabled(s, t)
    ensures Reachable(cfg, DoLifecycle(cfg, s, t))
  {
    hide Reachable, DoLifecycle, LifecycleEnabled;
    ReachableStep(cfg, s, t);
  }

  lemma ReloadIsRun(cfg: Config, s: State, j: JobId)
    requires Reachable(cfg, s) && LifecycleEnabled(s, Crash) && j in s.tables.repo && !IsTerminal(s.tables.repo[j].status)
    ensures Reachable(cfg, Reloaded(cfg, s, j))
  {
    hide Reachable, MutateIn;
    var s1 := DoLifecycle(cfg, s, Crash);
    LifecycleReaches(cfg, s, Crash);
    LifecycleReaches(cfg, s1, Boot);
    LifecycleReaches(cfg, DoLifecycle(cfg, s1, Boot), Reconcile(j, true, true));
  }

  /**
   From every state in which a spooled job's entry is gone and its record still open, a crash
   makes a RETIRED record reachable: the set of cancellations does not survive it.
   */
  lemma CrashForgetsCancel(cfg: Config, s: State, j: JobId)
    requires ValidConfig(cfg) && Reachable(cfg, s) && s.phase.Serving? && j in s.desk.deleted
    requires j in s.tables.active && j !in s.tables.dirty
    requires s.tables.active[j].spool.Some? && s.tables.active[j].spool.value !in s.desk.entries
    ensures exists s': State :: Reachable(cfg, s') && j in s'.desk.deleted && SaysRetired(s', j)
  {
    hide Reachable, Inv, Mutate;
    ReachableInv(cfg, s);
    StoredSpool(cfg, s, j);
    ReloadIsRun(cfg, s, j);
    var s1 := Reloaded(cfg, s, j);
    UndisturbedPoll(cfg, s1, j);
    PollIsRun(cfg, s1, j);
  }

  lemma StoredSpool(cfg: Config, s: State, j: JobId)
    requires Inv(cfg, s) && j in s.tables.active && j !in s.tables.dirty && s.tables.active[j].spool.Some?
    ensures j in s.tables.repo && s.tables.repo[j] == s.tables.active[j] && !IsTerminal(s.tables.repo[j].status)
    ensures Resumes(s.tables.repo[j], true)
  {
    assert ActiveOk(s.tables, s.flow.place, j, s.tables.active[j]);
  }
}
