/**
 Cancelling a spooled job against its monitor: an entry that our own cancellation removed is
 never mistaken for a finished print, provided that the job has one cancellation at a time
 and that the engine does not go down before the cancellation is on record.
 */
module EngineCancel {
  import opened Wrappers
  import opened Jobs
  import opened EngineModel
  import opened EngineInvariant
  import opened EngineSubmit
  import opened EngineLifecycle
  import opened EngineSafety
  import opened EngineOutcomes

  predicate CallOn(cancels: map<CallId, CancelCall>, c: CallId, j: JobId) {
    c in cancels && cancels[c].job == j
  }

  /** The hypothesis, step by step: what the environment does not do to job `j` in state `s`. */
  ghost predicate Careful(s: State, t: Step, j: JobId) {
    && (t.CancelRead? && t.job == j ==> forall c :: !CallOn(s.desk.cancels, c, j))
    && (t.Crash? && j in s.desk.deleted ==> j !in s.tables.active && j !in s.tables.dirty)
  }

  ghost predicate CarefulRun(cfg: Config, s: State, steps: seq<Step>, j: JobId)
    requires Runs(cfg, s, steps)
    decreases |steps|
  {
    steps == [] || (Careful(s, steps[0], j) && CarefulRun(cfg, Do(cfg, s, steps[0]), steps[1..], j))
  }

  // ------------------------------------------------------------------ invariant

  predicate Marked(st: CancelStage) {
    st.Marking? || st.Deleted? || st.Settled?
  }

  predicate Aims(st: CancelStage) {
    st.InSpooler? || st.Marking?
  }

  ghost predicate CallsOk(d: Desk, j: JobId) {
    && (forall a, b :: CallOn(d.cancels, a, j) && CallOn(d.cancels, b, j) ==> a == b)
    && (forall c :: CallOn(d.cancels, c, j) && Marked(d.cancels[c].stage) ==> j in d.cancelling)
  }

  /** Whatever is recorded of the job's spooler id is `id`. */
  predicate HasSpool(t: Tables, j: JobId, id: SpoolId) {
    && (j in t.active ==> t.active[j].spool == Some(id))
    && (j in t.repo && t.repo[j].spool.Some? ==> t.repo[j].spool.value == id)
  }

  ghost predicate AimsOk(t: Tables, d: Desk, log: seq<Submission>, j: JobId) {
    && (forall c :: CallOn(d.cancels, c, j) && Aims(d.cancels[c].stage) ==> HasSpool(t, j, d.cancels[c].stage.spool) && Logged(log, j))
    && (j in t.active && j in t.repo && t.repo[j].spool.Some? ==> t.active[j].spool == t.repo[j].spool)
  }

  /** The monitor has seen that its entry is gone. */
  predicate SawVanish(pc: MonitorPc) {
    pc == Observed(Vanished) || pc == Decided(Retire)
  }

  predicate MonitorTrue(d: Desk, j: JobId) {
    j in d.monitors && SawVanish(d.monitors[j].pc) ==> d.monitors[j].spool !in d.entries
  }

  ghost predicate DeletedOk(t: Tables, d: Desk, phase: Phase, log: seq<Submission>, j: JobId) {
    j in d.deleted ==>
      && Logged(log, j)
      && (|| (exists c :: CallOn(d.cancels, c, j) && d.cancels[c].stage.Deleted?)
          || Finished(t, phase, j))
      && (j in d.monitors && d.monitors[j].pc == Decided(Retire) ==> j !in t.active)
  }

  predicate Finished(t: Tables, phase: Phase, j: JobId) {
    && j !in t.active
    && (!phase.Serving? && j in t.repo ==> IsTerminal(t.repo[j].status))
  }

  predicate RetiredOk(t: Tables, d: Desk, j: JobId) {
    j in t.repo && t.repo[j].completion == Some(SpoolerJobRetired) ==>
      j !in d.deleted && (t.repo[j].spool.Some? ==> t.repo[j].spool.value !in d.entries)
  }

  ghost predicate CancelInv(s: State, j: JobId) {
    && CallsOk(s.desk, j)
    && AimsOk(s.tables, s.desk, s.trace.log, j)
    && MonitorTrue(s.desk, j)
    && DeletedOk(s.tables, s.desk, s.phase, s.trace.log, j)
    && RetiredOk(s.tables, s.desk, j)
  }

  // ------------------------------------------------------------------ one edit of the tables

  /** A `mutate` call leaves job `j`'s spooler facts alone: the id is set once, retirement is `Retire`. */
  ghost predicate Gentle(t: Tables, d: Desk, j: JobId, c: Change) {
    j in t.active ==>
      && (c.MarkSpooled? ==> t.active[j].spool.None? && (j in t.repo ==> t.repo[j].spool.None?))
      && t.active[j].completion.None?
      && j in t.repo && !IsTerminal(t.repo[j].status) && t.repo[j].completion.None?
      && (c.Retire? ==> j !in d.deleted && t.active[j].spool.Some? && t.active[j].spool.value !in d.entries)
  }

  lemma EditKeepsAims(t: Tables, d: Desk, log: seq<Submission>, j: JobId, c: Change, ok: bool)
    requires AimsOk(t, d, log, j) && Gentle(t, d, j, c)
    ensures AimsOk(Mutate(t, j, c, ok), d, log, j)
  {
  }

  lemma EditKeepsRetired(t: Tables, d: Desk, phase: Phase, log: seq<Submission>, j: JobId, c: Change, ok: bool)
    requires RetiredOk(t, d, j) && DeletedOk(t, d, phase, log, j) && Gentle(t, d, j, c)
    ensures RetiredOk(Mutate(t, j, c, ok), d, j) && DeletedOk(Mutate(t, j, c, ok), d, phase, log, j)
  {
  }

  /** The same facts, when the tables change at another job or not at all. */
  lemma OtherEditKeeps(s: State, t': Tables, log': seq<Submission>, j: JobId)
    requires CancelInv(s, j)
    requires j in t'.active <==> j in s.tables.active
    requires j in t'.repo <==> j in s.tables.repo
    requires j in s.tables.active ==> t'.active[j] == s.tables.active[j]
    requires j in s.tables.repo ==> t'.repo[j] == s.tables.repo[j]
    requires Logged(s.trace.log, j) ==> Logged(log', j)
    ensures CancelInv(s.(tables := t', trace := s.trace.(log := log')), j)
  {
  }

  lemma EditKeeps(s: State, j: JobId, c: Change, ok: bool)
    requires CancelInv(s, j) && Gentle(s.tables, s.desk, j, c)
    ensures CancelInv(MutateIn(s, j, c, ok), j)
  {
    hide AimsOk, DeletedOk, RetiredOk, Gentle, Mutate;
    EditKeepsAims(s.tables, s.desk, s.trace.log, j, c, ok);
    EditKeepsRetired(s.tables, s.desk, s.phase, s.trace.log, j, c, ok);
  }

  lemma ActiveSpool(cfg: Config, s: State, j: JobId)
    requires Inv(cfg, s) && j in s.tables.active
    ensures
      var t := s.tables;
      && j in s.flow.place && j in t.repo && !IsTerminal(t.repo[j].status) && t.repo[j].completion.None?
      && t.active[j].completion.None?
      && (s.flow.place[j].Calling? ==> t.active[j].spool.None? && t.repo[j].spool.None?)
  {
    assert ActiveOk(s.tables, s.flow.place, j, s.tables.active[j]);
    assert RowOk(s.tables, s.flow.place, s.flow.requests, s.phase, j, s.tables.repo[j]);
  }

  /** Every edit the engine makes is gentle. */
  lemma EditsAreGentle(cfg: Config, s: State, t: Step, j: JobId)
    requires Inv(cfg, s) && CancelInv(s, j) && Enabled(s, t) && EditOf(s, t).Edit? && EditOf(s, t).job == j
    ensures Gentle(s.tables, s.desk, j, EditOf(s, t).change)
  {
    hide Inv, AimsOk, CallsOk, RetiredOk, Apply;
    if j in s.tables.active {
      ActiveSpool(cfg, s, j);
      if t.WorkerSettle? {
        WorkerFacts(cfg, s, t.gen);
      } else if t.MonitorApply? {
        EngineDesk.MonitorFacts(cfg, s, j);
      }
    }
  }

  // ------------------------------------------------------------------ submit and worker steps

  predicate TouchesDesk(t: Step) {
    t.WorkerSettle? || t.ProviderReturn? || IsDeskStep(t) || IsLifecycleStep(t)
  }

  lemma LogExtends(log: seq<Submission>, e: Submission, j: JobId)
    ensures Logged(log, j) ==> Logged(log + [e], j)
  {
    if Logged(log, j) {
      var i :| 0 <= i < |log| && log[i].job == j;
      assert (log + [e])[i].job == j;
    }
  }

  lemma SubmitFrame(cfg: Config, s: State, t: Step)
    requires Enabled(s, t) && IsSubmitStep(t)
    ensures Do(cfg, s, t).desk == s.desk && Do(cfg, s, t).phase == s.phase && Do(cfg, s, t).trace.log == s.trace.log
  {
    hide Mutate, Release;
  }

  lemma WorkerFrame(cfg: Config, s: State, t: Step, j: JobId)
    requires Enabled(s, t) && IsWorkerStep(t)
    ensures !TouchesDesk(t) ==> Do(cfg, s, t).desk == s.desk
    ensures Do(cfg, s, t).phase == s.phase && (Logged(s.trace.log, j) ==> Logged(Do(cfg, s, t).trace.log, j))
  {
    hide Mutate, Release, ResultChange, Logged, Do, Enabled;
    EngineTokens.WorkerDo(cfg, s, t);
    if t.WorkerCall? {
      var job := s.flow.queues[t.gen].worker.job;
      var request := s.flow.requests[job];
      LogExtends(s.trace.log, Submission(job, s.flow.queues[t.gen].printer, request.client, request.key), j);
    }
  }

  /** A step that only edits the tables. */
  lemma EditStepKeeps(cfg: Config, s: State, t: Step, j: JobId)
    requires Inv(cfg, s) && CancelInv(s, j) && Enabled(s, t) && !ChangesTables(t)
    ensures
      var s' := Do(cfg, s, t);
      CancelInv(s.(tables := s'.tables), j)
  {
    hide Inv, CancelInv, Do, Enabled, EditOf, Apply, Gentle;
    EditsAreMutations(cfg, s, t);
    var e := EditOf(s, t);
    if e.Edit? && e.job == j {
      EditsAreGentle(cfg, s, t, j);
      EditKeeps(s, j, e.change, e.ok);
    } else if e.Edit? {
      OtherEditKeeps(s, Mutate(s.tables, e.job, e.change, e.ok), s.trace.log, j);
    } else {
      OtherEditKeeps(s, s.tables, s.trace.log, j);
    }
  }

  lemma CancelFrame(s: State, s': State, j: JobId)
    requires CancelInv(s, j) && s'.tables == s.tables && s'.desk == s.desk && s'.phase == s.phase
    requires Logged(s.trace.log, j) ==> Logged(s'.trace.log, j)
    ensures CancelInv(s', j)
  {
    hide CallsOk, MonitorTrue, RetiredOk, Finished, HasSpool, Logged;
  }

  lemma LoggedIsSent(cfg: Config, s: State, j: JobId)
    requires Inv(cfg, s) && Logged(s.trace.log, j)
    ensures j in s.flow.place && Sends(s.flow.place[j])
  {
    var i :| 0 <= i < |s.trace.log| && s.trace.log[i].job == j;
    assert EntryOk(s.flow.place, s.flow.requests, s.trace.log[i]);
  }

  lemma InsertKeeps(cfg: Config, s: State, t: Step, j: JobId)
    requires Inv(cfg, s) && CancelInv(s, j) && Enabled(s, t) && (t.SubmitInsert? || t.SubmitActivate?)
    ensures CancelInv(Do(cfg, s, t), j)
  {
    hide Inv, Logged;
    FreshId(cfg, s);
    if Logged(s.trace.log, j) { LoggedIsSent(cfg, s, j); }
    if t.SubmitActivate? { JobFacts(cfg, s, t.job); }
  }

  lemma QuietStepKeeps(cfg: Config, s: State, t: Step, j: JobId)
    requires Inv(cfg, s) && CancelInv(s, j) && Enabled(s, t) && !TouchesDesk(t)
    ensures CancelInv(Do(cfg, s, t), j)
  {
    hide Inv, CancelInv, Do, Enabled, Logged;
    if t.SubmitInsert? || t.SubmitActivate? {
      InsertKeeps(cfg, s, t, j);
    } else {
      var s' := Do(cfg, s, t);
      EditStepKeeps(cfg, s, t, j);
      if IsSubmitStep(t) { SubmitFrame(cfg, s, t); } else { WorkerFrame(cfg, s, t, j); }
      CancelFrame(s.(tables := s'.tables), s', j);
    }
  }

  lemma SettleKeeps(cfg: Config, s: State, g: Gen, ok: bool, j: JobId)
    requires Inv(cfg, s) && CancelInv(s, j) && Enabled(s, WorkerSettle(g, ok))
    ensures CancelInv(Do(cfg, s, WorkerSettle(g, ok)), j)
  {
    hide Inv, AimsOk, CallsOk, RetiredOk, Logged, Finished, Mutate, Apply, ResultChange;
    EditStepKeeps(cfg, s, WorkerSettle(g, ok), j);
    var s' := Do(cfg, s, WorkerSettle(g, ok));
    AimsIgnoreMonitors(s'.tables, s.desk, s'.desk, s.trace.log, j);
  }

  lemma AimsIgnoreMonitors(t: Tables, d: Desk, d': Desk, log: seq<Submission>, j: JobId)
    requires AimsOk(t, d, log, j) && CallsOk(d, j) && RetiredOk(t, d, j)
    requires d'.cancels == d.cancels && d'.cancelling == d.cancelling && d'.entries == d.entries && d'.deleted == d.deleted
    ensures AimsOk(t, d', log, j) && CallsOk(d', j) && RetiredOk(t, d', j)
  {
  }

  lemma ReturnKeeps(cfg: Config, s: State, g: Gen, r: SubmitResult, j: JobId)
    requires Inv(cfg, s) && CancelInv(s, j) && Enabled(s, ProviderReturn(g, r))
    ensures CancelInv(Do(cfg, s, ProviderReturn(g, r)), j)
  {
    hide Tokens, History, Budget, Records, Keys, Phases, Order, Logged, Release;
    if j in s.desk.monitors { EngineDesk.MonitorFacts(cfg, s, j); }
  }

  // ------------------------------------------------------------------ monitor steps

  lemma WatchStepKeeps(cfg: Config, s: State, t: Step, j: JobId)
    requires CancelInv(s, j) && Enabled(s, t)
    requires t.MonitorPoll? || t.MonitorStop? || t.MonitorDecide? || t.SpoolerRetire?
    ensures CancelInv(Do(cfg, s, t), j)
  {
    hide Logged, HasSpool, Finished, DoSubmit, SubmitEnabled, DoWorker, WorkerEnabled, DoLifecycle, LifecycleEnabled;
    if t.MonitorDecide? && t.job == j && j in s.desk.deleted && s.desk.monitors[j].pc.state.Vanished? {
      DecideOnDeleted(s, j);
    }
  }

  /** Between the deletion and the record of it, the job is marked as being cancelled. */
  lemma DecideOnDeleted(s: State, j: JobId)
    requires CancelInv(s, j) && j in s.desk.deleted
    ensures j in s.desk.cancelling || j !in s.tables.active
  {
  }

  lemma MonitorApplyKeeps(cfg: Config, s: State, k: JobId, ok: bool, j: JobId)
    requires Inv(cfg, s) && CancelInv(s, j) && Enabled(s, MonitorApply(k, ok))
    ensures CancelInv(Do(cfg, s, MonitorApply(k, ok)), j)
  {
    hide Inv, AimsOk, CallsOk, RetiredOk, Logged, Finished, Mutate, Apply;
    EditStepKeeps(cfg, s, MonitorApply(k, ok), j);
    var s' := Do(cfg, s, MonitorApply(k, ok));
    AimsIgnoreMonitors(s'.tables, s.desk, s'.desk, s.trace.log, j);
  }

  // ------------------------------------------------------------------ cancel steps

  lemma ReadAims(cfg: Config, s: State, j: JobId, fromStore: bool)
    requires Inv(cfg, s) && CancelInv(s, j)
    requires JobRead(s.tables, j, fromStore).Some?
    requires JobRead(s.tables, j, fromStore).value.delivery == SpoolerAccepted
    requires JobRead(s.tables, j, fromStore).value.spool.Some?
    ensures HasSpool(s.tables, j, JobRead(s.tables, j, fromStore).value.spool.value) && Logged(s.trace.log, j)
  {
    hide Tokens, Budget, Keys, Watch, Order, Phases, CallsOk, DeletedOk, RetiredOk, MonitorTrue, Logged;
    var t := s.tables;
    assert j in t.active ==> ActiveOk(t, s.flow.place, j, t.active[j]);
    assert j in t.repo ==> RowOk(t, s.flow.place, s.flow.requests, s.phase, j, t.repo[j]);
  }

  lemma CancelReadKeeps(cfg: Config, s: State, c: CallId, k: JobId, fromStore: bool, j: JobId)
    requires Inv(cfg, s) && CancelInv(s, j)
    requires Enabled(s, CancelRead(c, k, fromStore)) && Careful(s, CancelRead(c, k, fromStore), j)
    ensures CancelInv(Do(cfg, s, CancelRead(c, k, fromStore)), j)
  {
    hide Inv, Logged, HasSpool, Finished, DoSubmit, SubmitEnabled, DoWorker, WorkerEnabled, DoLifecycle, LifecycleEnabled;
    var job := JobRead(s.tables, k, fromStore).value;
    if k == j && job.delivery != RequestAccepted { ReadAims(cfg, s, j, fromStore); }
    CallsMove(s.desk.cancels, Do(cfg, s, CancelRead(c, k, fromStore)).desk.cancels, c, j);
  }

  /** A change to one call leaves the calls on other jobs, and the other calls, alone. */
  lemma CallsMove(cancels: map<CallId, CancelCall>, cancels': map<CallId, CancelCall>, c: CallId, j: JobId)
    requires forall a :: a in cancels && a != c ==> a in cancels' && cancels'[a] == cancels[a]
    requires forall a :: a in cancels' && a != c ==> a in cancels
    ensures forall a :: a != c ==> (CallOn(cancels', a, j) <==> CallOn(cancels, a, j))
    ensures forall a :: a != c && CallOn(cancels', a, j) ==> cancels'[a] == cancels[a]
  {
  }

  lemma CancelMarkKeeps(cfg: Config, s: State, c: CallId, j: JobId)
    requires CancelInv(s, j) && Enabled(s, CancelMark(c))
    ensures CancelInv(Do(cfg, s, CancelMark(c)), j)
  {
    hide Logged, HasSpool, Finished;
    var s' := Do(cfg, s, CancelMark(c));
    CallsMove(s.desk.cancels, s'.desk.cancels, c, j);
    assert CallOn(s'.desk.cancels, c, j) <==> CallOn(s.desk.cancels, c, j);
  }

  lemma DeleteFailsKeeps(cfg: Config, s: State, c: CallId, j: JobId)
    requires CancelInv(s, j) && Enabled(s, CancelDelete(c, false))
    ensures CancelInv(Do(cfg, s, CancelDelete(c, false)), j)
  {
    hide Logged, Finished, HasSpool;
    var s' := Do(cfg, s, CancelDelete(c, false));
    CallsMove(s.desk.cancels, s'.desk.cancels, c, j);
    assert CallOn(s'.desk.cancels, c, j) <==> CallOn(s.desk.cancels, c, j);
  }

  /** The entry is there, so no monitor has seen it vanish and no record says it was retired. */
  lemma DeleteFacts(cfg: Config, s: State, c: CallId, j: JobId)
    requires Inv(cfg, s) && CancelInv(s, j) && CallOn(s.desk.cancels, c, j)
    requires s.desk.cancels[c].stage.Marking? && s.desk.cancels[c].stage.spool in s.desk.entries
    ensures Logged(s.trace.log, j)
    ensures j in s.desk.monitors && j in s.tables.active ==> !SawVanish(s.desk.monitors[j].pc)
    ensures j in s.tables.repo ==> s.tables.repo[j].completion != Some(SpoolerJobRetired)
  {
    hide Inv, Logged, Finished, DeletedOk, CallsOk;
    if j in s.desk.monitors { EngineDesk.MonitorFacts(cfg, s, j); }
    RetiredHasSpool(cfg, s, j);
  }

  lemma DeleteKeeps(cfg: Config, s: State, c: CallId, j: JobId)
    requires Inv(cfg, s) && CancelInv(s, j) && Enabled(s, CancelDelete(c, true))
    ensures CancelInv(Do(cfg, s, CancelDelete(c, true)), j)
  {
    hide Inv, Logged, Finished, HasSpool;
    var s' := Do(cfg, s, CancelDelete(c, true));
    CallsMove(s.desk.cancels, s'.desk.cancels, c, j);
    assert CallOn(s'.desk.cancels, c, j) <==> CallOn(s.desk.cancels, c, j);
    if s.desk.cancels[c].job == j { DeleteFacts(cfg, s, c, j); }
  }

  lemma RetiredHasSpool(cfg: Config, s: State, j: JobId)
    requires Inv(cfg, s)
    ensures j in s.tables.repo && s.tables.repo[j].completion == Some(SpoolerJobRetired) ==> s.tables.repo[j].spool.Some?
  {
    assert j in s.tables.repo ==> RowOk(s.tables, s.flow.place, s.flow.requests, s.phase, j, s.tables.repo[j]);
  }

  lemma CancelQueuedKeeps(cfg: Config, s: State, c: CallId, ok: bool, j: JobId)
    requires Inv(cfg, s) && CancelInv(s, j) && Enabled(s, CancelQueued(c, ok))
    ensures CancelInv(Do(cfg, s, CancelQueued(c, ok)), j)
  {
    hide Inv, Logged, HasSpool, Finished, Mutate, Apply, RetiredOk;
    EditStepKeeps(cfg, s, CancelQueued(c, ok), j);
    var s' := Do(cfg, s, CancelQueued(c, ok));
    CallsMove(s.desk.cancels, s'.desk.cancels, c, j);
    assert CallOn(s'.desk.cancels, c, j) ==> CallOn(s.desk.cancels, c, j);
    RetiredFrame(s'.tables, s.desk, s'.desk, j);
  }

  lemma RetiredFrame(t: Tables, d: Desk, d': Desk, j: JobId)
    requires RetiredOk(t, d, j) && d'.entries == d.entries && d'.deleted == d.deleted
    ensures RetiredOk(t, d', j)
  {
  }

  lemma CancelSettleKeeps(cfg: Config, s: State, c: CallId, ok: bool, j: JobId)
    requires Inv(cfg, s) && CancelInv(s, j) && Enabled(s, CancelSettle(c, ok))
    ensures CancelInv(Do(cfg, s, CancelSettle(c, ok)), j)
  {
    hide Inv, Logged, HasSpool, Mutate, Apply, RetiredOk;
    EditStepKeeps(cfg, s, CancelSettle(c, ok), j);
    var s' := Do(cfg, s, CancelSettle(c, ok));
    CallsMove(s.desk.cancels, s'.desk.cancels, c, j);
    assert CallOn(s'.desk.cancels, c, j) <==> CallOn(s.desk.cancels, c, j);
    RetiredFrame(s'.tables, s.desk, s'.desk, j);
    CancelEnds(cfg, s, s.desk.cancels[c].job, ok);
  }

  lemma CancelEnds(cfg: Config, s: State, j: JobId, ok: bool)
    requires Inv(cfg, s)
    ensures j !in Mutate(s.tables, j, Cancel, ok).active
  {
    hide Inv;
    if j in s.tables.active { OpenActive(cfg, s, j); }
  }

  lemma OpenActive(cfg: Config, s: State, j: JobId)
    requires Inv(cfg, s) && j in s.tables.active
    ensures !IsTerminal(s.tables.active[j].status)
  {
    assert ActiveOk(s.tables, s.flow.place, j, s.tables.active[j]);
  }

  lemma CancelUnmarkKeeps(cfg: Config, s: State, c: CallId, j: JobId)
    requires CancelInv(s, j) && Enabled(s, CancelUnmark(c))
    ensures CancelInv(Do(cfg, s, CancelUnmark(c)), j)
  {
    hide Logged, HasSpool, Finished;
    var s' := Do(cfg, s, CancelUnmark(c));
    CallsMove(s.desk.cancels, s'.desk.cancels, c, j);
    assert !CallOn(s'.desk.cancels, c, j);
    assert CallOn(s.desk.cancels, c, j) <==> s.desk.cancels[c].job == j;
  }

  lemma DeskStepKeeps(cfg: Config, s: State, t: Step, j: JobId)
    requires Inv(cfg, s) && CancelInv(s, j) && Enabled(s, t) && Careful(s, t, j) && IsDeskStep(t)
    ensures CancelInv(Do(cfg, s, t), j)
  {
    hide Inv, CancelInv, Do, Enabled, Careful;
    match t
    case MonitorApply(k, ok) => MonitorApplyKeeps(cfg, s, k, ok, j);
    case CancelRead(c, k, fromStore) => CancelReadKeeps(cfg, s, c, k, fromStore, j);
    case CancelQueued(c, ok) => CancelQueuedKeeps(cfg, s, c, ok, j);
    case CancelMark(c) => CancelMarkKeeps(cfg, s, c, j);
    case CancelDelete(c, deletes) =>
      if deletes { DeleteKeeps(cfg, s, c, j); } else { DeleteFailsKeeps(cfg, s, c, j); }
    case CancelSettle(c, ok) => CancelSettleKeeps(cfg, s, c, ok, j);
    case CancelUnmark(c) => CancelUnmarkKeeps(cfg, s, c, j);
    case _ => WatchStepKeeps(cfg, s, t, j);
  }

  // ------------------------------------------------------------------ lifecycle steps

  lemma CrashKeeps(cfg: Config, s: State, j: JobId)
    requires Inv(cfg, s) && CancelInv(s, j) && Enabled(s, Crash) && Careful(s, Crash, j)
    ensures CancelInv(Do(cfg, s, Crash), j)
  {
    hide Inv, Logged;
    if j in s.desk.deleted && j in s.tables.repo { SettledIsTerminal(cfg, s, j); }
  }

  lemma SettledIsTerminal(cfg: Config, s: State, j: JobId)
    requires Inv(cfg, s) && CancelInv(s, j) && j in s.desk.deleted && j in s.tables.repo
    requires j !in s.tables.active && j !in s.tables.dirty
    ensures IsTerminal(s.tables.repo[j].status)
  {
    hide Inv, Logged, CallsOk, AimsOk, MonitorTrue, RetiredOk;
    LoggedIsSent(cfg, s, j);
    JobFacts(cfg, s, j);
    if !s.phase.Serving? { NoCallsBeforeServing(cfg, s); }
  }

  lemma NoCallsBeforeServing(cfg: Config, s: State)
    requires Inv(cfg, s) && !s.phase.Serving?
    ensures s.desk.cancels == map[]
  {
  }

  lemma RestartKeeps(cfg: Config, s: State, t: Step, j: JobId)
    requires Inv(cfg, s) && CancelInv(s, j) && Enabled(s, t) && (t.Boot? || t.Serve?)
    ensures CancelInv(Do(cfg, s, t), j)
  {
    hide Inv, Logged, CallsOk, AimsOk, RetiredOk, MonitorTrue;
  }

  lemma PurgeKeeps(cfg: Config, s: State, cutoff: nat, j: JobId)
    requires Inv(cfg, s) && CancelInv(s, j) && Enabled(s, Purge(cutoff))
    ensures CancelInv(Do(cfg, s, Purge(cutoff)), j)
  {
    hide Inv, Logged, CallsOk, MonitorTrue;
  }

  lemma ReconcileKeeps(cfg: Config, s: State, k: JobId, known: bool, ok: bool, j: JobId)
    requires Inv(cfg, s) && CancelInv(s, j) && Enabled(s, Reconcile(k, known, ok))
    ensures CancelInv(Do(cfg, s, Reconcile(k, known, ok)), j)
  {
    hide Inv, Logged, CallsOk, AimsOk, CancelInv, DeletedOk, Apply, RestartChange, Mutate, RetiredOk, MonitorTrue;
    IdleFacts(cfg, s, j);
    var row, s' := s.phase.todo[k], Do(cfg, s, Reconcile(k, known, ok));
    TodoIsPlaced(cfg, s, k);
    NoCallsBeforeServing(cfg, s);
    JobFacts(cfg, s, k);
    LoadKeeps(s.tables, s.desk, s'.desk, k, row, j);
    if !Resumes(row, known) { SettleRowKeeps(s.tables.(active := s.tables.active[k := row]), s.desk, k, row, ok, j); }
    IdleCancels(s', j);
  }

  /** Before the engine serves, no cancellation is in progress. */
  lemma IdleFacts(cfg: Config, s: State, j: JobId)
    requires Inv(cfg, s) && CancelInv(s, j) && !s.phase.Serving?
    ensures RetiredOk(s.tables, s.desk, j) && MonitorTrue(s.desk, j) && s.desk.cancels == map[]
    ensures j in s.desk.deleted ==> Logged(s.trace.log, j) && Finished(s.tables, s.phase, j)
    ensures j in s.tables.active && j in s.tables.repo && s.tables.repo[j].spool.Some? ==>
              s.tables.active[j].spool == s.tables.repo[j].spool
  {
    hide Inv, Logged;
    NoCallsBeforeServing(cfg, s);
  }

  lemma IdleCancels(s: State, j: JobId)
    requires RetiredOk(s.tables, s.desk, j) && MonitorTrue(s.desk, j) && s.desk.cancels == map[]
    requires j in s.desk.deleted ==> Logged(s.trace.log, j) && Finished(s.tables, s.phase, j)
    requires j in s.tables.active && j in s.tables.repo && s.tables.repo[j].spool.Some? ==>
               s.tables.active[j].spool == s.tables.repo[j].spool
    ensures CancelInv(s, j)
  {
    hide Logged;
  }

  /** A row that is loaded again was not deleted, and its monitor starts afresh. */
  lemma LoadKeeps(t: Tables, d: Desk, d': Desk, k: JobId, row: Job, j: JobId)
    requires RetiredOk(t, d, j) && MonitorTrue(d, j)
    requires d' == d || (row.spool.Some? && d' == d.(monitors := d.monitors[k := Monitor(row.spool.value, Sleeping)]))
    ensures RetiredOk(t.(active := t.active[k := row]), d', j) && MonitorTrue(d', j)
  {
  }

  lemma SettleRowKeeps(t: Tables, d: Desk, k: JobId, row: Job, ok: bool, j: JobId)
    requires k in t.active && t.active[k] == row && k in t.repo && t.repo[k] == row
    requires Consistent(row) && !IsTerminal(row.status) && RetiredOk(t, d, j)
    ensures
      var t' := Mutate(t, k, RestartChange(row), ok);
      && RetiredOk(t', d, j) && k !in t'.active
      && (j != k ==> (j in t'.repo <==> j in t.repo) && (j in t.repo ==> t'.repo[j] == t.repo[j])
                     && (j in t'.active <==> j in t.active) && (j in t.active ==> t'.active[j] == t.active[j]))
  {
    hide Apply, Consistent, RestartChange;
    RestartIsGentle(row);
  }

  /** Settling a leftover row changes neither its spooler id nor calls it retired. */
  lemma RestartIsGentle(row: Job)
    requires Consistent(row) && !IsTerminal(row.status)
    ensures
      var after := Apply(RestartChange(row), row);
      after.spool == row.spool && after.completion != Some(SpoolerJobRetired) && IsTerminal(after.status)
  {
  }

  lemma ShutdownKeeps(cfg: Config, s: State, t: Step, j: JobId)
    requires Inv(cfg, s) && CancelInv(s, j) && Enabled(s, t)
    requires t.ShutdownSignal? || t.ShutdownSnapshot? || t.ShutdownFail?
    ensures CancelInv(Do(cfg, s, t), j)
  {
    hide Inv, CancelInv, Mutate, Logged, DoSubmit, SubmitEnabled, DoWorker, WorkerEnabled, DoDesk, DeskEnabled;
    EditStepKeeps(cfg, s, t, j);
    CancelFrame(s.(tables := Do(cfg, s, t).tables), Do(cfg, s, t), j);
  }

  lemma CancelStepKeeps(cfg: Config, s: State, t: Step, j: JobId)
    requires Inv(cfg, s) && CancelInv(s, j) && Enabled(s, t) && Careful(s, t, j)
    ensures CancelInv(Do(cfg, s, t), j)
  {
    hide Inv, CancelInv, Do, Enabled, Careful;
    if !TouchesDesk(t) {
      QuietStepKeeps(cfg, s, t, j);
    } else if IsDeskStep(t) {
      DeskStepKeeps(cfg, s, t, j);
    } else {
      match t
      case WorkerSettle(g, ok) => SettleKeeps(cfg, s, g, ok, j);
      case ProviderReturn(g, r) => ReturnKeeps(cfg, s, g, r, j);
      case Crash => CrashKeeps(cfg, s, j);
      case Boot => RestartKeeps(cfg, s, t, j);
      case Serve => RestartKeeps(cfg, s, t, j);
      case Purge(cutoff) => PurgeKeeps(cfg, s, cutoff, j);
      case Reconcile(k, known, ok) => ReconcileKeeps(cfg, s, k, known, ok, j);
      case _ => ShutdownKeeps(cfg, s, t, j);
    }
  }

  lemma {:induction false} CancelRunKeeps(cfg: Config, s: State, steps: seq<Step>, j: JobId)
    requires ValidConfig(cfg) && Inv(cfg, s) && CancelInv(s, j) && Runs(cfg, s, steps) && CarefulRun(cfg, s, steps, j)
    ensures CancelInv(After(cfg, s, steps), j)
    decreases |steps|
  {
    hide Inv, CancelInv, Do, Enabled, Careful;
    if steps != [] {
      CancelStepKeeps(cfg, s, steps[0], j);
      StepKeepsInv(cfg, s, steps[0]);
      CancelRunKeeps(cfg, Do(cfg, s, steps[0]), steps[1..], j);
    }
  }

  /**
   A job whose spooler entry was deleted by our own successful cancel is never recorded as
   COMPLETED with evidence SPOOLER_JOB_RETIRED, however the monitor's polls interleave.
   */
  lemma DeletedIsNeverRetired(cfg: Config, steps: seq<Step>, j: JobId)
    requires ValidConfig(cfg) && Runs(cfg, Init(), steps) && CarefulRun(cfg, Init(), steps, j)
    requires j in After(cfg, Init(), steps).desk.deleted
    ensures
      var t := After(cfg, Init(), steps).tables;
      j in t.repo ==> t.repo[j].completion != Some(SpoolerJobRetired)
  {
    hide Inv, Do, Enabled, Careful;
    InitInv(cfg);
    CancelRunKeeps(cfg, Init(), steps, j);
  }

  // ------------------------------------------------------------------ the decision of a monitor

  /** The monitor of `j` has read `cancelling` and decided on a change that it has not made yet. */
  predicate DecidedOn(s: State, j: JobId, c: Change) {
    j in s.desk.monitors && s.desk.monitors[j].pc == Decided(c)
  }

  predicate Leaves(t: Step, j: JobId) {
    !t.Crash? && !(t.MonitorApply? && t.job == j)
  }

  lemma DeskKeepsDecision(cfg: Config, s: State, t: Step, j: JobId, c: Change)
    requires IsDeskStep(t) && DeskEnabled(s, t) && DecidedOn(s, j, c) && Leaves(t, j)
    ensures DecidedOn(DoDesk(cfg, s, t), j, c)
  {
    hide Mutate;
  }

  lemma WorkerKeepsDecision(cfg: Config, s: State, t: Step, j: JobId, c: Change)
    requires Inv(cfg, s) && IsWorkerStep(t) && Enabled(s, t) && DecidedOn(s, j, c)
    ensures DecidedOn(Do(cfg, s, t), j, c)
  {
    hide Inv, Mutate, Release, ResultChange, Do, Enabled;
    EngineTokens.WorkerDo(cfg, s, t);
    if !TouchesDesk(t) {
      WorkerFrame(cfg, s, t, j);
    } else {
      EngineDesk.MonitorFacts(cfg, s, j);
      WorkerFacts(cfg, s, t.gen);
    }
  }

  lemma LifecycleKeepsDecision(cfg: Config, s: State, t: Step, j: JobId, c: Change)
    requires Inv(cfg, s) && IsLifecycleStep(t) && LifecycleEnabled(s, t) && DecidedOn(s, j, c) && Leaves(t, j)
    ensures DecidedOn(DoLifecycle(cfg, s, t), j, c)
  {
    hide Inv, Mutate, RestartChange;
    if t.Reconcile? { TodoIsPlaced(cfg, s, t.job); }
  }

  /** Whatever else happens, a monitor keeps its decision until it acts on it. */
  lemma DecisionStays(cfg: Config, s: State, t: Step, j: JobId, c: Change)
    requires Inv(cfg, s) && Enabled(s, t) && DecidedOn(s, j, c) && Leaves(t, j)
    ensures DecidedOn(Do(cfg, s, t), j, c)
  {
    hide Inv, DoSubmit, DoWorker, DoDesk, DoLifecycle, SubmitEnabled, WorkerEnabled, DeskEnabled, LifecycleEnabled, Leaves;
    if IsSubmitStep(t) {
      SubmitFrame(cfg, s, t);
    } else if IsWorkerStep(t) {
      WorkerKeepsDecision(cfg, s, t, j, c);
    } else if IsDeskStep(t) {
      DeskKeepsDecision(cfg, s, t, j, c);
    } else {
      LifecycleKeepsDecision(cfg, s, t, j, c);
    }
  }

  lemma {:induction false} DecisionStaysRun(cfg: Config, s: State, steps: seq<Step>, j: JobId, c: Change)
    requires ValidConfig(cfg) && Inv(cfg, s) && Runs(cfg, s, steps) && DecidedOn(s, j, c)
    requires forall i :: 0 <= i < |steps| ==> Leaves(steps[i], j)
    ensures DecidedOn(After(cfg, s, steps), j, c) && Inv(cfg, After(cfg, s, steps))
    decreases |steps|
  {
    hide Inv, Do, Enabled, DecidedOn;
    if steps != [] {
      DecisionStays(cfg, s, steps[0], j, c);
      StepKeepsInv(cfg, s, steps[0]);
      DecisionStaysRun(cfg, Do(cfg, s, steps[0]), steps[1..], j, c);
    }
  }

  lemma SpooledRecord(cfg: Config, s: State, j: JobId)
    requires Inv(cfg, s) && j in s.tables.active && j in s.desk.monitors
    ensures Consistent(s.tables.active[j]) && !IsTerminal(s.tables.active[j].status)
    ensures s.tables.active[j].delivery == SpoolerAccepted
  {
    assert ActiveOk(s.tables, s.flow.place, j, s.tables.active[j]);
    EngineDesk.MonitorFacts(cfg, s, j);
  }

  lemma RetiresIff(job: Job)
    requires Consistent(job) && !IsTerminal(job.status) && job.delivery == SpoolerAccepted
    ensures Apply(Retire, job).completion == Some(SpoolerJobRetired) && Apply(Retire, job).status == Completed
    ensures Apply(Cancel, job).completion.None? && Apply(Cancel, job).status == Cancelled
  {
  }

  /** A decided monitor settles an open record by its decision. */
  lemma DecisionSettles(cfg: Config, s: State, j: JobId, c: Change)
    requires Inv(cfg, s) && j in s.tables.active && DecidedOn(s, j, c) && (c.Retire? || c.Cancel?)
    ensures Enabled(s, MonitorApply(j, true))
    ensures
      var t := Do(cfg, s, MonitorApply(j, true)).tables;
      && j in t.repo && j !in t.active
      && (t.repo[j].completion == Some(SpoolerJobRetired) <==> c.Retire?)
      && (t.repo[j].status == Cancelled <==> c.Cancel?)
  {
    hide Inv, Apply, DoSubmit, DoWorker, DoLifecycle, SubmitEnabled, WorkerEnabled, LifecycleEnabled, Consistent;
    SpooledRecord(cfg, s, j);
    RetiresIff(s.tables.active[j]);
  }

  /**
   The exact condition, where the guard is read. When the monitor has found the entry gone and
   looks at `cancelling` in state `s`, then after anything else that leaves the job open it
   records SPOOLER_JOB_RETIRED iff the job was not in the set in `s`, and CANCELLED iff it was.
   */
  lemma DecisionRetiresIff(cfg: Config, s: State, j: JobId, steps: seq<Step>)
    requires ValidConfig(cfg) && Reachable(cfg, s)
    requires j in s.desk.monitors && s.desk.monitors[j].pc == Observed(Vanished)
    requires Enabled(s, MonitorDecide(j)) && Runs(cfg, Do(cfg, s, MonitorDecide(j)), steps)
    requires forall i :: 0 <= i < |steps| ==> Leaves(steps[i], j)
    requires j in After(cfg, Do(cfg, s, MonitorDecide(j)), steps).tables.active
    ensures
      var s' := After(cfg, Do(cfg, s, MonitorDecide(j)), steps);
      && Enabled(s', MonitorApply(j, true))
      && var t := Do(cfg, s', MonitorApply(j, true)).tables;
         && j in t.repo && j !in t.active
         && (t.repo[j].completion == Some(SpoolerJobRetired) <==> j !in s.desk.cancelling)
         && (t.repo[j].status == Cancelled <==> j in s.desk.cancelling)
  {
    hide Inv, Runs, After, Leaves, Reachable, DoSubmit, DoWorker, DoLifecycle, SubmitEnabled, WorkerEnabled, LifecycleEnabled;
    var s1, c := Do(cfg, s, MonitorDecide(j)), if j in s.desk.cancelling then Cancel else Retire;
    ReachableInv(cfg, s);
    StepKeepsInv(cfg, s, MonitorDecide(j));
    DecisionStaysRun(cfg, s1, steps, j, c);
    DecisionSettles(cfg, After(cfg, s1, steps), j, c);
  }
}
