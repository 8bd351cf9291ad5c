/**
 What the engine promises over every run: at most one submission per job and per key, order
 and exclusiveness per printer, exact budget accounting, a store that never rewrites history,
 and truthful answers about whether a job was sent.
 */
module EngineSafety {
  import opened Wrappers
  import opened Jobs
  import opened EngineModel
  import opened EngineInvariant
  import opened EngineRecords
  import opened EngineSubmit
  import opened EngineLifecycle

  /** Some run of the engine, from an empty store and through any number of crashes, ends in `s`. */
  ghost predicate Reachable(cfg: Config, s: State) {
    exists steps :: Runs(cfg, Init(), steps) && After(cfg, Init(), steps) == s
  }

  lemma ReachableInv(cfg: Config, s: State)
    requires ValidConfig(cfg) && Reachable(cfg, s)
    ensures Inv(cfg, s)
  {
    hide Inv;
    var steps :| Runs(cfg, Init(), steps) && After(cfg, Init(), steps) == s;
    InitInv(cfg);
    RunKeepsInv(cfg, Init(), steps);
  }

  // ------------------------------------------------------------------ never print twice

  /** `provider.submit` is called at most once per job, whatever is interleaved. */
  lemma AtMostOncePerJob(cfg: Config, s: State, i: nat, k: nat)
    requires ValidConfig(cfg) && Reachable(cfg, s) && i < k < |s.trace.log|
    ensures s.trace.log[i].job != s.trace.log[k].job
  {
    ReachableInv(cfg, s);
  }

  /** At most once per client and idempotency key, as long as no record of that key was purged. */
  lemma AtMostOncePerKey(cfg: Config, s: State, i: nat, k: nat)
    requires ValidConfig(cfg) && Reachable(cfg, s) && i < k < |s.trace.log|
    requires s.trace.log[i].key.Some? && s.trace.log[i].client == s.trace.log[k].client
    requires s.trace.log[i].key == s.trace.log[k].key
    ensures (s.trace.log[i].client, s.trace.log[i].key.value) in s.tables.purgedKeys
  {
    ReachableInv(cfg, s);
    var a, b := s.trace.log[i], s.trace.log[k];
    assert EntryOk(s.flow.place, s.flow.requests, a) && EntryOk(s.flow.place, s.flow.requests, b);
    StoredKeysDiffer(cfg, s, a.job, b.job);
  }

  lemma StoredKeysDiffer(cfg: Config, s: State, a: JobId, b: JobId)
    requires Inv(cfg, s) && a in s.flow.requests && b in s.flow.requests && a != b
    requires s.flow.requests[a].key.Some? && s.flow.requests[a].client == s.flow.requests[b].client
    requires s.flow.requests[a].key == s.flow.requests[b].key
    ensures a !in s.tables.repo || b !in s.tables.repo
  {
    var t := s.tables;
    assert a in t.repo ==> RowOk(t, s.flow.place, s.flow.requests, s.phase, a, t.repo[a]);
    assert b in t.repo ==> RowOk(t, s.flow.place, s.flow.requests, s.phase, b, t.repo[b]);
    OneRecordPerKey(t, s.flow.requests, a, b);
  }

  lemma OneRecordPerKey(t: Tables, requests: map<JobId, Request>, a: JobId, b: JobId)
    requires Keys(t, requests) && a != b
    ensures a in t.repo && b in t.repo ==> !SameKey(t.repo[a], t.repo[b])
  {
  }

  // ------------------------------------------------------------------ one printer, one order

  /** Two provider calls in progress for one printer are the same call. */
  lemma SubmissionsDoNotOverlap(cfg: Config, s: State, a: JobId, b: JobId)
    requires ValidConfig(cfg) && Reachable(cfg, s) && a in s.flow.running && b in s.flow.running
    requires s.flow.running[a] in s.flow.queues && s.flow.running[b] in s.flow.queues
    requires s.flow.queues[s.flow.running[a]].printer == s.flow.queues[s.flow.running[b]].printer
    ensures a == b
  {
    ReachableInv(cfg, s);
    assert RunningOk(s.flow, a, s.flow.running[a]) && RunningOk(s.flow, b, s.flow.running[b]);
    QueueFacts(cfg, s.flow, s.flow.running[a]);
    QueueFacts(cfg, s.flow, s.flow.running[b]);
  }

  /** Within one process a printer's submissions follow the order of its successful sends. */
  lemma SubmissionsFollowSends(cfg: Config, s: State, p: PrinterId)
    requires ValidConfig(cfg) && Reachable(cfg, s)
    ensures Subsequence(Sent(s.trace.calls, p), Sent(s.trace.sends, p))
  {
    hide Tokens, History, Budget, Records, Keys, Watch, Phases, Reachable, InOrder, Subsequence, Waiters;
    ReachableInv(cfg, s);
    assert PrinterOrder(s.flow, s.trace, p);
    EngineBudget.OrderedCalls(Sent(s.trace.sends, p), Sent(s.trace.calls, p), Waiters(s.flow, p));
  }

  /** A claimed job whose record is still open is about to go to the printer the record names. */
  lemma SubmittedToItsPrinter(cfg: Config, s: State, g: Gen)
    requires ValidConfig(cfg) && Reachable(cfg, s) && Enabled(s, WorkerCall(g))
    requires s.flow.queues[g].worker.job in s.tables.active
    ensures s.tables.active[s.flow.queues[g].worker.job].printer == Some(s.flow.queues[g].printer)
  {
    hide History, Budget, Records, Keys, Watch, Phases, Order, Reachable;
    ReachableInv(cfg, s);
    QueueFacts(cfg, s.flow, g);
    JobFacts(cfg, s, s.flow.queues[g].worker.job);
  }

  // ------------------------------------------------------------------ byte budget

  /** The counter is the sum of the live reservations, within its limit, and nobody else holds bytes. */
  lemma BudgetIsExact(cfg: Config, s: State, j: JobId)
    requires ValidConfig(cfg) && Reachable(cfg, s)
    ensures s.bytes.used == Total(s.bytes.reservations, s.flow.nextId)
    ensures 0 <= s.bytes.used <= cfg.budgetLimit
    ensures j in s.bytes.reservations <==> j in s.flow.place && Holds(s.flow.place[j], j in s.flow.running)
  {
    ReachableInv(cfg, s);
  }

  // ------------------------------------------------------------------ records

  /** Every record in memory or in the store is consistent; stored ones keep their key. */
  lemma RecordsAreConsistent(cfg: Config, s: State, j: JobId)
    requires ValidConfig(cfg) && Reachable(cfg, s)
    ensures j in s.tables.active ==> Consistent(s.tables.active[j]) && !IsTerminal(s.tables.active[j].status)
    ensures j in s.tables.repo ==> Consistent(s.tables.repo[j])
  {
    ReachableInv(cfg, s);
    assert j in s.tables.active ==> ActiveOk(s.tables, s.flow.place, j, s.tables.active[j]);
    assert j in s.tables.repo ==> RowOk(s.tables, s.flow.place, s.flow.requests, s.phase, j, s.tables.repo[j]);
  }

  /** The two internal-error branches of `cancel` cannot be taken. */
  lemma SpooledJobsAreComplete(cfg: Config, s: State, j: JobId, fromStore: bool)
    requires ValidConfig(cfg) && Reachable(cfg, s)
    requires JobRead(s.tables, j, fromStore).Some?
    requires JobRead(s.tables, j, fromStore).value.delivery == SpoolerAccepted
    ensures
      var job := JobRead(s.tables, j, fromStore).value;
      job.spool.Some? && job.printer.Some?
  {
    RecordsAreConsistent(cfg, s, j);
  }

  /** With no lost write the active table is the non-terminal part of the store, row by row. */
  lemma ActiveIsWriteThrough(cfg: Config, s: State, j: JobId)
    requires ValidConfig(cfg) && Reachable(cfg, s) && j !in s.tables.dirty
    requires s.phase.Serving? && s.flow.gate != Some(j)
    ensures j in s.tables.active <==> j in s.tables.repo && !IsTerminal(s.tables.repo[j].status)
    ensures j in s.tables.active ==> s.tables.active[j] == s.tables.repo[j]
  {
    ReachableInv(cfg, s);
    if j in s.tables.active {
      assert ActiveOk(s.tables, s.flow.place, j, s.tables.active[j]);
    } else if j in s.tables.repo {
      assert RowOk(s.tables, s.flow.place, s.flow.requests, s.phase, j, s.tables.repo[j]);
      JobFacts(cfg, s, j);
    }
  }

  /** What one step may do to a stored row: nothing, drop it when terminal, or move it forward. */
  ghost predicate RowAdvances(t: Tables, t': Tables, j: JobId) {
    j in t.repo ==>
      if j in t'.repo then
        || t'.repo[j] == t.repo[j]
        || (&& !IsTerminal(t.repo[j].status)
            && SameIdentity(t.repo[j], t'.repo[j])
            && Moves(t.repo[j].delivery, t'.repo[j].delivery))
      else IsTerminal(t.repo[j].status)
  }

  /** What one step may do to an active record: nothing, remove it, or move it forward. */
  ghost predicate ActiveAdvances(t: Tables, t': Tables, j: JobId) {
    j in t.active && j in t'.active ==>
      SameIdentity(t.active[j], t'.active[j]) && Moves(t.active[j].delivery, t'.active[j].delivery)
  }

  /** The `mutate` call a step makes, if any. */
  datatype Edit = NoEdit | Edit(job: JobId, change: Change, ok: bool)

  ghost function EditOf(s: State, t: Step): Edit
    requires Enabled(s, t)
  {
    match t
    case SubmitValidate(j, ok) => Edit(j, StartValidating, ok)
    case SubmitResolve(j, p, ok) => Edit(j, RecordPrinter(p), ok)
    case SubmitMark(j, ok) => Edit(j, MarkQueued, ok)
    case SubmitFail(j, ok) => Edit(j, Fail(s.flow.place[j].pc.error), ok)
    case WorkerClaim(g, ok) => Edit(s.flow.queues[g].worker.job, Claim, ok)
    case WorkerNoProvider(g, e, ok) => Edit(s.flow.queues[g].worker.job, Fail(e), ok)
    case WorkerSettle(g, ok) => Edit(s.flow.queues[g].worker.job, ResultChange(s.flow.queues[g].worker.result.value), ok)
    case WorkerTimeout(g, ok) => Edit(s.flow.queues[g].worker.job, Fail(TimedOut()), ok)
    case MonitorApply(j, ok) => Edit(j, s.desk.monitors[j].pc.change, ok)
    case CancelQueued(c, ok) => Edit(s.desk.cancels[c].job, CancelUnsent, ok)
    case CancelSettle(c, ok) => Edit(s.desk.cancels[c].job, Cancel, ok)
    case ShutdownFail(j, ok) => Edit(j, Fail(NotSent()), ok)
    case _ => NoEdit
  }

  predicate ChangesTables(t: Step) {
    t.SubmitInsert? || t.SubmitActivate? || t.Purge? || t.Crash? || t.Reconcile?
  }

  ghost predicate IsEdit(cfg: Config, s: State, t: Step)
    requires Enabled(s, t)
  {
    var e := EditOf(s, t);
    Do(cfg, s, t).tables == if e.Edit? then Mutate(s.tables, e.job, e.change, e.ok) else s.tables
  }

  lemma SubmitEdits(cfg: Config, s: State, t: Step)
    requires Enabled(s, t) && !ChangesTables(t) && IsSubmitStep(t)
    ensures IsEdit(cfg, s, t)
  {
    hide Apply, Do, Enabled;
    EngineTokens.SubmitDo(cfg, s, t);
  }

  lemma WorkerEdits(cfg: Config, s: State, t: Step)
    requires Enabled(s, t) && IsWorkerStep(t)
    ensures IsEdit(cfg, s, t)
  {
    hide Apply, Mutate, Release, Do, Enabled, Call, Return, ResultChange;
    EngineTokens.WorkerDo(cfg, s, t);
    if t.WorkerCall? {
      CallTables(s, t.gen);
    } else if t.ProviderReturn? {
      ReturnTables(s, t.gen, t.result);
    } else if t.WorkerClaim? {
      NoJobNoEdit(s.tables, s.flow.queues[t.gen].worker.job, Claim, t.ok);
    }
  }

  lemma CallTables(s: State, g: Gen)
    requires WorkerEnabled(s, WorkerCall(g))
    ensures Call(s, g).tables == s.tables
  {
  }

  lemma ReturnTables(s: State, g: Gen, r: SubmitResult)
    requires WorkerEnabled(s, ProviderReturn(g, r))
    ensures Return(s, g, r).tables == s.tables
  {
    hide Release;
  }

  lemma NoJobNoEdit(t: Tables, j: JobId, c: Change, ok: bool)
    ensures j !in t.active ==> Mutate(t, j, c, ok) == t
  {
    hide Apply;
  }

  /** Every change to an existing record goes through `mutate`, except for purging and reloading. */
  lemma EditsAreMutations(cfg: Config, s: State, t: Step)
    requires Enabled(s, t) && !ChangesTables(t)
    ensures IsEdit(cfg, s, t)
  {
    hide Apply, DoSubmit, DoWorker, SubmitEnabled, WorkerEnabled;
    if IsSubmitStep(t) {
      SubmitEdits(cfg, s, t);
    } else if IsWorkerStep(t) {
      WorkerEdits(cfg, s, t);
    }
  }

  /** The situation in which an edit changes the delivery stage. */
  ghost predicate InTurn(t: Tables, j: JobId, c: Change) {
    j in t.active ==>
      && (c.Claim? ==> t.active[j].delivery == RequestAccepted)
      && (c.MarkSpooled? || c.MarkDelivered? ==> t.active[j].delivery == Submitting)
  }

  /** The open row of an active job: the same job, no further than the active record. */
  ghost predicate RowBehind(t: Tables, j: JobId) {
    j in t.active ==>
      && j in t.repo && !IsTerminal(t.repo[j].status) && SameIdentity(t.repo[j], t.active[j])
      && Moves(t.repo[j].delivery, t.active[j].delivery)
  }

  lemma ApplyMoves(c: Change, job: Job)
    requires c.Claim? ==> job.delivery == RequestAccepted
    requires c.MarkSpooled? || c.MarkDelivered? ==> job.delivery == Submitting
    ensures Moves(job.delivery, Apply(c, job).delivery) && SameIdentity(job, Apply(c, job))
  {
  }

  lemma MutateAdvances(t: Tables, j: JobId, c: Change, ok: bool, k: JobId)
    requires RowBehind(t, j) && InTurn(t, j, c)
    ensures RowAdvances(t, Mutate(t, j, c, ok), k) && ActiveAdvances(t, Mutate(t, j, c, ok), k)
  {
    hide Apply;
    if j in t.active { ApplyMoves(c, t.active[j]); }
  }

  lemma WorkerJobFacts(cfg: Config, s: State, g: Gen)
    requires Inv(cfg, s) && g in s.flow.queues
    ensures
      var w := s.flow.queues[g].worker;
      && (w.Has? && w.job in s.tables.active ==> s.tables.active[w.job].delivery == RequestAccepted)
      && (w.Waits? && !w.timedOut && w.job in s.tables.active ==> s.tables.active[w.job].delivery == Submitting)
  {
    hide History, Budget, Records, Keys, Watch, Phases, Order;
    QueueFacts(cfg, s.flow, g);
    var w := s.flow.queues[g].worker;
    if w.Has? || w.Waits? { JobFacts(cfg, s, w.job); }
  }

  lemma EditsAreInTurn(cfg: Config, s: State, t: Step)
    requires Inv(cfg, s) && Enabled(s, t) && EditOf(s, t).Edit?
    ensures InTurn(s.tables, EditOf(s, t).job, EditOf(s, t).change)
  {
    hide Inv, Apply;
    if t.WorkerClaim? || t.WorkerSettle? {
      WorkerJobFacts(cfg, s, t.gen);
    } else if t.MonitorApply? {
      EngineDesk.MonitorFacts(cfg, s, t.job);
    }
  }

  /** The tables after a step that changes them other than by one `mutate`. */
  ghost function TablesAfter(s: State, t: Step): Tables
    requires ChangesTables(t) && Enabled(s, t)
  {
    match t
    case SubmitInsert(client, key, size, now) =>
      s.tables.(repo := s.tables.repo[s.flow.nextId := NewJob(s.flow.nextId, client, key, now)])
    case SubmitActivate(j) => s.tables.(active := s.tables.active[j := s.tables.repo[j]])
    case Purge(cutoff) => PurgeRows(s.tables, cutoff)
    case Reconcile(j, known, ok) =>
      var row := s.phase.todo[j];
      var loaded := s.tables.(active := s.tables.active[j := row]);
      if Resumes(row, known) then loaded else Mutate(loaded, j, RestartChange(row), ok)
    case _ => s.tables.(active := map[])
  }

  lemma TablesAfterIs(cfg: Config, s: State, t: Step)
    requires ChangesTables(t) && Enabled(s, t)
    ensures Do(cfg, s, t).tables == TablesAfter(s, t)
  {
    hide Mutate, RestartChange, PurgeRows, DoWorker, WorkerEnabled, DoDesk, DeskEnabled;
  }

  lemma InsertAdvances(cfg: Config, s: State, row: Job, j: JobId)
    requires Inv(cfg, s)
    ensures
      var t' := s.tables.(repo := s.tables.repo[s.flow.nextId := row]);
      RowAdvances(s.tables, t', j) && ActiveAdvances(s.tables, t', j)
  {
    hide Inv;
    FreshId(cfg, s);
  }

  lemma ActivateAdvances(cfg: Config, s: State, k: JobId, j: JobId)
    requires Inv(cfg, s) && k in s.tables.repo && k in s.flow.place && s.flow.place[k] == AtSubmit(Inserted)
    ensures
      var t' := s.tables.(active := s.tables.active[k := s.tables.repo[k]]);
      RowAdvances(s.tables, t', j) && ActiveAdvances(s.tables, t', j)
  {
    hide Inv;
    JobFacts(cfg, s, k);
  }

  lemma PurgeAdvances(t: Tables, cutoff: nat, j: JobId)
    ensures RowAdvances(t, PurgeRows(t, cutoff), j) && ActiveAdvances(t, PurgeRows(t, cutoff), j)
  {
  }

  lemma ReconcileStepAdvances(cfg: Config, s: State, k: JobId, known: bool, ok: bool, j: JobId)
    requires Inv(cfg, s) && s.phase.Reconciling? && k in s.phase.todo
    ensures
      var row := s.phase.todo[k];
      var loaded := s.tables.(active := s.tables.active[k := row]);
      var t' := if Resumes(row, known) then loaded else Mutate(loaded, k, RestartChange(row), ok);
      RowAdvances(s.tables, t', j) && ActiveAdvances(s.tables, t', j)
  {
    hide Inv, Mutate, RestartChange;
    TodoIsPlaced(cfg, s, k);
    JobFacts(cfg, s, k);
    ReconcileAdvances(s.tables, s.phase.todo[k], k, ok, j);
  }

  lemma TableStepAdvances(cfg: Config, s: State, t: Step, j: JobId)
    requires Inv(cfg, s) && Enabled(s, t) && ChangesTables(t)
    ensures RowAdvances(s.tables, Do(cfg, s, t).tables, j) && ActiveAdvances(s.tables, Do(cfg, s, t).tables, j)
  {
    hide Inv, Do, PurgeRows, RestartChange, RowAdvances, ActiveAdvances, DoWorker, WorkerEnabled, DoDesk, DeskEnabled;
    TablesAfterIs(cfg, s, t);
    match t
    case SubmitInsert(client, key, _, now) => InsertAdvances(cfg, s, NewJob(s.flow.nextId, client, key, now), j);
    case SubmitActivate(k) => ActivateAdvances(cfg, s, k, j);
    case Purge(cutoff) => PurgeAdvances(s.tables, cutoff, j);
    case Reconcile(k, known, ok) => ReconcileStepAdvances(cfg, s, k, known, ok, j);
    case _ => ClearedAdvances(s.tables, j);
  }

  lemma ClearedAdvances(t: Tables, j: JobId)
    ensures RowAdvances(t, t.(active := map[]), j) && ActiveAdvances(t, t.(active := map[]), j)
  {
  }

  /** One step never rewrites a terminal row, and moves delivery only forward, in the store and in
      the active table. */
  lemma StepAdvances(cfg: Config, s: State, t: Step, j: JobId)
    requires Inv(cfg, s) && Enabled(s, t)
    ensures RowAdvances(s.tables, Do(cfg, s, t).tables, j) && ActiveAdvances(s.tables, Do(cfg, s, t).tables, j)
  {
    hide Inv, Apply, Do, Enabled, EditOf, RowAdvances, ActiveAdvances, Mutate, InTurn;
    if ChangesTables(t) {
      TableStepAdvances(cfg, s, t, j);
    } else {
      EditsAreMutations(cfg, s, t);
      var e := EditOf(s, t);
      if e.Edit? {
        OpenRow(cfg, s, e.job);
        EditsAreInTurn(cfg, s, t);
        MutateAdvances(s.tables, e.job, e.change, e.ok, j);
      } else {
        SameTablesAdvance(s.tables, j);
      }
    }
  }

  lemma SameTablesAdvance(t: Tables, j: JobId)
    ensures RowAdvances(t, t, j) && ActiveAdvances(t, t, j)
  {
  }

  lemma OpenRow(cfg: Config, s: State, j: JobId)
    requires Inv(cfg, s)
    ensures RowBehind(s.tables, j)
  {
    if j in s.tables.active {
      assert ActiveOk(s.tables, s.flow.place, j, s.tables.active[j]);
      assert RowOk(s.tables, s.flow.place, s.flow.requests, s.phase, j, s.tables.repo[j]);
    }
  }

  lemma ReconcileAdvances(t: Tables, row: Job, j: JobId, ok: bool, k: JobId)
    requires j in t.repo && t.repo[j] == row && !IsTerminal(row.status) && Consistent(row)
    ensures
      var t' := Mutate(t.(active := t.active[j := row]), j, RestartChange(row), ok);
      RowAdvances(t, t', k) && (j !in t.active ==> ActiveAdvances(t, t', k))
  {
    RestartSettles(row);
  }
}
