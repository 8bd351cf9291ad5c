/**
 What the history variables of the engine mean: which writes were lost, which keys were forgotten,
 what was handed to which printer, and how many bytes each job holds. The promises that mention
 these variables are promises about what really happened in the run.
 */
module EngineHistory {
  import opened Wrappers
  import opened Jobs
  import opened EngineModel
  import opened EngineInvariant
  import opened EngineSubmit
  import opened EngineLifecycle
  import opened EngineSafety
  import opened EngineOutcomes
  import opened EngineRequests

  // ------------------------------------------------------------------ lost writes

  /** The store refuses the update that the step makes. */
  predicate WriteFails(t: Step) {
    match t
    case SubmitValidate(_, ok) => !ok
    case SubmitResolve(_, _, ok) => !ok
    case SubmitMark(_, ok) => !ok
    case SubmitFail(_, ok) => !ok
    case WorkerClaim(_, ok) => !ok
    case WorkerNoProvider(_, _, ok) => !ok
    case WorkerSettle(_, ok) => !ok
    case WorkerTimeout(_, ok) => !ok
    case MonitorApply(_, ok) => !ok
    case CancelQueued(_, ok) => !ok
    case CancelSettle(_, ok) => !ok
    case ShutdownFail(_, ok) => !ok
    case Reconcile(_, _, ok) => !ok
    case _ => false
  }

  lemma EditFails(s: State, t: Step)
    requires Enabled(s, t) && EditOf(s, t).Edit?
    ensures EditOf(s, t).ok <==> !WriteFails(t)
  {
    hide Enabled;
  }

  lemma DirtyTableStep(cfg: Config, s: State, t: Step, j: JobId)
    requires Enabled(s, t) && ChangesTables(t) && j in Do(cfg, s, t).tables.dirty && j !in s.tables.dirty
    ensures WriteFails(t)
  {
    hide Do, Enabled, Apply, RestartChange;
    TablesAfterIs(cfg, s, t);
  }

  lemma DirtyStep(cfg: Config, s: State, t: Step, j: JobId)
    requires Enabled(s, t) && j in Do(cfg, s, t).tables.dirty && j !in s.tables.dirty
    ensures WriteFails(t)
  {
    hide Do, Enabled, Apply, EditOf;
    if ChangesTables(t) {
      DirtyTableStep(cfg, s, t, j);
    } else {
      EditsAreMutations(cfg, s, t);
      if EditOf(s, t).Edit? { EditFails(s, t); }
    }
  }

  lemma {:induction false} DirtyRun(cfg: Config, s: State, steps: seq<Step>, j: JobId)
    requires Runs(cfg, s, steps) && forall i :: 0 <= i < |steps| ==> !WriteFails(steps[i])
    ensures j in After(cfg, s, steps).tables.dirty ==> j in s.tables.dirty
    decreases |steps|
  {
    hide Do, Enabled;
    if steps != [] {
      if j !in s.tables.dirty && j in Do(cfg, s, steps[0]).tables.dirty { DirtyStep(cfg, s, steps[0], j); }
      DirtyRun(cfg, Do(cfg, s, steps[0]), steps[1..], j);
    }
  }

  /** As long as the store accepts every write, no job counts as having lost one; so everything that is
      claimed of such jobs is claimed of all. */
  lemma GoodStoreLosesNothing(cfg: Config, steps: seq<Step>)
    requires Runs(cfg, Init(), steps) && forall i :: 0 <= i < |steps| ==> !WriteFails(steps[i])
    ensures After(cfg, Init(), steps).tables.dirty == {}
  {
    hide Runs, After;
    forall j ensures j !in After(cfg, Init(), steps).tables.dirty { DirtyRun(cfg, Init(), steps, j); }
  }

  /** With a store that accepts every write, the active table is the open part of the store. */
  lemma GoodStoreIsWriteThrough(cfg: Config, steps: seq<Step>, j: JobId)
    requires ValidConfig(cfg) && Runs(cfg, Init(), steps) && forall i :: 0 <= i < |steps| ==> !WriteFails(steps[i])
    requires After(cfg, Init(), steps).phase.Serving? && After(cfg, Init(), steps).flow.gate != Some(j)
    ensures
      var t := After(cfg, Init(), steps).tables;
      && (j in t.active <==> j in t.repo && !IsTerminal(t.repo[j].status))
      && (j in t.active ==> t.active[j] == t.repo[j])
  {
    hide Runs, After, IsTerminal;
    GoodStoreLosesNothing(cfg, steps);
    assert Reachable(cfg, After(cfg, Init(), steps));
    ActiveIsWriteThrough(cfg, After(cfg, Init(), steps), j);
  }

  // ------------------------------------------------------------------ retention

  /** The record has ended and is older than the cutoff. */
  predicate Outdated(job: Job, cutoff: nat) {
    (job.status == Completed || job.status == Failed || job.status == Cancelled) && job.createdAt < cutoff
  }

  /** Retention removes exactly the outdated records, leaves the others and the active table alone, and
      forgets exactly the keys of what it removed. */
  lemma PurgeRemovesIff(cfg: Config, s: State, cutoff: nat, j: JobId, client: ClientId, key: Key)
    requires Enabled(s, Purge(cutoff))
    ensures
      var t, t' := s.tables, Do(cfg, s, Purge(cutoff)).tables;
      && (j in t'.repo <==> j in t.repo && !Outdated(t.repo[j], cutoff))
      && (j in t'.repo ==> t'.repo[j] == t.repo[j]) && t'.active == t.active && t'.dirty == t.dirty
      && ((client, key) in t'.purgedKeys <==>
            (client, key) in t.purgedKeys ||
            exists k :: k in t.repo && Outdated(t.repo[k], cutoff) && t.repo[k].client == client && t.repo[k].key == Some(key))
  {
  }

  lemma NoPurgeStep(cfg: Config, s: State, t: Step)
    requires Enabled(s, t) && !t.Purge?
    ensures Do(cfg, s, t).tables.purgedKeys == s.tables.purgedKeys
  {
    hide Do, Enabled, Apply, EditOf, RestartChange;
    if ChangesTables(t) { TablesAfterIs(cfg, s, t); } else { EditsAreMutations(cfg, s, t); }
  }

  lemma {:induction false} NoPurgeRun(cfg: Config, s: State, steps: seq<Step>)
    requires Runs(cfg, s, steps) && forall i :: 0 <= i < |steps| ==> !steps[i].Purge?
    ensures After(cfg, s, steps).tables.purgedKeys == s.tables.purgedKeys
    decreases |steps|
  {
    hide Do, Enabled;
    if steps != [] {
      NoPurgeStep(cfg, s, steps[0]);
      NoPurgeRun(cfg, Do(cfg, s, steps[0]), steps[1..]);
    }
  }

  /** Without retention, `provider.submit` is called at most once per client and key, for ever. */
  lemma OncePerKeyWithoutRetention(cfg: Config, steps: seq<Step>, i: nat, k: nat)
    requires ValidConfig(cfg) && Runs(cfg, Init(), steps) && forall n :: 0 <= n < |steps| ==> !steps[n].Purge?
    requires i < k < |After(cfg, Init(), steps).trace.log|
    ensures
      var log := After(cfg, Init(), steps).trace.log;
      log[i].key.Some? && log[i].client == log[k].client ==> log[i].key != log[k].key
  {
    hide Runs, After;
    var s := After(cfg, Init(), steps);
    NoPurgeRun(cfg, Init(), steps);
    assert Reachable(cfg, s);
    if s.trace.log[i].key.Some? && s.trace.log[i].client == s.trace.log[k].client && s.trace.log[i].key == s.trace.log[k].key {
      AtMostOncePerKey(cfg, s, i, k);
    }
  }

  // ------------------------------------------------------------------ calls and the log

  /** The jobs that a stretch of the log hands to one printer. */
  function JobsOn(log: seq<Submission>, p: PrinterId): seq<JobId> {
    if log == [] then []
    else JobsOn(log[..|log| - 1], p) + if log[|log| - 1].printer == p then [log[|log| - 1].job] else []
  }

  lemma SubmitCalls(cfg: Config, s: State, t: Step)
    requires Enabled(s, t) && IsSubmitStep(t)
    ensures Do(cfg, s, t).trace.log == s.trace.log && Do(cfg, s, t).trace.calls == s.trace.calls
  {
    hide Mutate, Release, Do, Enabled, FetchSender;
    EngineTokens.SubmitDo(cfg, s, t);
  }

  lemma WorkerCalls(cfg: Config, s: State, t: Step)
    requires Enabled(s, t) && IsWorkerStep(t) && !t.WorkerCall?
    ensures Do(cfg, s, t).trace.log == s.trace.log && Do(cfg, s, t).trace.calls == s.trace.calls
  {
    hide Mutate, Release, ResultChange, Do, Enabled;
    EngineTokens.WorkerDo(cfg, s, t);
  }

  lemma OtherCalls(cfg: Config, s: State, t: Step)
    requires Enabled(s, t) && !t.WorkerCall? && !t.Crash?
    ensures Do(cfg, s, t).trace.log == s.trace.log && Do(cfg, s, t).trace.calls == s.trace.calls
  {
    hide Mutate, RestartChange, DoSubmit, DoWorker, SubmitEnabled, WorkerEnabled;
    if IsSubmitStep(t) { SubmitCalls(cfg, s, t); } else if IsWorkerStep(t) { WorkerCalls(cfg, s, t); }
  }

  /** The new entries of the log are what the printers' call lists gained. */
  ghost predicate Traced(h: Trace, h': Trace, p: PrinterId) {
    && |h.log| <= |h'.log| && h'.log[..|h.log|] == h.log
    && Sent(h'.calls, p) == Sent(h.calls, p) + JobsOn(h'.log[|h.log|..], p)
  }

  lemma TracedStep(cfg: Config, s: State, t: Step, p: PrinterId)
    requires Enabled(s, t) && !t.Crash?
    ensures Traced(s.trace, Do(cfg, s, t).trace, p)
  {
    hide Do, Enabled;
    if t.WorkerCall? {
      CallIsTraced(cfg, s, t.gen, p);
    } else {
      OtherCalls(cfg, s, t);
      assert s.trace.log[|s.trace.log|..] == [];
      assert JobsOn([], p) == [];
    }
  }

  lemma CallIsTraced(cfg: Config, s: State, g: Gen, p: PrinterId)
    requires Enabled(s, WorkerCall(g))
    ensures Traced(s.trace, Do(cfg, s, WorkerCall(g)).trace, p)
  {
    hide DoSubmit, DoDesk, DoLifecycle, SubmitEnabled, DeskEnabled, LifecycleEnabled;
    var log, log' := s.trace.log, Do(cfg, s, WorkerCall(g)).trace.log;
    assert log'[..|log|] == log && log'[|log|..] == [log'[|log|]];
    assert [log'[|log|]][..0] == [];
    assert JobsOn([], p) == [];
  }

  lemma {:induction false} JobsOnJoin(a: seq<Submission>, b: seq<Submission>, p: PrinterId)
    ensures JobsOn(a + b, p) == JobsOn(a, p) + JobsOn(b, p)
    decreases |b|
  {
    if b == [] {
      assert a + b == a;
    } else {
      assert (a + b)[..|a + b| - 1] == a + b[..|b| - 1];
      JobsOnJoin(a, b[..|b| - 1], p);
    }
  }

  lemma TracedJoin(h: Trace, h1: Trace, h2: Trace, p: PrinterId)
    requires Traced(h, h1, p) && Traced(h1, h2, p)
    ensures Traced(h, h2, p)
  {
    hide Sent, JobsOn;
    SplitTwice(h.log, h1.log, h2.log);
    JobsOnJoin(h1.log[|h.log|..], h2.log[|h1.log|..], p);
  }

  lemma SplitTwice(l: seq<Submission>, l1: seq<Submission>, l2: seq<Submission>)
    requires |l| <= |l1| <= |l2| && l1[..|l|] == l && l2[..|l1|] == l1
    ensures l2[..|l|] == l && l2[|l|..] == l1[|l|..] + l2[|l1|..]
  {
    assert l2[..|l|] == l1[..|l|];
  }

  /** Within one process the calls of a printer are exactly what the log of submissions says about it,
      in the same order: the order that `SubmissionsFollowSends` speaks of is that of the log. */
  lemma {:induction false} CallsAreTheLog(cfg: Config, s: State, steps: seq<Step>, p: PrinterId)
    requires Runs(cfg, s, steps) && forall i :: 0 <= i < |steps| ==> !steps[i].Crash?
    ensures Traced(s.trace, After(cfg, s, steps).trace, p)
    decreases |steps|
  {
    hide Do, Enabled, Traced;
    if steps == [] {
      SameTrace(s.trace, p);
    } else {
      TracedStep(cfg, s, steps[0], p);
      CallsAreTheLog(cfg, Do(cfg, s, steps[0]), steps[1..], p);
      TracedJoin(s.trace, Do(cfg, s, steps[0]).trace, After(cfg, s, steps).trace, p);
    }
  }

  lemma SameTrace(h: Trace, p: PrinterId)
    ensures Traced(h, h, p)
  {
    assert h.log[|h.log|..] == [];
    assert JobsOn([], p) == [];
  }

  // ------------------------------------------------------------------ bytes

  /** A job holds no bytes, or as many as its document has. */
  predicate HoldsItsSize(s: State, j: JobId) {
    j in s.bytes.reservations ==> j in s.flow.requests && s.bytes.reservations[j] == s.flow.requests[j].size
  }

  /** `b'` has no reservation of `j` that `b` does not have. */
  predicate NoNewBytes(b: Bytes, b': Bytes, j: JobId) {
    j in b'.reservations ==> j in b.reservations && b'.reservations[j] == b.reservations[j]
  }

  lemma ReleaseBytes(b: Bytes, k: JobId, j: JobId)
    ensures NoNewBytes(b, Release(b, k), j)
  {
  }

  lemma SendBytes(cfg: Config, s: State, k: JobId, j: JobId)
    requires SubmitEnabled(s, SubmitSend(k))
    ensures NoNewBytes(s.bytes, TrySend(cfg, s, k).bytes, j)
  {
  }

  lemma SwapBytes(cfg: Config, s: State, k: JobId, spurious: bool, j: JobId)
    requires SubmitEnabled(s, BudgetSwap(k, spurious)) && HoldsItsSize(s, j)
    ensures HoldsItsSize(Swap(cfg, s, k, spurious), j)
  {
  }

  lemma SubmitBytes(cfg: Config, s: State, t: Step, j: JobId)
    requires Enabled(s, t) && IsSubmitStep(t) && !t.BudgetSwap?
    ensures NoNewBytes(s.bytes, Do(cfg, s, t).bytes, j)
  {
    hide Mutate, Release, Do, Enabled, Swap, TrySend, FetchSender, KeyStored;
    EngineTokens.SubmitDo(cfg, s, t);
    if t.SubmitSend? { SendBytes(cfg, s, t.job, j); } else if t.SubmitMark? { ReleaseBytes(s.bytes, t.job, j); }
  }

  lemma WorkerBytes(cfg: Config, s: State, t: Step, j: JobId)
    requires Enabled(s, t) && IsWorkerStep(t)
    ensures NoNewBytes(s.bytes, Do(cfg, s, t).bytes, j)
  {
    hide Mutate, Release, Do, Enabled, ResultChange, NoNewBytes;
    EngineTokens.WorkerDo(cfg, s, t);
    var q := s.flow.queues[t.gen];
    SameBytes(s.bytes, j);
    if q.worker.Has? || q.worker.Took? || q.worker.Waits? { ReleaseBytes(s.bytes, q.worker.job, j); }
    if q.items != [] { ReleaseBytes(s.bytes, q.items[0], j); }
  }

  lemma SameBytes(b: Bytes, j: JobId)
    ensures NoNewBytes(b, b, j)
  {
  }

  lemma ElsewhereBytes(cfg: Config, s: State, t: Step, j: JobId)
    requires Enabled(s, t) && (IsDeskStep(t) || IsLifecycleStep(t))
    ensures NoNewBytes(s.bytes, Do(cfg, s, t).bytes, j)
  {
    hide Mutate, RestartChange, DoSubmit, DoWorker, SubmitEnabled, WorkerEnabled;
  }

  lemma RequestKept(cfg: Config, s: State, t: Step, j: JobId)
    requires Inv(cfg, s) && Enabled(s, t) && j in s.bytes.reservations && j in s.flow.requests
    ensures j in Do(cfg, s, t).flow.requests && Do(cfg, s, t).flow.requests[j] == s.flow.requests[j]
  {
    hide Inv, Do, Enabled;
    if t.SubmitInsert? {
      ReservedIsOld(cfg, s, j);
      InsertRequests(cfg, s, t, j);
    } else {
      RequestsStay(cfg, s, t, j);
    }
  }

  lemma ReservedIsOld(cfg: Config, s: State, j: JobId)
    requires Inv(cfg, s) && j in s.bytes.reservations
    ensures j < s.flow.nextId
  {
  }

  lemma InsertRequests(cfg: Config, s: State, t: Step, j: JobId)
    requires Enabled(s, t) && t.SubmitInsert? && j in s.flow.requests && j < s.flow.nextId
    ensures j in Do(cfg, s, t).flow.requests && Do(cfg, s, t).flow.requests[j] == s.flow.requests[j]
  {
    hide KeyStored;
  }

  lemma SizeStep(cfg: Config, s: State, t: Step, j: JobId)
    requires Inv(cfg, s) && Enabled(s, t) && HoldsItsSize(s, j)
    ensures HoldsItsSize(Do(cfg, s, t), j)
  {
    hide Inv, Do, Enabled, Swap;
    if t.BudgetSwap? {
      EngineTokens.SubmitDo(cfg, s, t);
      SwapBytes(cfg, s, t.job, t.spurious, j);
    } else {
      if IsSubmitStep(t) {
        SubmitBytes(cfg, s, t, j);
      } else if IsWorkerStep(t) {
        WorkerBytes(cfg, s, t, j);
      } else {
        ElsewhereBytes(cfg, s, t, j);
      }
      if j in s.bytes.reservations { RequestKept(cfg, s, t, j); }
    }
  }

  lemma {:induction false} SizeRun(cfg: Config, s: State, steps: seq<Step>, j: JobId)
    requires ValidConfig(cfg) && Inv(cfg, s) && Runs(cfg, s, steps) && HoldsItsSize(s, j)
    ensures HoldsItsSize(After(cfg, s, steps), j)
    decreases |steps|
  {
    hide Inv, Do, Enabled, HoldsItsSize;
    if steps != [] {
      SizeStep(cfg, s, steps[0], j);
      StepKeepsInv(cfg, s, steps[0]);
      SizeRun(cfg, Do(cfg, s, steps[0]), steps[1..], j);
    }
  }

  /** In every reachable state a live reservation is as large as its job's document. */
  lemma ReservationsAreSizes(cfg: Config, s: State, j: JobId)
    requires ValidConfig(cfg) && Reachable(cfg, s) && j in s.bytes.reservations
    ensures j in s.flow.requests && s.bytes.reservations[j] == s.flow.requests[j].size
  {
    hide Inv, Do, Enabled;
    var steps :| Runs(cfg, Init(), steps) && After(cfg, Init(), steps) == s;
    InitInv(cfg);
    SizeRun(cfg, Init(), steps, j);
  }

  /** One swap of the budget loop does what `try_reserve` promises: the bytes are reserved iff the counter
      has not changed since it was read, the swap does not fail by itself and they fit beside the live
      reservations; the call gives up with QUEUE_FULL iff they do not fit beside what was read. */
  lemma SwapReservesIff(cfg: Config, s: State, j: JobId, spurious: bool)
    requires ValidConfig(cfg) && Reachable(cfg, s) && Enabled(s, BudgetSwap(j, spurious))
    ensures
      var pc, size, s' := s.flow.place[j].pc, s.flow.requests[j].size, Do(cfg, s, BudgetSwap(j, spurious));
      var pc' := s'.flow.place[j].pc;
      && j !in s.bytes.reservations
      && (j in s'.bytes.reservations <==>
            s.bytes.used == pc.seen && !spurious && Total(s.bytes.reservations, s.flow.nextId) + size <= cfg.budgetLimit)
      && (j in s'.bytes.reservations ==>
            pc' == Reserved(pc.printer) && s'.bytes.reservations == s.bytes.reservations[j := size] && s'.bytes.used == s.bytes.used + size)
      && (pc'.Failing? <==> pc.seen + size > cfg.budgetLimit)
      && (pc'.Failing? ==> pc'.error.code == CodeQueueFull && pc'.error.printer == Some(pc.printer))
      && (j !in s'.bytes.reservations && !pc'.Failing? ==> pc' == Reserving(pc.printer, s.bytes.used) && s'.bytes == s.bytes)
  {
    hide Tokens, History, Records, Keys, Watch, Phases, Order, Reachable, DoWorker, WorkerEnabled, DoDesk, DeskEnabled;
    ReachableInv(cfg, s);
  }
}
