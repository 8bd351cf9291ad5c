/** The loops and gated sections of `EngineCode` are runs of the state machine. */
module EngineRefines {
  import opened Wrappers
  import opened Jobs
  import opened EngineModel
  import opened EngineInvariant
  import opened EngineOutcomes
  import opened EngineCode

  ghost function ReconcileSteps(jobs: map<JobId, Job>, rows: seq<JobId>, known: PrinterId -> bool, writes: JobId -> bool): (steps: seq<Step>)
    requires forall j :: j in rows ==> j in jobs
  {
    if rows == [] then []
    else
      var j := rows[|rows| - 1];
      ReconcileSteps(jobs, rows[..|rows| - 1], known, writes) + [Reconcile(j, Known(jobs[j], known), writes(j))]
  }

  lemma ReconcileStepTables(cfg: Config, s: State, j: JobId, known: bool, ok: bool)
    requires s.phase.Reconciling? && j in s.phase.todo
    ensures Enabled(s, Reconcile(j, known, ok))
    ensures
      var s' := Do(cfg, s, Reconcile(j, known, ok));
      && s'.tables == Reload(s.tables, s.phase.todo[j], j, known, ok)
      && s'.phase == Reconciling(s.phase.todo - {j})
  {
    hide Mutate, RestartChange;
  }

  /** `reconcile_after_restart` takes exactly the `Reconcile` steps of its rows, in their order. */
  lemma {:induction false} ReconcileLoopIsRun(cfg: Config, s: State, rows: seq<JobId>, known: PrinterId -> bool, writes: JobId -> bool)
    requires s.phase.Reconciling? && NoDuplicates(rows) && forall j :: j in rows ==> j in s.phase.todo
    ensures Runs(cfg, s, ReconcileSteps(s.phase.todo, rows, known, writes))
    ensures
      var s' := After(cfg, s, ReconcileSteps(s.phase.todo, rows, known, writes));
      && s'.tables == ReloadAll(s.tables, s.phase.todo, rows, known, writes)
      && s'.phase == Reconciling(s.phase.todo - (set j | j in rows))
    decreases |rows|
  {
    hide Do, Enabled, Reload;
    if rows == [] {
      assert s.phase.todo - (set j | j in rows) == s.phase.todo;
    } else {
      var n := |rows| - 1;
      var j, front := rows[n], rows[..n];
      var steps := ReconcileSteps(s.phase.todo, front, known, writes);
      ReconcileLoopIsRun(cfg, s, front, known, writes);
      var s1 := After(cfg, s, steps);
      assert rows == front + [j];
      assert j !in front;
      ReconcileStepTables(cfg, s1, j, Known(s.phase.todo[j], known), writes(j));
      RunsExtend(cfg, s, steps, Reconcile(j, Known(s.phase.todo[j], known), writes(j)));
      assert s.phase.todo - (set k | k in rows) == (s.phase.todo - (set k | k in front)) - {j};
    }
  }

  ghost function FailSteps(doomed: seq<JobId>, writes: JobId -> bool): (steps: seq<Step>) {
    if doomed == [] then []
    else
      var n := |doomed| - 1;
      FailSteps(doomed[..n], writes) + [ShutdownFail(doomed[n], writes(doomed[n]))]
  }

  lemma ShutdownStepTables(cfg: Config, s: State, j: JobId, ok: bool)
    requires s.phase.Serving? && j in s.doomed
    ensures Enabled(s, ShutdownFail(j, ok))
    ensures
      var s' := Do(cfg, s, ShutdownFail(j, ok));
      s'.phase.Serving? && s'.tables == Mutate(s.tables, j, Fail(NotSent()), ok) && s'.doomed == s.doomed - {j}
  {
    hide Mutate;
  }

  /** The loop of `shutdown` takes exactly the `ShutdownFail` steps of its snapshot. */
  lemma {:induction false} ShutdownLoopIsRun(cfg: Config, s: State, doomed: seq<JobId>, writes: JobId -> bool)
    requires s.phase.Serving? && NoDuplicates(doomed) && forall j :: j in doomed ==> j in s.doomed
    ensures Runs(cfg, s, FailSteps(doomed, writes))
    ensures
      var s' := After(cfg, s, FailSteps(doomed, writes));
      && s'.phase.Serving? && s'.tables == FailAll(s.tables, doomed, writes)
      && s'.doomed == s.doomed - (set j | j in doomed)
    decreases |doomed|
  {
    hide Do, Enabled, Mutate;
    if doomed != [] {
      var n := |doomed| - 1;
      var j, front := doomed[n], doomed[..n];
      ShutdownLoopIsRun(cfg, s, front, writes);
      var s1 := After(cfg, s, FailSteps(front, writes));
      assert doomed == front + [j];
      assert j !in front;
      ShutdownStepTables(cfg, s1, j, writes(j));
      RunsExtend(cfg, s, FailSteps(front, writes), ShutdownFail(j, writes(j)));
      assert s.doomed - (set k | k in doomed) == (s.doomed - (set k | k in front)) - {j};
    }
  }

  /** The gated section of `submit` is the pair of steps that store the row and make it active. */
  lemma TrackIsInsertThenActivate(cfg: Config, s: State, client: ClientId, key: Option<Key>, size: nat, now: nat)
    requires s.phase.Serving? && s.flow.gate.None? && (key.Some? ==> !KeyStored(s.tables.repo, client, key.value))
    ensures
      var j := s.flow.nextId;
      var job := NewJob(j, client, key, now);
      var steps := [SubmitInsert(client, key, size, now), SubmitActivate(j)];
      && Runs(cfg, s, steps)
      && After(cfg, s, steps).tables == s.tables.(repo := s.tables.repo[j := job], active := s.tables.active[j := job])
      && After(cfg, s, steps).flow.gate.None?
  {
    hide Runs, After;
    var t1, t2 := SubmitInsert(client, key, size, now), SubmitActivate(s.flow.nextId);
    var s1 := Do(cfg, s, t1);
    assert Enabled(s, t1) && Enabled(s1, t2);
    TwoSteps(cfg, s, t1, t2);
  }

  lemma TwoSteps(cfg: Config, s: State, t1: Step, t2: Step)
    requires Enabled(s, t1) && Enabled(Do(cfg, s, t1), t2)
    ensures Runs(cfg, s, [t1, t2]) && After(cfg, s, [t1, t2]) == Do(cfg, Do(cfg, s, t1), t2)
  {
    hide Do, Enabled;
    var s1 := Do(cfg, s, t1);
    assert [t1, t2][1..] == [t2] && [t2][1..] == [];
    assert Runs(cfg, s1, [t2]) && After(cfg, s1, [t2]) == Do(cfg, s1, t2);
  }
}
