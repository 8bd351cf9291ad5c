/** Job records, idempotency keys, monitors and the submission history under single changes. */
module EngineRecords {
  import opened Wrappers
  import opened Jobs
  import opened EngineModel
  import opened EngineInvariant

  /** The change is one the engine makes in this situation, and the job then is at `to`. */
  predicate Proper(t: Tables, place: map<JobId, Place>, j: JobId, c: Change, to: Place)
    requires j in place
  {
    && place[j] != AtSubmit(Inserted) && to != AtSubmit(Inserted)
    && (place[j].Handed? ==> to.Handed?)
    && (Unclaimed(place[j]) && !Unclaimed(to) ==> j in t.active)
    && (j in t.active ==>
          && Applicable(c, t.active[j])
          && var after := Apply(c, t.active[j]);
             && (IsTerminal(after.status) || Fits(after, to))
             && (Rank(after.delivery) == 2 ==> to.Handed?))
  }

  lemma MutateKeepsActive(t: Tables, place: map<JobId, Place>, j: JobId, c: Change, ok: bool, to: Place, k: JobId)
    requires k in t.active && ActiveOk(t, place, k, t.active[k])
    requires j in place && Proper(t, place, j, c, to)
    ensures
      var t' := Mutate(t, j, c, ok);
      k in t'.active ==> ActiveOk(t', place[j := to], k, t'.active[k])
  {
    if k == j { ApplyKeepsConsistent(c, t.active[j]); }
  }

  lemma MutateKeepsRow(t: Tables, place: map<JobId, Place>, requests: map<JobId, Request>, phase: Phase,
                       j: JobId, c: Change, ok: bool, to: Place, k: JobId)
    requires k in t.repo && RowOk(t, place, requests, phase, k, t.repo[k])
    requires j in place && Proper(t, place, j, c, to) && (phase.Serving? || to == place[j])
    requires j in t.active ==> ActiveOk(t, place, j, t.active[j])
    ensures
      var t' := Mutate(t, j, c, ok);
      RowOk(t', place[j := to], requests, phase, k, t'.repo[k])
  {
    if k == j && j in t.active { ApplyKeepsConsistent(c, t.active[j]); }
  }

  lemma ActiveIsStored(t: Tables, place: map<JobId, Place>, requests: map<JobId, Request>, phase: Phase, j: JobId)
    requires Records(t, place, requests, phase)
    ensures j in t.active ==> j in t.repo && ActiveOk(t, place, j, t.active[j])
  {
  }

  lemma MutateKeepsRecords(t: Tables, place: map<JobId, Place>, requests: map<JobId, Request>, phase: Phase,
                           j: JobId, c: Change, ok: bool, to: Place)
    requires Records(t, place, requests, phase) && j in place && Proper(t, place, j, c, to)
    requires phase.Serving? || to == place[j]
    ensures Records(Mutate(t, j, c, ok), place[j := to], requests, phase)
  {
    hide ActiveOk, RowOk, Apply;
    var t' := Mutate(t, j, c, ok);
    ActiveIsStored(t, place, requests, phase, j);
    forall k | k in t'.active ensures ActiveOk(t', place[j := to], k, t'.active[k]) {
      MutateKeepsActive(t, place, j, c, ok, to, k);
    }
    forall k | k in t'.repo ensures RowOk(t', place[j := to], requests, phase, k, t'.repo[k]) {
      MutateKeepsRow(t, place, requests, phase, j, c, ok, to, k);
    }
  }

  /** The job moves without a change to its record. */
  lemma MoveKeepsRecords(t: Tables, place: map<JobId, Place>, requests: map<JobId, Request>, phase: Phase,
                         j: JobId, to: Place)
    requires Records(t, place, requests, phase) && j in place && phase.Serving?
    requires place[j] != AtSubmit(Inserted) && to != AtSubmit(Inserted)
    requires (place[j].Handed? ==> to.Handed?) && (Unclaimed(place[j]) ==> Unclaimed(to))
    requires j in t.active ==> Fits(t.active[j], to)
    ensures Records(t, place[j := to], requests, phase)
  {
    hide ActiveOk, RowOk;
    forall k | k in t.active ensures ActiveOk(t, place[j := to], k, t.active[k]) {
      MoveKeepsActive(t, place, j, to, k);
    }
    forall k | k in t.repo ensures RowOk(t, place[j := to], requests, phase, k, t.repo[k]) {
      MoveKeepsRow(t, place, requests, phase, j, to, k);
    }
  }

  lemma MoveKeepsActive(t: Tables, place: map<JobId, Place>, j: JobId, to: Place, k: JobId)
    requires k in t.active && ActiveOk(t, place, k, t.active[k]) && (j in t.active ==> Fits(t.active[j], to))
    ensures ActiveOk(t, place[j := to], k, t.active[k])
  {
  }

  lemma MoveKeepsRow(t: Tables, place: map<JobId, Place>, requests: map<JobId, Request>, phase: Phase,
                     j: JobId, to: Place, k: JobId)
    requires k in t.repo && RowOk(t, place, requests, phase, k, t.repo[k]) && j in place && phase.Serving?
    requires place[j] != AtSubmit(Inserted) && to != AtSubmit(Inserted)
    requires (place[j].Handed? ==> to.Handed?) && (Unclaimed(place[j]) ==> Unclaimed(to))
    ensures RowOk(t, place[j := to], requests, phase, k, t.repo[k])
  {
  }

  lemma InsertKeepsRecords(t: Tables, place: map<JobId, Place>, requests: map<JobId, Request>, phase: Phase,
                           j: JobId, r: Request, now: nat)
    requires Records(t, place, requests, phase) && j !in place
    requires phase.Serving? && requests.Keys == place.Keys
    ensures Records(t.(repo := t.repo[j := NewJob(j, r.client, r.key, now)]),
                    place[j := AtSubmit(Inserted)], requests[j := r], phase)
  {
    hide RowOk;
    var t' := t.(repo := t.repo[j := NewJob(j, r.client, r.key, now)]);
    forall k | k in t'.active ensures ActiveOk(t', place[j := AtSubmit(Inserted)], k, t'.active[k]) {
      assert ActiveOk(t, place, k, t.active[k]);
    }
    assert j !in t.active;
    forall k | k in t'.repo
      ensures RowOk(t', place[j := AtSubmit(Inserted)], requests[j := r], phase, k, t'.repo[k])
    {
      InsertKeepsRow(t, place, requests, phase, j, r, now, k);
    }
  }

  lemma InsertKeepsRow(t: Tables, place: map<JobId, Place>, requests: map<JobId, Request>, phase: Phase,
                       j: JobId, r: Request, now: nat, k: JobId)
    requires j !in place && j !in t.active && j !in t.dirty && phase.Serving?
    requires k == j || (k in t.repo && RowOk(t, place, requests, phase, k, t.repo[k]))
    ensures
      var t' := t.(repo := t.repo[j := NewJob(j, r.client, r.key, now)]);
      RowOk(t', place[j := AtSubmit(Inserted)], requests[j := r], phase, k, t'.repo[k])
  {
  }

  lemma ActivateKeepsRecords(t: Tables, place: map<JobId, Place>, requests: map<JobId, Request>, phase: Phase, j: JobId)
    requires Records(t, place, requests, phase) && phase.Serving?
    requires j in place && place[j] == AtSubmit(Inserted) && j in t.repo
    ensures Records(t.(active := t.active[j := t.repo[j]]), place[j := AtSubmit(Tracked)], requests, phase)
  {
    hide ActiveOk, RowOk;
    var t' := t.(active := t.active[j := t.repo[j]]);
    assert RowOk(t, place, requests, phase, j, t.repo[j]);
    forall k | k in t'.active ensures ActiveOk(t', place[j := AtSubmit(Tracked)], k, t'.active[k]) {
      ActivateKeepsActive(t, place, requests, phase, j, k);
    }
    forall k | k in t'.repo ensures RowOk(t', place[j := AtSubmit(Tracked)], requests, phase, k, t'.repo[k]) {
      ActivateKeepsRow(t, place, requests, phase, j, k);
    }
  }

  lemma ActivateKeepsActive(t: Tables, place: map<JobId, Place>, requests: map<JobId, Request>, phase: Phase, j: JobId, k: JobId)
    requires j in place && place[j] == AtSubmit(Inserted) && j in t.repo && RowOk(t, place, requests, phase, j, t.repo[j])
    requires k == j || (k in t.active && ActiveOk(t, place, k, t.active[k]))
    ensures
      var t' := t.(active := t.active[j := t.repo[j]]);
      ActiveOk(t', place[j := AtSubmit(Tracked)], k, t'.active[k])
  {
  }

  lemma ActivateKeepsRow(t: Tables, place: map<JobId, Place>, requests: map<JobId, Request>, phase: Phase, j: JobId, k: JobId)
    requires j in place && place[j] == AtSubmit(Inserted) && j in t.repo && phase.Serving?
    requires k in t.repo && RowOk(t, place, requests, phase, k, t.repo[k])
    ensures RowOk(t.(active := t.active[j := t.repo[j]]), place[j := AtSubmit(Tracked)], requests, phase, k, t.repo[k])
  {
  }

  lemma PurgeKeepsRecords(t: Tables, place: map<JobId, Place>, requests: map<JobId, Request>, phase: Phase, cutoff: nat)
    requires Records(t, place, requests, phase)
    ensures Records(PurgeRows(t, cutoff), place, requests, phase)
  {
    var t' := PurgeRows(t, cutoff);
    forall k | k in t'.active ensures ActiveOk(t', place, k, t'.active[k]) {
      assert ActiveOk(t, place, k, t.active[k]);
    }
    forall k | k in t'.repo ensures RowOk(t', place, requests, phase, k, t'.repo[k]) {
      assert RowOk(t, place, requests, phase, k, t.repo[k]);
    }
    forall k | k in place && k !in t'.repo ensures k in t'.purged && place[k] != AtSubmit(Inserted) {
      if k in t.repo { assert RowOk(t, place, requests, phase, k, t.repo[k]); }
    }
  }

  lemma CrashKeepsRecords(t: Tables, place: map<JobId, Place>, requests: map<JobId, Request>, phase: Phase)
    requires Records(t, place, requests, phase)
    ensures Records(t.(active := map[]), map j | j in place :: AfterCrash(place[j]), requests, Down)
  {
    var place' := map j | j in place :: AfterCrash(place[j]);
    forall k | k in t.repo ensures RowOk(t.(active := map[]), place', requests, Down, k, t.repo[k]) {
      assert RowOk(t, place, requests, phase, k, t.repo[k]);
    }
  }

  lemma PhaseKeepsRecords(t: Tables, place: map<JobId, Place>, requests: map<JobId, Request>, phase: Phase, phase': Phase)
    requires Records(t, place, requests, phase)
    requires
      || (phase.Down? && phase' == Reconciling(map j | j in t.repo && !IsTerminal(t.repo[j].status) :: t.repo[j]))
      || (phase == Reconciling(map[]) && phase'.Serving?)
    ensures Records(t, place, requests, phase')
  {
    forall k | k in t.repo ensures RowOk(t, place, requests, phase', k, t.repo[k]) {
      assert RowOk(t, place, requests, phase, k, t.repo[k]);
    }
  }

  /** A row of the previous process is settled, or its monitoring resumes. */
  lemma ReconcileKeepsRecords(t: Tables, place: map<JobId, Place>, requests: map<JobId, Request>,
                              todo: map<JobId, Job>, j: JobId, known: bool, ok: bool)
    requires Records(t, place, requests, Reconciling(todo)) && j in todo && j in t.repo && todo[j] == t.repo[j]
    requires !IsTerminal(t.repo[j].status) && j !in t.active
    requires j in place && place[j] != AtSubmit(Inserted)
    ensures
      var loaded := t.(active := t.active[j := todo[j]]);
      Records(if Resumes(todo[j], known) then loaded else Mutate(loaded, j, RestartChange(todo[j]), ok),
              place, requests, Reconciling(todo - {j}))
  {
    hide Records, Mutate, RestartChange, Consistent;
    if Resumes(todo[j], known) {
      LoadKeepsRecords(t, place, requests, todo, j);
    } else {
      SettleKeepsRecords(t, place, requests, todo, j, ok);
    }
  }

  lemma SettleKeepsRecords(t: Tables, place: map<JobId, Place>, requests: map<JobId, Request>,
                           todo: map<JobId, Job>, j: JobId, ok: bool)
    requires Records(t, place, requests, Reconciling(todo)) && j in todo && j in t.repo && todo[j] == t.repo[j]
    requires !IsTerminal(t.repo[j].status) && j !in t.active
    requires j in place && place[j] != AtSubmit(Inserted)
    ensures
      var loaded := t.(active := t.active[j := todo[j]]);
      Records(Mutate(loaded, j, RestartChange(todo[j]), ok), place, requests, Reconciling(todo - {j}))
  {
    hide ActiveOk, RowOk, Apply, RestartChange, Consistent;
    var row, after := t.repo[j], Apply(RestartChange(t.repo[j]), t.repo[j]);
    RowIsConsistent(t, place, requests, Reconciling(todo), j);
    RestartSettles(row);
    var t' := Mutate(t.(active := t.active[j := row]), j, RestartChange(row), ok);
    assert t'.active == t.active;
    assert t' == t.(repo := t'.repo, dirty := t'.dirty);
    forall k | k in t'.active ensures ActiveOk(t', place, k, t'.active[k]) {
      OthersStayActive(t, t', place, j, k);
    }
    forall k | k in t'.repo ensures RowOk(t', place, requests, Reconciling(todo - {j}), k, t'.repo[k]) {
      SettleKeepsRow(t, t', place, requests, todo, j, after, ok, k);
    }
  }

  lemma RowIsConsistent(t: Tables, place: map<JobId, Place>, requests: map<JobId, Request>, phase: Phase, j: JobId)
    requires Records(t, place, requests, phase) && j in t.repo
    ensures RowOk(t, place, requests, phase, j, t.repo[j]) && Consistent(t.repo[j])
  {
  }

  lemma OthersStayActive(t: Tables, t': Tables, place: map<JobId, Place>, j: JobId, k: JobId)
    requires k in t.active && ActiveOk(t, place, k, t.active[k]) && j != k && t'.active == t.active
    requires (k in t.repo ==> k in t'.repo && t'.repo[k] == t.repo[k]) && (k in t'.dirty <==> k in t.dirty)
    ensures ActiveOk(t', place, k, t'.active[k])
  {
  }

  lemma SettleKeepsRow(t: Tables, t': Tables, place: map<JobId, Place>, requests: map<JobId, Request>,
                       todo: map<JobId, Job>, j: JobId, after: Job, ok: bool, k: JobId)
    requires j in t.repo && j in todo && k in t.repo && RowOk(t, place, requests, Reconciling(todo), k, t.repo[k])
    requires t' == t.(repo := if ok then t.repo[j := after] else t.repo, dirty := if ok then t.dirty - {j} else t.dirty + {j})
    requires IsTerminal(after.status) && Consistent(after) && after.delivery == t.repo[j].delivery && SameIdentity(t.repo[j], after)
    requires j in place && place[j] != AtSubmit(Inserted)
    ensures RowOk(t', place, requests, Reconciling(todo - {j}), k, t'.repo[k])
  {
    hide Consistent;
  }

  /** Every row that is not resumed ends: the device-delivered case never arises. */
  lemma RestartSettles(row: Job)
    requires Consistent(row) && !IsTerminal(row.status)
    ensures IsTerminal(Apply(RestartChange(row), row).status) && Consistent(Apply(RestartChange(row), row))
    ensures Apply(RestartChange(row), row).delivery == row.delivery
    ensures SameIdentity(row, Apply(RestartChange(row), row))
  {
    ApplyKeepsConsistent(RestartChange(row), row);
  }

  lemma LoadKeepsRecords(t: Tables, place: map<JobId, Place>, requests: map<JobId, Request>,
                         todo: map<JobId, Job>, j: JobId)
    requires Records(t, place, requests, Reconciling(todo)) && j in todo && j in t.repo && todo[j] == t.repo[j]
    requires !IsTerminal(t.repo[j].status) && t.repo[j].delivery == SpoolerAccepted && j !in t.active
    ensures Records(t.(active := t.active[j := todo[j]]), place, requests, Reconciling(todo - {j}))
  {
    var t' := t.(active := t.active[j := todo[j]]);
    assert RowOk(t, place, requests, Reconciling(todo), j, t.repo[j]);
    forall k | k in t'.active ensures ActiveOk(t', place, k, t'.active[k]) {
      assert k != j ==> ActiveOk(t, place, k, t.active[k]);
    }
    forall k | k in t'.repo ensures RowOk(t', place, requests, Reconciling(todo - {j}), k, t'.repo[k]) {
      assert RowOk(t, place, requests, Reconciling(todo), k, t.repo[k]);
    }
  }

  // ------------------------------------------------------------------ keys

  lemma MutateKeepsKeys(t: Tables, requests: map<JobId, Request>, j: JobId, c: Change, ok: bool)
    requires Keys(t, requests)
    requires j in t.active ==> j in t.repo && SameIdentity(t.repo[j], t.active[j])
    ensures Keys(Mutate(t, j, c, ok), requests)
  {
    var t' := Mutate(t, j, c, ok);
    assert forall k :: k in t'.repo ==> k in t.repo && SameIdentity(t.repo[k], t'.repo[k]);
    forall a, b | a in t'.repo && b in t'.repo && a != b ensures !SameKey(t'.repo[a], t'.repo[b]) {
      assert !SameKey(t.repo[a], t.repo[b]);
    }
  }

  lemma InsertKeepsKeys(t: Tables, requests: map<JobId, Request>, j: JobId, r: Request, now: nat)
    requires Keys(t, requests) && j !in t.repo && j !in requests
    requires r.key.Some? ==> !KeyStored(t.repo, r.client, r.key.value)
    ensures Keys(t.(repo := t.repo[j := NewJob(j, r.client, r.key, now)]), requests[j := r])
  {
    var repo' := t.repo[j := NewJob(j, r.client, r.key, now)];
    forall a, b | a in repo' && b in repo' && a != b ensures !SameKey(repo'[a], repo'[b]) {
      if a != j && b != j { assert !SameKey(t.repo[a], t.repo[b]); }
    }
  }

  lemma PurgeKeepsKeys(t: Tables, place: map<JobId, Place>, requests: map<JobId, Request>, phase: Phase, cutoff: nat)
    requires Keys(t, requests) && Records(t, place, requests, phase)
    ensures Keys(PurgeRows(t, cutoff), requests)
  {
    var t' := PurgeRows(t, cutoff);
    forall a, b | a in t'.repo && b in t'.repo && a != b ensures !SameKey(t'.repo[a], t'.repo[b]) {
      assert !SameKey(t.repo[a], t.repo[b]);
    }
    forall j | j in requests && j !in t'.repo && requests[j].key.Some?
      ensures (requests[j].client, requests[j].key.value) in t'.purgedKeys
    {
      if j in t.repo { assert RowOk(t, place, requests, phase, j, t.repo[j]); }
    }
  }

  // ------------------------------------------------------------------ history

  lemma MoveKeepsHistory(place: map<JobId, Place>, requests: map<JobId, Request>, log: seq<Submission>,
                         j: JobId, to: Place)
    requires History(place, requests, log) && j in place && Sends(place[j]) == Sends(to)
    ensures History(place[j := to], requests, log)
  {
    forall i | 0 <= i < |log| ensures EntryOk(place[j := to], requests, log[i]) {
      assert EntryOk(place, requests, log[i]);
    }
  }

  lemma InsertKeepsHistory(place: map<JobId, Place>, requests: map<JobId, Request>, log: seq<Submission>,
                           j: JobId, r: Request)
    requires History(place, requests, log) && j !in place
    ensures History(place[j := AtSubmit(Inserted)], requests[j := r], log)
  {
    forall i | 0 <= i < |log| ensures EntryOk(place[j := AtSubmit(Inserted)], requests[j := r], log[i]) {
      assert EntryOk(place, requests, log[i]);
    }
  }

  /** The provider is called for a job that was never submitted before. */
  lemma CallKeepsHistory(place: map<JobId, Place>, requests: map<JobId, Request>, log: seq<Submission>,
                         j: JobId, to: Place, p: PrinterId)
    requires History(place, requests, log) && j in place && j in requests && !Sends(place[j]) && Sends(to)
    ensures History(place[j := to], requests, log + [Submission(j, p, requests[j].client, requests[j].key)])
  {
    var log' := log + [Submission(j, p, requests[j].client, requests[j].key)];
    forall i | 0 <= i < |log'| ensures EntryOk(place[j := to], requests, log'[i]) {
      if i < |log| { assert EntryOk(place, requests, log[i]); }
    }
    forall k | k in place[j := to] && Sends(place[j := to][k]) ensures Logged(log', k) {
      if k == j {
        assert log'[|log|].job == j;
      } else {
        var i :| 0 <= i < |log| && log[i].job == k;
        assert log'[i].job == k;
      }
    }
    forall i, k | 0 <= i < k < |log'| ensures log'[i].job != log'[k].job {
      if k == |log| { assert EntryOk(place, requests, log[i]); }
    }
  }

  lemma CrashKeepsHistory(place: map<JobId, Place>, requests: map<JobId, Request>, log: seq<Submission>)
    requires History(place, requests, log)
    ensures History(map j | j in place :: AfterCrash(place[j]), requests, log)
  {
    var place' := map j | j in place :: AfterCrash(place[j]);
    forall i | 0 <= i < |log| ensures EntryOk(place', requests, log[i]) {
      assert EntryOk(place, requests, log[i]);
    }
  }

  // ------------------------------------------------------------------ monitors

  lemma MutateKeepsWatch(t: Tables, place: map<JobId, Place>, queues: map<Gen, Queue>, d: Desk,
                         j: JobId, c: Change, ok: bool, to: Place)
    requires Watch(t, place, queues, d) && j in place && (place[j].Handed? ==> to.Handed?)
    requires c.MarkSpooled? ==> c.spool < d.nextSpool && j !in d.monitors
    ensures Watch(Mutate(t, j, c, ok), place[j := to], queues, d)
  {
    hide MonitorOk, Apply;
    var t' := Mutate(t, j, c, ok);
    if j in t.active { ApplySpool(c, t.active[j]); }
    forall k | k in d.monitors ensures MonitorOk(t'.active, place[j := to], d.nextSpool, k, d.monitors[k]) {
      MutateKeepsMonitor(t, place, d, j, c, ok, to, k);
    }
  }

  /** Only the spooler's answer sets a spooler id. */
  lemma ApplySpool(c: Change, job: Job)
    ensures Apply(c, job).spool == if c.MarkSpooled? then Some(c.spool) else job.spool
  {
  }

  lemma MutateKeepsMonitor(t: Tables, place: map<JobId, Place>, d: Desk, j: JobId, c: Change, ok: bool, to: Place, k: JobId)
    requires k in d.monitors && MonitorOk(t.active, place, d.nextSpool, k, d.monitors[k])
    requires j in place && (place[j].Handed? ==> to.Handed?) && (c.MarkSpooled? ==> j !in d.monitors)
    ensures MonitorOk(Mutate(t, j, c, ok).active, place[j := to], d.nextSpool, k, d.monitors[k])
  {
    hide Apply;
    if j in t.active { ApplySpool(c, t.active[j]); }
  }

  lemma MoveKeepsWatch(t: Tables, place: map<JobId, Place>, queues: map<Gen, Queue>, d: Desk, j: JobId, to: Place)
    requires Watch(t, place, queues, d) && j in place && (place[j].Handed? ==> to.Handed?)
    ensures Watch(t, place[j := to], queues, d)
  {
    forall k | k in d.monitors ensures MonitorOk(t.active, place[j := to], d.nextSpool, k, d.monitors[k]) {
      assert MonitorOk(t.active, place, d.nextSpool, k, d.monitors[k]);
    }
  }

  lemma InsertKeepsWatch(t: Tables, place: map<JobId, Place>, queues: map<Gen, Queue>, d: Desk, j: JobId, row: Job)
    requires Watch(t, place, queues, d) && j !in place && row.spool.None?
    ensures Watch(t.(repo := t.repo[j := row]), place[j := AtSubmit(Inserted)], queues, d)
  {
    forall k | k in d.monitors
      ensures MonitorOk(t.active, place[j := AtSubmit(Inserted)], d.nextSpool, k, d.monitors[k])
    {
      assert MonitorOk(t.active, place, d.nextSpool, k, d.monitors[k]);
    }
  }

  /** A stored row becomes active; no monitor watches it, or it watches the row's own entry. */
  lemma LoadKeepsWatch(t: Tables, place: map<JobId, Place>, queues: map<Gen, Queue>, d: Desk, j: JobId)
    requires Watch(t, place, queues, d) && j in t.repo && j !in d.monitors
    ensures Watch(t.(active := t.active[j := t.repo[j]]), place, queues, d)
  {
    forall k | k in d.monitors
      ensures MonitorOk(t.active[j := t.repo[j]], place, d.nextSpool, k, d.monitors[k])
    {
      assert MonitorOk(t.active, place, d.nextSpool, k, d.monitors[k]);
    }
  }

  lemma QueuesKeepWatch(t: Tables, place: map<JobId, Place>, queues: map<Gen, Queue>, queues': map<Gen, Queue>, d: Desk)
    requires Watch(t, place, queues, d)
    requires forall g :: g in queues' ==>
      ResultOk(queues'[g].worker, d.nextSpool) || (g in queues && queues'[g].worker == queues[g].worker)
    ensures Watch(t, place, queues', d)
  {
  }

  lemma KeysKept(t: Tables, t': Tables, requests: map<JobId, Request>)
    requires Keys(t, requests) && t'.repo == t.repo && t'.purgedKeys == t.purgedKeys
    ensures Keys(t', requests)
  {
  }
}
