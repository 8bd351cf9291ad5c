/**
 The engine's tables as the source updates them: `Inner` with its locked maps, the in-memory
 job store and the byte budget (print-core/src/engine/mod.rs, monitor.rs,
 print-core/src/repository.rs, print-core/src/queue.rs). Every method is proved against the
 step functions of `EngineModel`, so what is proved about runs holds of this code.
 */
module EngineCode {
  import opened Wrappers
  import opened Jobs
  import opened Reports
  import opened EngineModel
  import opened EngineInvariant
  import opened EngineBudget

  // ------------------------------------------------------------------ job store

  /** `InMemoryJobRepository`. */
  class Repository {
    var jobs: map<JobId, Job>

    constructor ()
      ensures jobs == map[]
    {
      jobs := map[];
    }

    /** `insert` and `update` both store the record under its id; `ok` is whether the write succeeded. */
    method Store(job: Job, ok: bool)
      modifies this
      ensures jobs == if ok then old(jobs)[job.id := job] else old(jobs)
    {
      if ok { jobs := jobs[job.id := job]; }
    }

    /** `find_by_idempotency_key`: finds a record of the client and key iff there is one. */
    method FindByKey(client: ClientId, key: Key) returns (found: Option<Job>)
      ensures found.Some? <==> KeyStored(jobs, client, key)
      ensures found.Some? ==> found.value in jobs.Values && found.value.client == client && found.value.key == Some(key)
    {
      var rest := jobs.Keys;
      while rest != {}
        invariant rest <= jobs.Keys
        invariant forall j :: j in jobs && j !in rest ==> !(jobs[j].client == client && jobs[j].key == Some(key))
        decreases |rest|
      {
        var j :| j in rest;
        if jobs[j].client == client && jobs[j].key == Some(key) {
          return Some(jobs[j]);
        }
        rest := rest - {j};
      }
      return None;
    }

    /** `non_terminal`: every open record once. */
    method NonTerminal() returns (rows: seq<JobId>)
      ensures NoDuplicates(rows)
      ensures forall j :: j in rows <==> j in jobs && !IsTerminal(jobs[j].status)
    {
      rows := [];
      var rest := jobs.Keys;
      while rest != {}
        invariant rest <= jobs.Keys && NoDuplicates(rows)
        invariant forall j :: j in rows <==> j in jobs && j !in rest && !IsTerminal(jobs[j].status)
        decreases |rest|
      {
        var j :| j in rest;
        if !IsTerminal(jobs[j].status) { rows := rows + [j]; }
        rest := rest - {j};
      }
    }

    /** `purge_terminal_before`: removes exactly the records that have ended and were created before the
        cutoff, and counts them. */
    method PurgeTerminalBefore(cutoff: nat) returns (removed: nat)
      modifies this
      ensures forall j :: j in jobs <==>
        (j in old(jobs) && !(old(jobs)[j].status in {Completed, Failed, Cancelled} && old(jobs)[j].createdAt < cutoff))
      ensures forall j :: j in jobs ==> jobs[j] == old(jobs)[j]
      ensures jobs == old(jobs) - ExpiredIn(old(jobs), cutoff)
      ensures removed == |ExpiredIn(old(jobs), cutoff)|
    {
      var rest, gone := jobs.Keys, {};
      while rest != {}
        invariant rest <= jobs.Keys && jobs == old(jobs)
        invariant gone == set j | j in jobs && j !in rest && Expired(jobs[j], cutoff)
        decreases |rest|
      {
        var j :| j in rest;
        if Expired(jobs[j], cutoff) { gone := gone + {j}; }
        rest := rest - {j};
      }
      var before := |jobs.Keys|;
      jobs := jobs - gone;
      assert jobs.Keys == old(jobs.Keys) - gone && gone <= old(jobs.Keys);
      removed := before - |jobs.Keys|;
      assert gone == ExpiredIn(old(jobs), cutoff);
    }
  }

  function ExpiredIn(jobs: map<JobId, Job>, cutoff: nat): set<JobId> {
    set j | j in jobs && Expired(jobs[j], cutoff)
  }

  // ------------------------------------------------------------------ Inner

  lemma ApplyKeepsId(c: Change, j: Job)
    ensures Apply(c, j).id == j.id
  {
  }

  /** What the gated section of `submit` ends with. */
  datatype Tracking = Existing(job: Job) | Created | StoreFailed

  datatype MonitorStep = Done | Changed | Unchanged

  class Inner {
    const repo: Repository
    var active: map<JobId, Job>
    var cancelling: set<JobId>
    var shutdown: bool
    ghost var dirty: set<JobId>
    ghost var purged: set<JobId>
    ghost var purgedKeys: set<(ClientId, Key)>

    constructor (repo: Repository)
      ensures this.repo == repo && active == map[] && cancelling == {} && !shutdown
      ensures View() == Tables(repo.jobs, map[], {}, {}, {})
    {
      this.repo := repo;
      active, cancelling, shutdown := map[], {}, false;
      dirty, purged, purgedKeys := {}, {}, {};
    }

    ghost function View(): Tables
      reads this, repo
    {
      Tables(repo.jobs, active, dirty, purged, purgedKeys)
    }

    /** Active records are stored under their own id; the engine invariant has it (`ActiveOk`). */
    ghost predicate OwnIds()
      reads this
    {
      forall j :: j in active ==> active[j].id == j
    }

    /** `Inner::mutate`; `ok` is whether the store accepts the update. */
    method Mutate(j: JobId, c: Change, ok: bool) returns (r: Option<Job>)
      requires OwnIds()
      modifies this, repo
      ensures OwnIds()
      ensures View() == EngineModel.Mutate(old(View()), j, c, ok)
      ensures r == if j in old(active) then Some(Apply(c, old(active[j]))) else None
      ensures cancelling == old(cancelling) && shutdown == old(shutdown)
    {
      hide Apply;
      if j !in active { return None; }
      var before := active[j];
      var job := Apply(c, before);
      ApplyKeepsId(c, before);
      active := active[j := job];
      if job != before {
        repo.Store(job, ok);
        dirty := if ok then dirty - {j} else dirty + {j};
      }
      if IsTerminal(job.status) {
        active := active - {j};
        assert active == old(active) - {j};
      }
      return Some(job);
    }

    /** The gated part of `submit`: an existing key wins; otherwise the new job is tracked, unless the
        store refuses the row (`ok` is false), which is reported and changes nothing. */
    method LookupOrTrack(j: JobId, client: ClientId, key: Option<Key>, now: nat, ok: bool) returns (r: Tracking)
      requires OwnIds()
      modifies this, repo
      ensures OwnIds()
      ensures r.Existing? <==> key.Some? && KeyStored(old(repo.jobs), client, key.value)
      ensures r.Existing? ==>
        exists known :: known in old(repo.jobs).Values && known.client == client && known.key == key &&
          r.job == if known.id in old(active) then old(active)[known.id] else known
      ensures r.StoreFailed? <==> !r.Existing? && !ok
      ensures !r.Created? ==> View() == old(View())
      ensures r.Created? ==>
        View() == old(View()).(repo := old(repo.jobs)[j := NewJob(j, client, key, now)],
                               active := old(active)[j := NewJob(j, client, key, now)])
      ensures r.Created? ==>
        && j in active && active[j] == repo.jobs[j] && active[j].id == j && active[j].createdAt == now
        && active[j].client == client && active[j].key == key
        && active[j].status == Received && active[j].delivery == RequestAccepted && active[j].printer.None?
    {
      if key.Some? {
        var existing := repo.FindByKey(client, key.value);
        if existing.Some? {
          var known := existing.value;
          return Existing(if known.id in active then active[known.id] else known);
        }
      }
      var job := NewJob(j, client, key, now);
      repo.Store(job, ok);
      if !ok { return StoreFailed; }
      active := active[j := job];
      return Created;
    }

    /** `monitor::apply`: what one spooler report does, and whether the monitor goes on. The record of
        a watched job, in the table or, once it has ended, in the store, says what the report said. */
    method ApplyReport(j: JobId, state: ProviderState, ok: bool) returns (step: MonitorStep)
      requires OwnIds()
      modifies this, repo
      ensures OwnIds()
      ensures View() == EngineModel.Mutate(old(View()), j, ChangeFor(state, j in old(cancelling)), ok)
      ensures j in old(active) && j in active && Watched(old(active[j])) ==>
        Reported(state, j in old(cancelling), old(active[j]), active[j])
      ensures j in old(active) && j !in active && ok && Watched(old(active[j])) ==>
        j in repo.jobs && Reported(state, j in old(cancelling), old(active[j]), repo.jobs[j])
      ensures j in old(active) && Watched(old(active[j])) ==>
        (step.Done? <==> state.Printed? || state.FailedIn? || state.DeletedIn? || state.Vanished?)
      ensures j !in old(active) ==> View() == old(View())
      ensures step.Done? <==> j !in active
      ensures step.Unchanged? <==> j in old(active) && j in active && active[j] == old(active[j])
      ensures cancelling == old(cancelling) && shutdown == old(shutdown)
    {
      hide Apply, Reported;
      if j in active && Watched(active[j]) { ReportSays(state, j in cancelling, active[j]); }
      var before := if j in active then Some(active[j]) else None;
      var m;
      match state {
        case Pending => m := Mutate(j, SeePending, ok);
        case NowPrinting => m := Mutate(j, SeePrinting, ok);
        case Blocked(c) => m := Mutate(j, SeeBlocked(c), ok);
        case Printed => m := Mutate(j, SeePrinted, ok);
        case Vanished =>
          if j in cancelling { m := Mutate(j, Cancel, ok); } else { m := Mutate(j, Retire, ok); }
        case FailedIn(e) => m := Mutate(j, Fail(e), ok);
        case DeletedIn => m := Mutate(j, Cancel, ok);
      }
      if m.None? || IsTerminal(m.value.status) { return Done; }
      return if m == before then Unchanged else Changed;
    }

    /** One turn of the loop of `monitor::run`: other sections act on the job, the monitor asks the
        spooler and makes the change, and sets its next interval. */
    method Turn(j: JobId, poll: Poll, interval: nat, base: nat, max: nat) returns (next: nat, ended: bool)
      requires OwnIds() && base <= interval <= max
      modifies this, repo
      ensures OwnIds()
      ensures View() == Polled(old(View()), j, poll)
      ensures ended ==> j !in active
      ensures base <= next <= max
      ensures !ended ==> Paced(old(View()), j, poll, base, max, interval, next)
    {
      hide Apply, ChangeFor, Reported, Watched, EngineModel.Mutate;
      next := interval;
      if poll.meanwhile.Some? { var _ := Mutate(j, poll.meanwhile.value, poll.ok); }
      if j !in active {
        EndedPoll(old(View()), j, poll);
        return next, true;
      }
      if poll.report.None? { return max, false; }
      cancelling := if poll.marked then cancelling + {j} else cancelling - {j};
      var step := ApplyReport(j, poll.report.value, poll.ok);
      match step {
        case Done => return next, true;
        case Changed => return base, false;
        case Unchanged => return (if interval * 3 / 2 < max then interval * 3 / 2 else max), false;
      }
    }

    /** `monitor::run`: what other sections do to the job between two polls, whether it is being
        cancelled when the monitor looks, and whether the write succeeds, are given per poll. The loop
        leaves the table as all polls together would and ends early only with the job; `waits` are the
        intervals before its polls, which start at the shortest and are paced by what each poll found. */
    method Watch(j: JobId, polls: seq<Poll>, base: nat, most: nat)
        returns (interval: nat, failures: nat, ghost waits: seq<nat>)
      requires OwnIds()
      modifies this, repo
      ensures OwnIds()
      ensures View() == WatchAll(old(View()), j, polls)
      ensures base <= interval <= (if most < base then base else most)
      ensures failures <= |polls|
      ensures 1 <= |waits| <= |polls| + 1 && waits[0] == base && waits[|waits| - 1] == interval
      ensures |waits| <= |polls| ==> j !in active
      ensures forall i :: 1 <= i < |waits| ==>
        Paced(WatchAll(old(View()), j, polls[..i - 1]), j, polls[i - 1], base, if most < base then base else most, waits[i - 1], waits[i])
    {
      hide Polled, Met, Paced;
      var max := if most < base then base else most;
      interval, failures, waits := base, 0, [base];
      for i := 0 to |polls|
        invariant OwnIds() && base <= interval <= max && failures <= i
        invariant View() == WatchAll(old(View()), j, polls[..i])
        invariant |waits| == i + 1 && waits[0] == base && waits[i] == interval
        invariant forall k :: 1 <= k < |waits| ==>
          Paced(WatchAll(old(View()), j, polls[..k - 1]), j, polls[k - 1], base, max, waits[k - 1], waits[k])
      {
        assert polls[..i + 1][..i] == polls[..i];
        var next, ended := Turn(j, polls[i], interval, base, max);
        if ended {
          EndedWatch(old(View()), j, polls, i + 1);
          return;
        }
        failures := if polls[i].report.None? then failures + 1 else 0;
        interval := next;
        waits := waits + [interval];
      }
      assert polls[..|polls|] == polls;
    }

    /** The loop of `shutdown`: fails every job of its snapshot, without looking at it again. */
    method FailSnapshot(doomed: seq<JobId>, writes: JobId -> bool)
      requires OwnIds()
      modifies this, repo
      ensures OwnIds()
      ensures View() == FailAll(old(View()), doomed, writes)
      ensures cancelling == old(cancelling) && shutdown == old(shutdown)
    {
      for i := 0 to |doomed|
        invariant OwnIds() && cancelling == old(cancelling) && shutdown == old(shutdown)
        invariant View() == FailAll(old(View()), doomed[..i], writes)
      {
        assert doomed[..i + 1][..i] == doomed[..i];
        var _ := Mutate(doomed[i], Fail(NotSent()), writes(doomed[i]));
      }
      assert doomed[..|doomed|] == doomed;
    }

    /** `reconcile_after_restart`; returns the jobs whose monitor is started again. */
    method ReconcileAfterRestart(known: PrinterId -> bool, writes: JobId -> bool) returns (rows: seq<JobId>, resumed: seq<JobId>)
      requires OwnIds()
      requires forall j :: j in repo.jobs ==> repo.jobs[j].id == j
      modifies this, repo
      ensures NoDuplicates(rows)
      ensures forall j :: j in rows <==> j in old(repo.jobs) && !IsTerminal(old(repo.jobs[j].status))
      ensures View() == ReloadAll(old(View()), old(repo.jobs), rows, known, writes)
      ensures resumed == ResumedOf(old(repo.jobs), rows, known)
    {
      rows := repo.NonTerminal();
      resumed := [];
      ghost var jobs0 := repo.jobs;
      var jobs := repo.jobs;
      for i := 0 to |rows|
        invariant OwnIds() && jobs == jobs0
        invariant View() == ReloadAll(old(View()), jobs0, rows[..i], known, writes)
        invariant resumed == ResumedOf(jobs0, rows[..i], known)
      {
        assert rows[..i + 1][..i] == rows[..i];
        var j := rows[i];
        assert j in rows;
        var row := jobs[j];
        active := active[j := row];
        if Resumes(row, row.printer.Some? && known(row.printer.value)) {
          resumed := resumed + [j];
        } else {
          var _ := Mutate(j, RestartChange(row), writes(j));
        }
      }
      assert rows[..|rows|] == rows;
    }
  }

  /** One turn of a monitor: what another section does first, the report (`None` is a status query
      that failed), whether the job is being cancelled when the monitor looks, and the writes. */
  datatype Poll = Poll(meanwhile: Option<Change>, report: Option<ProviderState>, marked: bool, ok: bool)

  /** The tables as the monitor meets them. */
  ghost function Met(t: Tables, j: JobId, poll: Poll): Tables {
    if poll.meanwhile.Some? then Mutate(t, j, poll.meanwhile.value, poll.ok) else t
  }

  /** How long the monitor waits after a poll: the longest when the query failed, the shortest when the
      record changed, and otherwise half as long again as before, up to the longest. */
  ghost predicate Paced(t: Tables, j: JobId, poll: Poll, base: nat, max: nat, before: nat, after: nat) {
    if poll.report.None? then after == max
    else
      var t1, t2 := Met(t, j, poll), Polled(t, j, poll);
      && j in t1.active && j in t2.active
      && (t1.active[j] != t2.active[j] ==> after == base)
      && (t1.active[j] == t2.active[j] && before * 3 / 2 < max ==> after == before * 3 / 2)
      && (t1.active[j] == t2.active[j] && before * 3 / 2 >= max ==> after == max)
  }

  ghost function Polled(t: Tables, j: JobId, poll: Poll): Tables {
    var t1 := Met(t, j, poll);
    if poll.report.None? then t1 else Mutate(t1, j, ChangeFor(poll.report.value, poll.marked), poll.ok)
  }

  lemma EndedPoll(t: Tables, j: JobId, poll: Poll)
    requires j !in Met(t, j, poll).active
    ensures Polled(t, j, poll) == Met(t, j, poll)
  {
    hide Apply, ChangeFor;
  }

  /** What a monitor makes of a series of polls. */
  ghost function WatchAll(t: Tables, j: JobId, polls: seq<Poll>): Tables {
    if polls == [] then t else Polled(WatchAll(t, j, polls[..|polls| - 1]), j, polls[|polls| - 1])
  }

  /** Once the job has ended, no later poll changes anything. */
  lemma {:induction false} EndedWatch(t: Tables, j: JobId, polls: seq<Poll>, n: nat)
    requires n <= |polls| && j !in WatchAll(t, j, polls[..n]).active
    ensures WatchAll(t, j, polls) == WatchAll(t, j, polls[..n])
    decreases |polls|
  {
    if n == |polls| {
      assert polls[..n] == polls;
    } else {
      var front := polls[..|polls| - 1];
      assert front[..n] == polls[..n];
      EndedWatch(t, j, front, n);
    }
  }

  ghost function FailAll(t: Tables, doomed: seq<JobId>, writes: JobId -> bool): Tables {
    if doomed == [] then t
    else
      var n := |doomed| - 1;
      Mutate(FailAll(t, doomed[..n], writes), doomed[n], Fail(NotSent()), writes(doomed[n]))
  }

  predicate Known(row: Job, known: PrinterId -> bool) {
    row.printer.Some? && known(row.printer.value)
  }

  ghost function Reload(t: Tables, row: Job, j: JobId, known: bool, ok: bool): Tables {
    var loaded := t.(active := t.active[j := row]);
    if Resumes(row, known) then loaded else Mutate(loaded, j, RestartChange(row), ok)
  }

  ghost function ReloadAll(t: Tables, jobs: map<JobId, Job>, rows: seq<JobId>, known: PrinterId -> bool, writes: JobId -> bool): Tables
    requires forall j :: j in rows ==> j in jobs
  {
    if rows == [] then t
    else
      var j := rows[|rows| - 1];
      Reload(ReloadAll(t, jobs, rows[..|rows| - 1], known, writes), jobs[j], j, Known(jobs[j], known), writes(j))
  }

  function ResumedOf(jobs: map<JobId, Job>, rows: seq<JobId>, known: PrinterId -> bool): seq<JobId>
    requires forall j :: j in rows ==> j in jobs
  {
    if rows == [] then []
    else
      var j := rows[|rows| - 1];
      ResumedOf(jobs, rows[..|rows| - 1], known) + if Resumes(jobs[j], Known(jobs[j], known)) then [j] else []
  }

  // ------------------------------------------------------------------ byte budget and queues

  /** What a swap of the budget counter meets: the value the other threads have left, and whether the
      weak swap fails although the value is the expected one. */
  datatype Rival = Rival(used: nat, spurious: bool)

  /** `ByteBudget`, with the reservations that are alive. */
  class ByteBudget {
    var used: nat
    const limit: nat
    ghost var live: map<nat, nat>
    ghost var ids: nat                   // reservation numbers given out so far

    /** The counter is the sum of the live reservations, within the limit. */
    ghost predicate Valid()
      reads this
    {
      Accounts(live, ids, used, limit)
    }

    constructor (limit: nat)
      requires limit <= U64_MAX
      ensures Valid() && live == map[] && this.limit == limit
    {
      used, live, ids := 0, map[], 0;
      this.limit := limit;
    }

    /** `try_reserve`. Before the i-th swap the other threads have made the live reservations
        `others[i]`. The bytes are reserved iff they fit beside the reservations that are alive in
        the end, and nobody else's reservation is touched. */
    method TryReserve(bytes: nat, rivals: seq<Rival>, ghost others: seq<map<nat, nat>>) returns (ok: bool, ghost id: nat, ghost turns: nat)
      requires Valid() && limit <= U64_MAX && |others| == |rivals|
      requires forall i :: 0 <= i < |rivals| ==> Accounts(others[i], ids, rivals[i].used, limit)
      modifies this
      ensures Valid() && turns <= |rivals| && id == old(ids)
      ensures
        var seen := if turns == 0 then old(live) else others[turns - 1];
        && (ok <==> Total(seen, old(ids)) + bytes <= limit)
        && live == if ok then seen[id := bytes] else seen
    {
      var current := used;
      turns, id := 0, ids;
      ghost var i := 0;
      var left := rivals;
      while true
        invariant turns == i <= |rivals| && left == rivals[i..] && ids == old(ids) == id
        invariant Accounts(live, ids, used, limit) && live == (if i == 0 then old(live) else others[i - 1])
        invariant current == used
        decreases |left|
      {
        var next := current + bytes;
        if next > U64_MAX || next > limit { return false, id, turns; }
        var spurious := false;
        if left != [] {
          used, spurious, left := left[0].used, left[0].spurious, left[1..];
          live := others[i];
          i := i + 1;
          turns := i;
        }
        if used == current && !spurious {
          TotalAdd(live, id, bytes, ids);
          TotalKeysBelow(live, id, bytes, ids);
          used := next;
          live := live[id := bytes];
          ids := ids + 1;
          return true, id, turns;
        }
        current := used;
      }
    }

    /** `ByteReservation::drop`: exactly its own bytes come back, so the counter never underflows. */
    method Drop(ghost id: nat, bytes: nat)
      requires Valid() && id in live && live[id] == bytes
      modifies this
      ensures Valid() && live == old(live) - {id} && ids == old(ids)
    {
      TotalRemove(live, id, ids);
      used := used - bytes;
      live := live - {id};
    }
  }

  ghost predicate Accounts(live: map<nat, nat>, ids: nat, used: nat, limit: nat) {
    used == Total(live, ids) <= limit && forall k :: k in live ==> k < ids
  }

  lemma TotalKeysBelow(live: map<nat, nat>, id: nat, bytes: nat, ids: nat)
    requires id == ids && forall k :: k in live ==> k < ids
    ensures Total(live[id := bytes], ids + 1) == Total(live, ids) + bytes
  {
    TotalAdd(live, id, bytes, ids);
  }

  /** `PrinterQueues`, with the channels its senders lead to. */
  class PrinterQueues {
    var senders: map<PrinterId, Gen>
    var queues: map<Gen, Queue>
    var nextGen: Gen

    constructor ()
      ensures senders == map[] && queues == map[] && nextGen == 0
    {
      senders, queues, nextGen := map[], map[], 0;
    }

    /** `sender_for`: the printer's open channel, or a new one with its worker. */
    method SenderFor(f: Flow, j: JobId) returns (g: Gen)
      requires j in f.place && f.place[j].AtSubmit? && f.place[j].pc.Marked?
      requires f.senders == senders && f.queues == queues && f.nextGen == nextGen
      modifies this
      ensures
        var f' := FetchSender(f, j);
        && senders == f'.senders && queues == f'.queues && nextGen == f'.nextGen
        && f'.place[j] == AtSubmit(Sending(f.place[j].pc.printer, g))
      ensures f.place[j].pc.printer in senders && senders[f.place[j].pc.printer] == g && g in queues && !queues[g].worker.Stopped?
    {
      var p := f.place[j].pc.printer;
      if p in senders && senders[p] in queues && !queues[senders[p]].worker.Stopped? {
        return senders[p];
      }
      g := nextGen;
      queues := queues[g := Queue(p, [], Idle)];
      senders := senders[p := g];
      nextGen := nextGen + 1;
    }
  }
}
