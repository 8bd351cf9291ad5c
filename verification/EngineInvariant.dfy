/**
 The inductive invariant of the engine. It is split by concern, because each part is kept by
 its own argument: where a job's submission is (`Tokens`), the byte budget (`Budget`), the
 job records in memory and on disk (`Records`), monitors and the spooler (`Watch`), the
 process phases (`Phases`) and the order of submissions (`Order`).
 */
module EngineInvariant {
  import opened Wrappers
  import opened Jobs
  import opened EngineModel

  // ------------------------------------------------------------------ tokens

  ghost predicate Logged(log: seq<Submission>, j: JobId) {
    exists i :: 0 <= i < |log| && log[i].job == j
  }

  predicate Sends(p: Place) {
    p.Calling? || p.Handed?
  }

  /** No step has decided to submit the job yet. */
  predicate Unclaimed(p: Place) {
    p.AtSubmit? || p.AtQueue? || p.Taken? || p.Gone?
  }

  ghost predicate PlaceOk(f: Flow, j: JobId, p: Place) {
    match p
    case AtSubmit(pc) =>
      && (pc.Inserted? ==> f.gate == Some(j))
      && (pc.Sending? ==> pc.gen in f.queues && f.queues[pc.gen].printer == pc.printer)
    case AtQueue(g, pr) => g in f.queues && f.queues[g].printer == pr && j in f.queues[g].items
    case Taken(g, pr) => g in f.queues && f.queues[g].printer == pr && f.queues[g].worker == Has(j)
    case Claimed(g, pr) => g in f.queues && f.queues[g].printer == pr && f.queues[g].worker == Took(j)
    case Calling(g, pr) =>
      && g in f.queues && f.queues[g].printer == pr && f.queues[g].worker.Waits?
      && f.queues[g].worker.job == j && !f.queues[g].worker.timedOut
    case Handed => true
    case Gone => true
  }

  predicate NoDuplicates(items: seq<JobId>) {
    forall i, k :: 0 <= i < k < |items| ==> items[i] != items[k]
  }

  predicate ItemsOk(place: map<JobId, Place>, here: Place, items: seq<JobId>) {
    forall i :: 0 <= i < |items| ==> items[i] in place && place[items[i]] == here
  }

  predicate WorkerOk(f: Flow, g: Gen, pr: PrinterId, w: WorkerPc) {
    match w
    case Idle => true
    case Has(j) => j in f.place && f.place[j] == Taken(g, pr)
    case Took(j) => j in f.place && f.place[j] == Claimed(g, pr)
    case Waits(j, r, late) =>
      && j in f.place && f.place[j] == (if late then Handed else Calling(g, pr))
      && (r.None? ==> j in f.running && f.running[j] == g)
    case Stopped => true
  }

  ghost predicate QueueOk(cfg: Config, f: Flow, g: Gen, q: Queue) {
    && g < f.nextGen
    && |q.items| <= cfg.capacity
    && NoDuplicates(q.items)
    && ItemsOk(f.place, AtQueue(g, q.printer), q.items)
    && WorkerOk(f, g, q.printer, q.worker)
    && (!q.worker.Stopped? ==> q.printer in f.senders && f.senders[q.printer] == g)
  }

  ghost predicate RunningOk(f: Flow, j: JobId, g: Gen) {
    && g in f.queues && j in f.place && Sends(f.place[j])
    && f.queues[g].worker.Waits? && f.queues[g].worker.job == j && f.queues[g].worker.result.None?
  }

  ghost predicate SendersOk(f: Flow) {
    forall p :: p in f.senders ==> f.senders[p] in f.queues && f.queues[f.senders[p]].printer == p
  }

  ghost predicate Tokens(cfg: Config, f: Flow) {
    && (forall j: JobId :: j in f.place <==> j < f.nextId)
    && f.requests.Keys == f.place.Keys
    && (forall j :: j in f.place ==> PlaceOk(f, j, f.place[j]))
    && (forall g :: g in f.queues ==> QueueOk(cfg, f, g, f.queues[g]))
    && SendersOk(f)
    && (forall j :: j in f.running ==> RunningOk(f, j, f.running[j]))
  }

  /** The submission history: one entry per submitted job, under the request's own key. */
  ghost predicate History(place: map<JobId, Place>, requests: map<JobId, Request>, log: seq<Submission>) {
    && (forall j :: j in place && Sends(place[j]) ==> Logged(log, j))
    && (forall i :: 0 <= i < |log| ==> EntryOk(place, requests, log[i]))
    && (forall i, k :: 0 <= i < k < |log| ==> log[i].job != log[k].job)
  }

  predicate EntryOk(place: map<JobId, Place>, requests: map<JobId, Request>, e: Submission) {
    && e.job in place && Sends(place[e.job])
    && e.job in requests && e.client == requests[e.job].client && e.key == requests[e.job].key
  }

  // ------------------------------------------------------------------ byte budget

  function Total(m: map<JobId, nat>, n: nat): nat {
    if n == 0 then 0 else Total(m, n - 1) + (if n - 1 in m then m[n - 1] else 0)
  }

  /** Who owns a byte reservation. */
  predicate Holds(p: Place, running: bool) {
    match p
    case AtSubmit(pc) => pc.Reserved? || pc.Marked? || pc.Sending?
    case AtQueue(_, _) => true
    case Taken(_, _) => true
    case Claimed(_, _) => true
    case Calling(_, _) => running
    case Handed => running
    case Gone => false
  }

  ghost predicate Budget(cfg: Config, place: map<JobId, Place>, running: map<JobId, Gen>, n: nat, b: Bytes) {
    && b.used == Total(b.reservations, n)
    && b.used <= cfg.budgetLimit
    && (forall j :: j in b.reservations ==> j in place)
    && (forall j :: j in place ==> (j in b.reservations <==> Holds(place[j], j in running)))
    && (forall j :: j in place && place[j].AtSubmit? && place[j].pc.Reserving? ==> 0 <= place[j].pc.seen)
  }

  // ------------------------------------------------------------------ records

  predicate SubmitFits(job: Job, pc: SubmitPc) {
    match pc
    case Inserted => false
    case Tracked => job.status == Received
    case Preparing => job.status == Validating
    case Resolved(p) => job.status == Validating && job.printer == Some(p)
    case Reserving(p, _) => job.status == Validating && job.printer == Some(p)
    case Reserved(p) => job.status == Validating && job.printer == Some(p)
    case Marked(p) => job.status == Queued && job.printer == Some(p)
    case Sending(p, _) => job.status == Queued && job.printer == Some(p)
    case Failing(_) => true
  }

  /** An active record says exactly how far its submission has gone. */
  predicate Fits(job: Job, p: Place) {
    match p
    case AtSubmit(pc) => job.delivery == RequestAccepted && SubmitFits(job, pc)
    case AtQueue(_, pr) => job.delivery == RequestAccepted && job.status == Queued && job.printer == Some(pr)
    case Taken(_, pr) => job.delivery == RequestAccepted && job.status == Queued && job.printer == Some(pr)
    case Claimed(_, pr) => job.delivery == Submitting && job.status == Queued && job.printer == Some(pr)
    case Calling(_, pr) => job.delivery == Submitting && job.status == Queued && job.printer == Some(pr)
    case Handed => job.delivery == SpoolerAccepted
    case Gone => job.delivery == RequestAccepted
  }

  predicate ActiveOk(t: Tables, place: map<JobId, Place>, j: JobId, job: Job) {
    && j in place && j in t.repo
    && job.id == j && Consistent(job) && !IsTerminal(job.status)
    && Fits(job, place[j])
    && SameIdentity(t.repo[j], job)
    && !IsTerminal(t.repo[j].status)
    && Rank(t.repo[j].delivery) <= Rank(job.delivery)
    && (j !in t.dirty ==> t.repo[j] == job)
  }

  /** A row that no task of the current process is responsible for yet. */
  predicate Waiting(phase: Phase, j: JobId, p: Place) {
    || phase.Down?
    || (phase.Reconciling? && j in phase.todo)
    || p == AtSubmit(Inserted)
  }

  predicate RowOk(t: Tables, place: map<JobId, Place>, requests: map<JobId, Request>, phase: Phase,
                  j: JobId, row: Job) {
    && j in place && j in requests
    && row.id == j && Consistent(row)
    && row.client == requests[j].client && row.key == requests[j].key
    && (Rank(row.delivery) == 2 ==> place[j].Handed?)
    && (!IsTerminal(row.status) && j !in t.dirty ==> j in t.active || Waiting(phase, j, place[j]))
    && (!IsTerminal(row.status) && j !in t.dirty && row.delivery == RequestAccepted ==> Unclaimed(place[j]))
    && (place[j] == AtSubmit(Inserted) ==>
          j !in t.active && j !in t.dirty && row.status == Received && row.delivery == RequestAccepted)
  }

  ghost predicate Records(t: Tables, place: map<JobId, Place>, requests: map<JobId, Request>, phase: Phase) {
    && (forall j :: j in t.active ==> ActiveOk(t, place, j, t.active[j]))
    && (forall j :: j in t.repo ==> RowOk(t, place, requests, phase, j, t.repo[j]))
    && (forall j :: j in place && j !in t.repo ==> j in t.purged && place[j] != AtSubmit(Inserted))
    && (forall j :: j in t.dirty ==> j in place)
  }

  predicate SameKey(a: Job, b: Job) {
    a.key.Some? && a.client == b.client && a.key == b.key
  }

  /** One record per client and key, and a key outlives its record only by being purged. */
  ghost predicate Keys(t: Tables, requests: map<JobId, Request>) {
    && (forall a, b :: a in t.repo && b in t.repo && a != b ==> !SameKey(t.repo[a], t.repo[b]))
    && (forall j :: j in requests && j !in t.repo && requests[j].key.Some?
          ==> (requests[j].client, requests[j].key.value) in t.purgedKeys)
  }

  // ------------------------------------------------------------------ monitors and phases

  predicate WatchChange(c: Change) {
    match c
    case SeePending => true
    case SeePrinting => true
    case SeeBlocked(_) => true
    case SeePrinted => true
    case Retire => true
    case Fail(_) => true
    case Cancel => true
    case _ => false
  }

  predicate MonitorOk(active: map<JobId, Job>, place: map<JobId, Place>, nextSpool: SpoolId, j: JobId, m: Monitor) {
    && j in place && place[j].Handed?
    && m.spool < nextSpool
    && (j in active ==> active[j].spool == Some(m.spool))
    && (m.pc.Decided? ==> WatchChange(m.pc.change))
  }

  predicate ResultOk(w: WorkerPc, nextSpool: SpoolId) {
    w.Waits? && w.result.Some? && w.result.value.Spooled? ==> w.result.value.spool < nextSpool
  }

  ghost predicate Watch(t: Tables, place: map<JobId, Place>, queues: map<Gen, Queue>, d: Desk) {
    && (forall j :: j in d.monitors ==> MonitorOk(t.active, place, d.nextSpool, j, d.monitors[j]))
    && (forall id :: id in d.entries ==> id < d.nextSpool)
    && (forall j :: j in t.repo && t.repo[j].spool.Some? ==> t.repo[j].spool.value < d.nextSpool)
    && (forall j :: j in t.active && t.active[j].spool.Some? ==> t.active[j].spool.value < d.nextSpool)
    && (forall g :: g in queues ==> ResultOk(queues[g].worker, d.nextSpool))
  }

  ghost predicate Phases(s: State) {
    && (!s.phase.Serving? ==>
          && s.flow.queues == map[] && s.flow.running == map[] && s.flow.gate.None? && s.flow.senders == map[]
          && s.desk.cancels == map[] && s.desk.cancelling == {} && s.doomed == {}
          && (forall j :: j in s.flow.place ==> s.flow.place[j].Handed? || s.flow.place[j].Gone?))
    && (s.phase.Down? ==> s.tables.active == map[] && s.desk.monitors == map[])
    && (s.phase.Reconciling? ==>
          forall j :: j in s.phase.todo ==>
            && j in s.tables.repo && s.phase.todo[j] == s.tables.repo[j]
            && !IsTerminal(s.tables.repo[j].status)
            && j !in s.tables.active && j !in s.desk.monitors)
  }

  // ------------------------------------------------------------------ order

  /** `at` lists increasing positions of `b` that spell out `a`. */
  ghost predicate Embeds(at: seq<nat>, a: seq<JobId>, b: seq<JobId>) {
    && |at| == |a|
    && (forall i :: 0 <= i < |a| ==> at[i] < |b| && b[at[i]] == a[i])
    && (forall i, k :: 0 <= i < k < |a| ==> at[i] < at[k])
  }

  ghost predicate Subsequence(a: seq<JobId>, b: seq<JobId>) {
    exists at: seq<nat> :: Embeds(at, a, b)
  }

  /** Items of a queue that were sent and not yet submitted, oldest first. */
  function Backlog(q: Queue): seq<JobId> {
    (if q.worker.Has? || q.worker.Took? then [q.worker.job] else []) + q.items
  }

  /** The queue that a printer's sends currently go to has a running worker. */
  predicate Live(f: Flow, p: PrinterId) {
    p in f.senders && f.senders[p] in f.queues && !f.queues[f.senders[p]].worker.Stopped?
  }

  function Waiters(f: Flow, p: PrinterId): seq<JobId> {
    if Live(f, p) then Backlog(f.queues[f.senders[p]]) else []
  }

  /** What was sent and is no longer waiting holds every submission, in order. */
  ghost predicate InOrder(sent: seq<JobId>, called: seq<JobId>, waiting: seq<JobId>) {
    && |waiting| <= |sent|
    && sent[|sent| - |waiting|..] == waiting
    && Subsequence(called, sent[..|sent| - |waiting|])
  }

  ghost predicate PrinterOrder(f: Flow, h: Trace, p: PrinterId) {
    InOrder(Sent(h.sends, p), Sent(h.calls, p), Waiters(f, p))
  }

  ghost predicate Order(f: Flow, h: Trace) {
    forall p :: PrinterOrder(f, h, p)
  }

  // ------------------------------------------------------------------ together

  ghost predicate Inv(cfg: Config, s: State) {
    && Tokens(cfg, s.flow)
    && History(s.flow.place, s.flow.requests, s.trace.log)
    && Budget(cfg, s.flow.place, s.flow.running, s.flow.nextId, s.bytes)
    && Records(s.tables, s.flow.place, s.flow.requests, s.phase)
    && Keys(s.tables, s.flow.requests)
    && Watch(s.tables, s.flow.place, s.flow.queues, s.desk)
    && Phases(s)
    && Order(s.flow, s.trace)
  }

  lemma InitInv(cfg: Config)
    ensures Inv(cfg, Init())
  {
    assert Embeds([], [], []);
  }
}
