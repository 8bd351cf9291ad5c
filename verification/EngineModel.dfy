/**
 The print engine as a concurrent, crash-tolerant state machine
 (print-core/src/engine/mod.rs, worker.rs, monitor.rs, print-core/src/queue.rs).

 A `State` holds the engine's shared tables, the program counters of its tasks, the job
 store that survives a crash, and an abstract OS spooler. A `Step` is one lock-protected
 section (or one foreign call) of the source; everything the source leaves to the scheduler,
 the clock, the provider or the disk is an argument of the step. `Enabled` says when a step
 can be taken and `Do` what it does, so a run of the engine is a sequence of steps and every
 interleaving is some sequence.
 */
module EngineModel {
  import opened Wrappers
  import opened Jobs

  type Gen = nat
  type CallId = nat

  const U64_MAX: nat := 0xFFFF_FFFF_FFFF_FFFF

  /** EngineConfig: the byte budget and the depth of one printer's queue. */
  datatype Config = Config(budgetLimit: nat, capacity: nat)

  ghost predicate ValidConfig(cfg: Config) {
    cfg.budgetLimit <= U64_MAX && 1 <= cfg.capacity
  }

  /** Where one `submit` call stands. */
  datatype SubmitPc =
    | Inserted                                // row stored, submit gate held, not yet active
    | Tracked                                 // in the active table
    | Preparing                               // VALIDATING, printer not recorded
    | Resolved(printer: PrinterId)            // printer recorded, rendering
    | Reserving(printer: PrinterId, seen: int) // compare-and-swap loop on the byte budget
    | Reserved(printer: PrinterId)
    | Marked(printer: PrinterId)              // QUEUED, sender not yet fetched
    | Sending(printer: PrinterId, gen: Gen)   // holds a sender clone
    | Failing(error: PrintError)              // returned Err; the final `fail` is pending

  /**
   The one thing that can cause a submission of a job: first the `submit` call, then the
   queued item, then the worker that took it, then the provider call, then nothing.
   */
  datatype Place =
    | AtSubmit(pc: SubmitPc)
    | AtQueue(gen: Gen, printer: PrinterId)
    | Taken(gen: Gen, printer: PrinterId)     // received by the worker, not claimed
    | Claimed(gen: Gen, printer: PrinterId)   // SUBMITTING is recorded, call not made
    | Calling(gen: Gen, printer: PrinterId)   // provider.submit was called; worker awaits it
    | Handed                                  // provider.submit was called; worker moved on
    | Gone                                    // dropped without a call

  datatype SubmitResult = Spooled(spool: SpoolId) | Delivered | Errored(error: PrintError) | Panicked

  datatype WorkerPc =
    | Idle
    | Has(job: JobId)
    | Took(job: JobId)                        // claimed
    | Waits(job: JobId, result: Option<SubmitResult>, timedOut: bool)
    | Stopped                                 // receiver dropped

  /** One mpsc channel with its worker; `senders` names the current one of each printer. */
  datatype Queue = Queue(printer: PrinterId, items: seq<JobId>, worker: WorkerPc)

  datatype ProviderState =
    | Pending | NowPrinting | Blocked(condition: ErrorCode) | Printed
    | FailedIn(error: PrintError) | DeletedIn | Vanished

  datatype MonitorPc = Sleeping | Observed(state: ProviderState) | Decided(change: Change)
  datatype Monitor = Monitor(spool: SpoolId, pc: MonitorPc)

  datatype CancelStage =
    | Unsent                                  // read REQUEST_ACCEPTED
    | InSpooler(spool: SpoolId)               // read SPOOLER_ACCEPTED
    | Marking(spool: SpoolId)                 // job id in `cancelling`
    | Deleted                                 // provider.cancel returned Ok
    | Settled                                 // table updated, or the deletion failed
  datatype CancelCall = CancelCall(job: JobId, stage: CancelStage)

  datatype Phase = Down | Reconciling(todo: map<JobId, Job>) | Serving

  /** One call of provider.submit. */
  datatype Submission = Submission(job: JobId, printer: PrinterId, client: ClientId, key: Option<Key>)

  /** What a `submit` call carries with it. */
  datatype Request = Request(client: ClientId, key: Option<Key>, size: nat)

  /** The job store and the in-memory table of non-terminal jobs. */
  datatype Tables = Tables(
    repo: map<JobId, Job>,                    // survives a crash
    active: map<JobId, Job>,
    dirty: set<JobId>,                        // history: the last update was not stored
    purged: set<JobId>,                       // history: rows removed by retention
    purgedKeys: set<(ClientId, Key)>)

  /** `submit` calls, channels, workers and the provider calls they started. */
  datatype Flow = Flow(
    place: map<JobId, Place>,
    requests: map<JobId, Request>,
    gate: Option<JobId>,
    senders: map<PrinterId, Gen>,
    queues: map<Gen, Queue>,
    running: map<JobId, Gen>,
    nextId: JobId,
    nextGen: Gen)

  /** `ByteBudget` and the live `ByteReservation`s. */
  datatype Bytes = Bytes(used: int, reservations: map<JobId, nat>)

  /** History: submissions of all time; sends and submissions of this process by printer. */
  datatype Trace = Trace(
    log: seq<Submission>,
    sends: map<PrinterId, seq<JobId>>,
    calls: map<PrinterId, seq<JobId>>)

  /** Monitors and cancellations, and the OS spooler they act on. */
  datatype Desk = Desk(
    monitors: map<JobId, Monitor>,
    cancelling: set<JobId>,
    cancels: map<CallId, CancelCall>,
    entries: map<SpoolId, JobId>,             // the spooler; survives a crash
    nextSpool: SpoolId,
    deleted: set<JobId>)                      // history: entries our own cancel removed

  datatype State = State(
    phase: Phase,
    shutdown: bool,
    doomed: set<JobId>,                       // shutdown's snapshot
    tables: Tables,
    flow: Flow,
    bytes: Bytes,
    trace: Trace,
    desk: Desk)

  function Init(): State {
    State(Down, false, {},
          Tables(map[], map[], {}, {}, {}),
          Flow(map[], map[], None, map[], map[], map[], 0, 0),
          Bytes(0, map[]),
          Trace([], map[], map[]),
          Desk(map[], {}, map[], map[], 0, {}))
  }

  datatype Step =
    // submit, prepare, enqueue
    | SubmitInsert(client: ClientId, key: Option<Key>, size: nat, now: nat)
    | SubmitExisting(client: ClientId, known: Key)
    | SubmitActivate(job: JobId)
    | SubmitValidate(job: JobId, ok: bool)
    | SubmitReject(job: JobId, error: PrintError)
    | SubmitAbort(job: JobId)
    | SubmitResolve(job: JobId, printer: PrinterId, ok: bool)
    | BudgetLoad(job: JobId)
    | BudgetSwap(job: JobId, spurious: bool)
    | SubmitMark(job: JobId, ok: bool)
    | SubmitSender(job: JobId)
    | SubmitSend(job: JobId)
    | SubmitFail(job: JobId, ok: bool)
    // worker
    | WorkerReceive(gen: Gen)
    | WorkerClaim(gen: Gen, ok: bool)
    | WorkerNoProvider(gen: Gen, error: PrintError, ok: bool)
    | WorkerCall(gen: Gen)
    | ProviderReturn(gen: Gen, result: SubmitResult)
    | WorkerSettle(gen: Gen, ok: bool)
    | WorkerTimeout(gen: Gen, ok: bool)
    | WorkerLate(gen: Gen)
    | WorkerExit(gen: Gen)
    | WorkerDrain(gen: Gen)
    // monitor and spooler
    | MonitorPoll(job: JobId, state: ProviderState)
    | MonitorStop(job: JobId)
    | MonitorDecide(job: JobId)
    | MonitorApply(job: JobId, ok: bool)
    | SpoolerRetire(spool: SpoolId)
    // cancel
    | CancelRead(call: CallId, job: JobId, fromStore: bool)
    | CancelQueued(call: CallId, ok: bool)
    | CancelMark(call: CallId)
    | CancelDelete(call: CallId, deletes: bool)
    | CancelSettle(call: CallId, ok: bool)
    | CancelUnmark(call: CallId)
    // shutdown, retention, crash, restart
    | ShutdownSignal
    | ShutdownSnapshot
    | ShutdownFail(job: JobId, ok: bool)
    | Purge(cutoff: nat)
    | Crash
    | Boot
    | Reconcile(job: JobId, printerKnown: bool, ok: bool)
    | Serve

  // ------------------------------------------------------------------ shared effects

  /** `Inner::mutate`: `ok` is whether the store accepted the update. */
  function Mutate(t: Tables, j: JobId, c: Change, ok: bool): Tables {
    if j !in t.active then t
    else
      var before := t.active[j];
      var after := Apply(c, before);
      t.(active := if IsTerminal(after.status) then t.active - {j} else t.active[j := after],
         repo := if after != before && ok then t.repo[j := after] else t.repo,
         dirty := if after == before then t.dirty
                  else if ok then t.dirty - {j} else t.dirty + {j})
  }

  function MutateIn(s: State, j: JobId, c: Change, ok: bool): State {
    s.(tables := Mutate(s.tables, j, c, ok))
  }

  function Put(f: Flow, j: JobId, to: Place): Flow {
    f.(place := f.place[j := to])
  }

  function Move(s: State, j: JobId, to: Place): State {
    s.(flow := Put(s.flow, j, to))
  }

  /** `ByteReservation::drop`. */
  function Release(b: Bytes, j: JobId): Bytes {
    if j in b.reservations
    then Bytes(b.used - b.reservations[j], b.reservations - {j})
    else b
  }

  function ReleaseIn(s: State, j: JobId): State {
    s.(bytes := Release(s.bytes, j))
  }

  function SetWorker(f: Flow, g: Gen, w: WorkerPc): Flow
    requires g in f.queues
  {
    f.(queues := f.queues[g := f.queues[g].(worker := w)])
  }

  /** One worker's step: its program counter and the place of its job change together. */
  function Advance(s: State, g: Gen, w: WorkerPc, j: JobId, to: Place): State
    requires g in s.flow.queues
  {
    s.(flow := Put(SetWorker(s.flow, g, w), j, to))
  }

  function Sent(h: map<PrinterId, seq<JobId>>, p: PrinterId): seq<JobId> {
    if p in h then h[p] else []
  }

  /** `find_by_idempotency_key`. */
  ghost predicate KeyStored(repo: map<JobId, Job>, client: ClientId, key: Key) {
    exists j :: j in repo && repo[j].client == client && repo[j].key == Some(key)
  }

  function Failure(code: ErrorCode, outcome: Outcome): PrintError {
    PrintError(code, outcome, None, None)
  }

  function QueueFull(p: PrinterId): PrintError { PrintError(CodeQueueFull, Unstated, None, Some(p)) }
  function ShuttingDown(): PrintError { Failure(CodeUnsupportedOperation, Unstated) }
  function NotSent(): PrintError { Failure(CodePrintFailed, NotPrinted) }
  function MaybePrinted(): PrintError { Failure(CodePrintFailed, Unknown) }
  function TimedOut(): PrintError { Failure(CodeTimeout, Unknown) }
  function PanicError(): PrintError { Failure(CodeInternal, Unknown) }
  function PrinterVanished(): PrintError { Failure(CodePrinterNotFound, Unknown) }

  /** monitor::apply: the change a spooler report stands for. */
  function ChangeFor(st: ProviderState, cancelling: bool): Change {
    match st
    case Pending => SeePending
    case NowPrinting => SeePrinting
    case Blocked(c) => SeeBlocked(c)
    case Printed => SeePrinted
    case FailedIn(e) => Fail(e)
    case DeletedIn => Cancel
    case Vanished => if cancelling then Cancel else Retire
  }

  /** worker::process and worker::submitted: the change a provider result stands for. */
  function ResultChange(r: SubmitResult): Change {
    match r
    case Spooled(id) => MarkSpooled(id)
    case Delivered => MarkDelivered
    case Errored(e) => Fail(e)
    case Panicked => Fail(PanicError())
  }

  /** reconcile_after_restart: what becomes of a row the previous process left behind. */
  function RestartChange(row: Job): Change {
    match row.delivery
    case SpoolerAccepted => Fail(PrinterVanished())
    case Submitting => Fail(MaybePrinted())
    case RequestAccepted => Fail(NotSent())
    case DeviceDelivered => ConfirmDelivered
  }

  /** A restart resumes watching exactly the spooled jobs whose printer is known. */
  predicate Resumes(row: Job, printerKnown: bool) {
    row.delivery == SpoolerAccepted && row.spool.Some? && row.printer.Some? && printerKnown
  }

  /** What a crash leaves of a job's submission. */
  function AfterCrash(p: Place): Place {
    if p.Calling? || p.Handed? then Handed else Gone
  }

  predicate Expired(job: Job, cutoff: nat) {
    IsTerminal(job.status) && job.createdAt < cutoff
  }

  function KeysOf(repo: map<JobId, Job>, rows: set<JobId>): set<(ClientId, Key)> {
    set j | j in rows && j in repo && repo[j].key.Some? :: (repo[j].client, repo[j].key.value)
  }

  // ------------------------------------------------------------------ steps

  predicate SubmitAt(s: State, j: JobId) {
    s.phase.Serving? && j in s.flow.place && s.flow.place[j].AtSubmit? && j in s.flow.requests
  }

  predicate WorkerOf(s: State, g: Gen) {
    s.phase.Serving? && g in s.flow.queues
  }

  predicate CancelAt(s: State, c: CallId) {
    s.phase.Serving? && c in s.desk.cancels
  }

  function JobRead(t: Tables, j: JobId, fromStore: bool): Option<Job> {
    if !fromStore && j in t.active then Some(t.active[j])
    else if j in t.repo then Some(t.repo[j])
    else None
  }

  ghost predicate SubmitEnabled(s: State, t: Step)
    requires IsSubmitStep(t)
  {
    match t
    case SubmitInsert(client, key, size, now) =>
      s.phase.Serving? && s.flow.gate.None? && (key.Some? ==> !KeyStored(s.tables.repo, client, key.value))
    case SubmitExisting(client, known) =>
      s.phase.Serving? && s.flow.gate.None? && KeyStored(s.tables.repo, client, known)
    case SubmitActivate(j) =>
      SubmitAt(s, j) && s.flow.place[j].pc.Inserted? && j in s.tables.repo
    case SubmitValidate(j, ok) => SubmitAt(s, j) && s.flow.place[j].pc.Tracked?
    case SubmitReject(j, e) =>
      SubmitAt(s, j) && (s.flow.place[j].pc.Preparing? || s.flow.place[j].pc.Resolved?)
    case SubmitAbort(j) =>
      SubmitAt(s, j) && (s.flow.place[j].pc.Preparing? || s.flow.place[j].pc.Resolved?)
    case SubmitResolve(j, p, ok) => SubmitAt(s, j) && s.flow.place[j].pc.Preparing?
    case BudgetLoad(j) => SubmitAt(s, j) && s.flow.place[j].pc.Resolved?
    case BudgetSwap(j, _) => SubmitAt(s, j) && s.flow.place[j].pc.Reserving?
    case SubmitMark(j, ok) => SubmitAt(s, j) && s.flow.place[j].pc.Reserved?
    case SubmitSender(j) => SubmitAt(s, j) && s.flow.place[j].pc.Marked?
    case SubmitSend(j) =>
      SubmitAt(s, j) && s.flow.place[j].pc.Sending? && s.flow.place[j].pc.gen in s.flow.queues
    case SubmitFail(j, ok) => SubmitAt(s, j) && s.flow.place[j].pc.Failing?
  }

  predicate WorkerEnabled(s: State, t: Step)
    requires IsWorkerStep(t)
  {
    && WorkerOf(s, t.gen)
    && var q := s.flow.queues[t.gen];
    match t
    case WorkerReceive(g) => q.worker.Idle? && q.items != []
    case WorkerClaim(g, ok) => q.worker.Has?
    case WorkerNoProvider(g, e, ok) => q.worker.Took?
    case WorkerCall(g) => q.worker.Took? && q.worker.job in s.flow.requests
    case ProviderReturn(g, r) =>
      q.worker.Waits? && q.worker.result.None? && (r.Spooled? ==> r.spool == s.desk.nextSpool)
    case WorkerSettle(g, ok) => q.worker.Waits? && q.worker.result.Some? && !q.worker.timedOut
    case WorkerTimeout(g, ok) => q.worker.Waits? && !q.worker.timedOut
    case WorkerLate(g) => q.worker.Waits? && q.worker.result.Some? && q.worker.timedOut
    case WorkerExit(g) => q.worker.Idle? && s.shutdown
    case WorkerDrain(g) => q.worker.Stopped? && q.items != []
  }

  predicate DeskEnabled(s: State, t: Step)
    requires IsDeskStep(t)
  {
    var d := s.desk;
    match t
    case MonitorPoll(j, st) =>
      j in d.monitors && d.monitors[j].pc.Sleeping? && (st.Vanished? ==> d.monitors[j].spool !in d.entries)
    case MonitorStop(j) => j in d.monitors && d.monitors[j].pc.Sleeping?
    case MonitorDecide(j) => j in d.monitors && d.monitors[j].pc.Observed?
    case MonitorApply(j, ok) => j in d.monitors && d.monitors[j].pc.Decided?
    case SpoolerRetire(id) => id in d.entries
    case CancelRead(c, j, fromStore) =>
      && s.phase.Serving? && c !in d.cancels
      && var read := JobRead(s.tables, j, fromStore);
         && read.Some? && !IsTerminal(read.value.status)
         && (|| read.value.delivery == RequestAccepted
             || (read.value.delivery == SpoolerAccepted && read.value.spool.Some?))
    case CancelQueued(c, ok) => CancelAt(s, c) && d.cancels[c].stage.Unsent?
    case CancelMark(c) => CancelAt(s, c) && d.cancels[c].stage.InSpooler?
    case CancelDelete(c, deletes) =>
      && CancelAt(s, c) && d.cancels[c].stage.Marking?
      && (deletes ==> d.cancels[c].stage.spool in d.entries)
    case CancelSettle(c, ok) => CancelAt(s, c) && d.cancels[c].stage.Deleted?
    case CancelUnmark(c) => CancelAt(s, c) && d.cancels[c].stage.Settled?
  }

  predicate LifecycleEnabled(s: State, t: Step)
    requires IsLifecycleStep(t)
  {
    match t
    case ShutdownSignal => s.phase.Serving?
    case ShutdownSnapshot => s.phase.Serving? && s.shutdown
    case ShutdownFail(j, ok) => s.phase.Serving? && j in s.doomed
    case Purge(cutoff) => s.phase.Serving?
    case Crash => !s.phase.Down?
    case Boot => s.phase.Down?
    case Reconcile(j, known, ok) => s.phase.Reconciling? && j in s.phase.todo
    case Serve => s.phase.Reconciling? && s.phase.todo == map[]
  }

  ghost predicate Enabled(s: State, t: Step) {
    if IsSubmitStep(t) then SubmitEnabled(s, t)
    else if IsWorkerStep(t) then WorkerEnabled(s, t)
    else if IsDeskStep(t) then DeskEnabled(s, t)
    else LifecycleEnabled(s, t)
  }

  function DoSubmit(cfg: Config, s: State, t: Step): State
    requires IsSubmitStep(t) && SubmitEnabled(s, t)
  {
    match t
    case SubmitInsert(client, key, size, now) => Insert(s, client, key, size, now)
    case SubmitExisting(client, known) => s
    case SubmitActivate(j) =>
      s.(tables := s.tables.(active := s.tables.active[j := s.tables.repo[j]]),
         flow := Put(s.flow.(gate := None), j, AtSubmit(Tracked)))
    case SubmitValidate(j, ok) => Move(MutateIn(s, j, StartValidating, ok), j, AtSubmit(Preparing))
    case SubmitReject(j, e) => Move(s, j, AtSubmit(Failing(e)))
    case SubmitAbort(j) => Move(s, j, Gone)
    case SubmitResolve(j, p, ok) => Move(MutateIn(s, j, RecordPrinter(p), ok), j, AtSubmit(Resolved(p)))
    case BudgetLoad(j) => Move(s, j, AtSubmit(Reserving(s.flow.place[j].pc.printer, s.bytes.used)))
    case BudgetSwap(j, spurious) => Swap(cfg, s, j, spurious)
    case SubmitMark(j, ok) =>
      if j in s.tables.active
      then Move(MutateIn(s, j, MarkQueued, ok), j, AtSubmit(Marked(s.flow.place[j].pc.printer)))
      else Move(ReleaseIn(s, j), j, Gone)
    case SubmitSender(j) => s.(flow := FetchSender(s.flow, j))
    case SubmitSend(j) => TrySend(cfg, s, j)
    case SubmitFail(j, ok) => Move(MutateIn(s, j, Fail(s.flow.place[j].pc.error), ok), j, Gone)
  }

  /** The gated half of `submit` up to `repo.insert`. */
  function Insert(s: State, client: ClientId, key: Option<Key>, size: nat, now: nat): State {
    var j := s.flow.nextId;
    s.(tables := s.tables.(repo := s.tables.repo[j := NewJob(j, client, key, now)]),
       flow := Put(s.flow.(gate := Some(j), nextId := j + 1,
                           requests := s.flow.requests[j := Request(client, key, size)]),
                   j, AtSubmit(Inserted)))
  }

  /** One turn of the compare-and-swap loop of `ByteBudget::try_reserve`. */
  function Swap(cfg: Config, s: State, j: JobId, spurious: bool): State
    requires SubmitEnabled(s, BudgetSwap(j, spurious))
  {
    var pc := s.flow.place[j].pc;
    var size := s.flow.requests[j].size;
    var next := pc.seen + size;
    if next > U64_MAX || next > cfg.budgetLimit then
      Move(s, j, AtSubmit(Failing(QueueFull(pc.printer))))
    else if s.bytes.used == pc.seen && !spurious then
      Move(s, j, AtSubmit(Reserved(pc.printer))).(bytes := Bytes(next, s.bytes.reservations[j := size]))
    else
      Move(s, j, AtSubmit(Reserving(pc.printer, s.bytes.used)))
  }

  /** `PrinterQueues::sender_for`. */
  function FetchSender(f: Flow, j: JobId): Flow
    requires j in f.place && f.place[j].AtSubmit? && f.place[j].pc.Marked?
  {
    var p := f.place[j].pc.printer;
    if p in f.senders && f.senders[p] in f.queues && !f.queues[f.senders[p]].worker.Stopped? then
      Put(f, j, AtSubmit(Sending(p, f.senders[p])))
    else
      Put(f.(queues := f.queues[f.nextGen := Queue(p, [], Idle)],
             senders := f.senders[p := f.nextGen], nextGen := f.nextGen + 1),
          j, AtSubmit(Sending(p, f.nextGen)))
  }

  function Push(f: Flow, g: Gen, j: JobId): Flow
    requires g in f.queues
  {
    var q := f.queues[g];
    Put(f.(queues := f.queues[g := q.(items := q.items + [j])]), j, AtQueue(g, q.printer))
  }

  /** `try_send`, and what `enqueue` makes of its result. */
  function TrySend(cfg: Config, s: State, j: JobId): State
    requires SubmitEnabled(s, SubmitSend(j))
  {
    var g := s.flow.place[j].pc.gen;
    var q := s.flow.queues[g];
    if q.worker.Stopped? then Move(ReleaseIn(s, j), j, AtSubmit(Failing(ShuttingDown())))
    else if |q.items| >= cfg.capacity then Move(ReleaseIn(s, j), j, AtSubmit(Failing(QueueFull(q.printer))))
    else s.(flow := Push(s.flow, g, j),
            trace := s.trace.(sends := s.trace.sends[q.printer := Sent(s.trace.sends, q.printer) + [j]]))
  }

  /** The head of a channel is taken by the worker (`w`) or dropped with the channel. */
  function Pop(f: Flow, g: Gen, w: WorkerPc, to: Place): Flow
    requires g in f.queues && f.queues[g].items != []
  {
    var q := f.queues[g];
    Put(f.(queues := f.queues[g := q.(items := q.items[1..], worker := w)]), q.items[0], to)
  }

  function DoWorker(cfg: Config, s: State, t: Step): State
    requires IsWorkerStep(t) && WorkerEnabled(s, t)
  {
    var g := t.gen;
    var q := s.flow.queues[g];
    match t
    case WorkerReceive(_) => s.(flow := Pop(s.flow, g, Has(q.items[0]), Taken(g, q.printer)))
    case WorkerClaim(_, ok) =>
      var j := q.worker.job;
      if j in s.tables.active
      then Advance(MutateIn(s, j, Claim, ok), g, Took(j), j, Claimed(g, q.printer))
      else Advance(ReleaseIn(s, j), g, Idle, j, Gone)
    case WorkerNoProvider(_, e, ok) =>
      Advance(ReleaseIn(MutateIn(s, q.worker.job, Fail(e), ok), q.worker.job), g, Idle, q.worker.job, Gone)
    case WorkerCall(_) => Call(s, g)
    case ProviderReturn(_, r) => Return(s, g, r)
    case WorkerSettle(_, ok) =>
      var j := q.worker.job;
      var r := q.worker.result.value;
      var s1 := Advance(MutateIn(s, j, ResultChange(r), ok), g, Idle, j, Handed);
      if r.Spooled?
      then s1.(desk := s.desk.(monitors := s.desk.monitors[j := Monitor(r.spool, Sleeping)])) else s1
    case WorkerTimeout(_, ok) =>
      var j := q.worker.job;
      Advance(MutateIn(s, j, Fail(TimedOut()), ok), g, q.worker.(timedOut := true), j, Handed)
    case WorkerLate(_) => s.(flow := SetWorker(s.flow, g, Idle))
    case WorkerExit(_) => s.(flow := SetWorker(s.flow, g, Stopped))
    case WorkerDrain(_) => ReleaseIn(s, q.items[0]).(flow := Pop(s.flow, g, Stopped, Gone))
  }

  /** `provider.submit` is called on the blocking pool. */
  function Call(s: State, g: Gen): State
    requires WorkerEnabled(s, WorkerCall(g))
  {
    var q := s.flow.queues[g];
    var j := q.worker.job;
    var request := s.flow.requests[j];
    s.(flow := Put(SetWorker(s.flow, g, Waits(j, None, false)), j, Calling(g, q.printer)).(
                 running := s.flow.running[j := g]),
       trace := s.trace.(
                 log := s.trace.log + [Submission(j, q.printer, request.client, request.key)],
                 calls := s.trace.calls[q.printer := Sent(s.trace.calls, q.printer) + [j]]))
  }

  /** `provider.submit` returns and drops the reservation; a spooled job is now an entry. */
  function Return(s: State, g: Gen, r: SubmitResult): State
    requires WorkerEnabled(s, ProviderReturn(g, r))
  {
    var w := s.flow.queues[g].worker;
    var s1 := ReleaseIn(s, w.job).(
      flow := SetWorker(s.flow, g, w.(result := Some(r))).(running := s.flow.running - {w.job}));
    if r.Spooled?
    then s1.(desk := s.desk.(entries := s.desk.entries[r.spool := w.job], nextSpool := r.spool + 1))
    else s1
  }

  function DoDesk(cfg: Config, s: State, t: Step): State
    requires IsDeskStep(t) && DeskEnabled(s, t)
  {
    var d := s.desk;
    match t
    case MonitorPoll(j, st) => s.(desk := d.(monitors := d.monitors[j := d.monitors[j].(pc := Observed(st))]))
    case MonitorStop(j) => s.(desk := d.(monitors := d.monitors - {j}))
    case MonitorDecide(j) =>
      var c := ChangeFor(d.monitors[j].pc.state, j in d.cancelling);
      s.(desk := d.(monitors := d.monitors[j := d.monitors[j].(pc := Decided(c))]))
    case MonitorApply(j, ok) =>
      var s1 := MutateIn(s, j, d.monitors[j].pc.change, ok);
      s1.(desk := d.(monitors := if j in s1.tables.active then d.monitors[j := d.monitors[j].(pc := Sleeping)]
                                 else d.monitors - {j}))
    case SpoolerRetire(id) => s.(desk := d.(entries := d.entries - {id}))
    case CancelRead(c, j, fromStore) =>
      var job := JobRead(s.tables, j, fromStore).value;
      var stage := if job.delivery == RequestAccepted then Unsent else InSpooler(job.spool.value);
      s.(desk := d.(cancels := d.cancels[c := CancelCall(j, stage)]))
    case CancelQueued(c, ok) =>
      MutateIn(s, d.cancels[c].job, CancelUnsent, ok).(desk := d.(cancels := d.cancels - {c}))
    case CancelMark(c) =>
      var call := d.cancels[c];
      s.(desk := d.(cancelling := d.cancelling + {call.job},
                    cancels := d.cancels[c := call.(stage := Marking(call.stage.spool))]))
    case CancelDelete(c, deletes) =>
      var call := d.cancels[c];
      if deletes then
        s.(desk := d.(entries := d.entries - {call.stage.spool}, deleted := d.deleted + {call.job},
                      cancels := d.cancels[c := call.(stage := Deleted)]))
      else s.(desk := d.(cancels := d.cancels[c := call.(stage := Settled)]))
    case CancelSettle(c, ok) =>
      var call := d.cancels[c];
      MutateIn(s, call.job, Cancel, ok).(desk := d.(cancels := d.cancels[c := call.(stage := Settled)]))
    case CancelUnmark(c) =>
      s.(desk := d.(cancelling := d.cancelling - {d.cancels[c].job}, cancels := d.cancels - {c}))
  }

  function DoLifecycle(cfg: Config, s: State, t: Step): State
    requires IsLifecycleStep(t) && LifecycleEnabled(s, t)
  {
    match t
    case ShutdownSignal => s.(shutdown := true)
    case ShutdownSnapshot =>
      s.(doomed := s.doomed + (set j | j in s.tables.active && s.tables.active[j].delivery == RequestAccepted))
    case ShutdownFail(j, ok) => MutateIn(s, j, Fail(NotSent()), ok).(doomed := s.doomed - {j})
    case Purge(cutoff) => s.(tables := PurgeRows(s.tables, cutoff))
    case Crash =>
      State(Down, false, {},
            s.tables.(active := map[]),
            s.flow.(place := map j | j in s.flow.place :: AfterCrash(s.flow.place[j]),
                    gate := None, senders := map[], queues := map[], running := map[]),
            Bytes(0, map[]),
            s.trace.(sends := map[], calls := map[]),
            s.desk.(monitors := map[], cancelling := {}, cancels := map[]))
    case Boot =>
      s.(phase := Reconciling(map j | j in s.tables.repo && !IsTerminal(s.tables.repo[j].status) :: s.tables.repo[j]))
    case Reconcile(j, known, ok) =>
      var row := s.phase.todo[j];
      var s1 := s.(phase := Reconciling(s.phase.todo - {j}),
                   tables := s.tables.(active := s.tables.active[j := row]));
      if Resumes(row, known)
      then s1.(desk := s.desk.(monitors := s.desk.monitors[j := Monitor(row.spool.value, Sleeping)]))
      else MutateIn(s1, j, RestartChange(row), ok)
    case Serve => s.(phase := Serving)
  }

  /** `purge_terminal_before`. */
  function PurgeRows(t: Tables, cutoff: nat): Tables {
    var expired := set j | j in t.repo && Expired(t.repo[j], cutoff);
    t.(repo := t.repo - expired, purged := t.purged + expired,
       purgedKeys := t.purgedKeys + KeysOf(t.repo, expired))
  }

  predicate IsSubmitStep(t: Step) {
    t.SubmitInsert? || t.SubmitExisting? || t.SubmitActivate? || t.SubmitValidate? || t.SubmitReject? ||
    t.SubmitAbort? || t.SubmitResolve? || t.BudgetLoad? || t.BudgetSwap? || t.SubmitMark? ||
    t.SubmitSender? || t.SubmitSend? || t.SubmitFail?
  }

  predicate IsWorkerStep(t: Step) {
    t.WorkerReceive? || t.WorkerClaim? || t.WorkerNoProvider? || t.WorkerCall? || t.ProviderReturn? ||
    t.WorkerSettle? || t.WorkerTimeout? || t.WorkerLate? || t.WorkerExit? || t.WorkerDrain?
  }

  predicate IsDeskStep(t: Step) {
    t.MonitorPoll? || t.MonitorStop? || t.MonitorDecide? || t.MonitorApply? || t.SpoolerRetire? ||
    t.CancelRead? || t.CancelQueued? || t.CancelMark? || t.CancelDelete? || t.CancelSettle? || t.CancelUnmark?
  }

  predicate IsLifecycleStep(t: Step) {
    t.ShutdownSignal? || t.ShutdownSnapshot? || t.ShutdownFail? || t.Purge? || t.Crash? || t.Boot? ||
    t.Reconcile? || t.Serve?
  }

  function Do(cfg: Config, s: State, t: Step): State
    requires Enabled(s, t)
  {
    if IsSubmitStep(t) then DoSubmit(cfg, s, t)
    else if IsWorkerStep(t) then DoWorker(cfg, s, t)
    else if IsDeskStep(t) then DoDesk(cfg, s, t)
    else DoLifecycle(cfg, s, t)
  }

  // ------------------------------------------------------------------ runs

  /** `steps` can be taken one after the other from `s`. */
  ghost predicate Runs(cfg: Config, s: State, steps: seq<Step>)
    decreases |steps|
  {
    steps == [] || (Enabled(s, steps[0]) && Runs(cfg, Do(cfg, s, steps[0]), steps[1..]))
  }

  ghost function After(cfg: Config, s: State, steps: seq<Step>): State
    requires Runs(cfg, s, steps)
    decreases |steps|
  {
    if steps == [] then s else After(cfg, Do(cfg, s, steps[0]), steps[1..])
  }
}
