/**
 The print job record and its lifecycle rules (print-core/src/model/job.rs).

 A job is a value that the engine clones, compares and stores in its tables, so it is a
 datatype here; the closures that the engine passes to `mutate` are the constructors of
 `Change`, and `Apply` is the effect of each of them on a record.
 */
module Jobs {
  import opened Wrappers

  type JobId = nat
  type SpoolId = nat
  datatype PrinterId = PrinterId(name: string)
  datatype ClientId = ClientId(name: string)
  datatype Key = Key(text: string)

  /** Codes the engine itself produces; `Other` stands for every code of a provider or renderer. */
  datatype ErrorCode =
    | CodeQueueFull | CodeUnsupportedOperation | CodePrintFailed | CodeTimeout
    | CodeInternal | CodePrinterNotFound | Other(name: string)

  datatype JobStatus = Received | Validating | Queued | Printing | Completed | Failed | Cancelled

  datatype DeliveryStage = RequestAccepted | Submitting | SpoolerAccepted | DeviceDelivered

  datatype CompletionEvidence = SpoolerReportedPrinted | SpoolerJobRetired | BytesDelivered

  /** `error.details.outcome`: what a failed job says about whether anything was printed. */
  datatype Outcome = NotPrinted | Unknown | Unstated

  datatype PrintError = PrintError(code: ErrorCode, outcome: Outcome,
                                   job: Option<JobId>, printer: Option<PrinterId>)

  datatype Job = Job(
    id: JobId,
    client: ClientId,
    key: Option<Key>,
    createdAt: nat,
    printer: Option<PrinterId>,
    status: JobStatus,
    delivery: DeliveryStage,
    spool: Option<SpoolId>,
    condition: Option<ErrorCode>,
    completion: Option<CompletionEvidence>,
    error: Option<PrintError>)

  predicate IsTerminal(s: JobStatus) {
    s == Completed || s == Failed || s == Cancelled
  }

  predicate CanTransition(a: JobStatus, b: JobStatus) {
    if IsTerminal(a) then false
    else if b == Failed || b == Cancelled then true
    else
      || (a == Received && b == Validating)
      || (a == Validating && b == Queued)
      || (a == Queued && (b == Printing || b == Completed))
      || (a == Printing && b == Completed)
      || a == b
  }

  function NewJob(id: JobId, client: ClientId, key: Option<Key>, now: nat): Job {
    Job(id, client, key, now, None, Received, RequestAccepted, None, None, None, None)
  }

  /** `Job::transition`: an illegal move changes nothing. */
  function Transition(j: Job, next: JobStatus): Job {
    if !CanTransition(j.status, next) then j
    else if IsTerminal(next) then j.(status := next, condition := None)
    else j.(status := next)
  }

  /** `Job::fail`: the error is annotated with the job and, unless it names one, its printer. */
  function FailJob(j: Job, e: PrintError): Job {
    if !CanTransition(j.status, Failed) then j
    else
      var printer := if e.printer.None? then j.printer else e.printer;
      Transition(j, Failed).(error := Some(e.(job := Some(j.id), printer := printer)))
  }

  /** `Job::complete`. */
  function CompleteJob(j: Job, evidence: CompletionEvidence): Job {
    if !CanTransition(j.status, Completed) then j
    else Transition(j, Completed).(completion := Some(evidence))
  }

  /** Every closure the engine hands to `Inner::mutate`. */
  datatype Change =
    | StartValidating                    // prepare
    | RecordPrinter(printer: PrinterId)  // prepare
    | MarkQueued                         // enqueue
    | Claim                              // worker::process
    | MarkDelivered                      // worker::submitted
    | MarkSpooled(spool: SpoolId)        // worker::submitted
    | Fail(error: PrintError)            // every failure path
    | CancelUnsent                       // cancel, REQUEST_ACCEPTED branch
    | Cancel                             // cancel, SPOOLER_ACCEPTED branch; monitor::apply
    | SeePending                         // monitor::apply
    | SeePrinting                        // monitor::apply
    | SeeBlocked(condition: ErrorCode)   // monitor::apply
    | SeePrinted                         // monitor::apply
    | Retire                             // monitor::apply, Gone
    | ConfirmDelivered                   // reconcile_after_restart

  function Apply(c: Change, j: Job): Job {
    match c
    case StartValidating => Transition(j, Validating)
    case RecordPrinter(p) => j.(printer := Some(p))
    case MarkQueued => Transition(j, Queued)
    case Claim => j.(delivery := Submitting)
    case MarkDelivered => CompleteJob(j.(delivery := DeviceDelivered), BytesDelivered)
    case MarkSpooled(id) => j.(delivery := SpoolerAccepted, spool := Some(id))
    case Fail(e) => FailJob(j, e)
    case CancelUnsent => if j.delivery == RequestAccepted then Transition(j, Cancelled) else j
    case Cancel => Transition(j, Cancelled)
    case SeePending => j.(condition := None)
    case SeePrinting =>
      var cleared := j.(condition := None);
      if j.status == Queued then Transition(cleared, Printing) else cleared
    case SeeBlocked(condition) => j.(condition := Some(condition))
    case SeePrinted => CompleteJob(j, SpoolerReportedPrinted)
    case Retire => CompleteJob(j, SpoolerJobRetired)
    case ConfirmDelivered => CompleteJob(j, BytesDelivered)
  }

  /** How far the document has travelled; the two final stages are incomparable ends. */
  function Rank(d: DeliveryStage): nat {
    match d
    case RequestAccepted => 0
    case Submitting => 1
    case SpoolerAccepted => 2
    case DeviceDelivered => 2
  }

  /** A delivery stage stays or moves on; no stage turns into another one of its rank. */
  predicate Moves(d: DeliveryStage, d': DeliveryStage) {
    d == d' || Rank(d) < Rank(d')
  }

  /**
   What every stored or active record satisfies: each terminal status carries exactly its own
   evidence, and each stage of the lifecycle implies the delivery facts it depends on.
   */
  predicate Consistent(j: Job) {
    && (j.status == Failed <==> j.error.Some?)
    && (j.status == Completed <==> j.completion.Some?)
    && (j.completion == Some(BytesDelivered) <==> j.delivery == DeviceDelivered)
    && (j.completion.Some? && j.completion != Some(BytesDelivered) ==> j.delivery == SpoolerAccepted)
    && (j.status == Printing ==> j.delivery == SpoolerAccepted)
    && (j.status == Received || j.status == Validating ==> j.delivery == RequestAccepted)
    && (j.delivery == SpoolerAccepted <==> j.spool.Some?)
    && (j.delivery != RequestAccepted ==> j.printer.Some?)
    && (j.status == Queued || j.status == Printing || j.status == Completed ==> j.printer.Some?)
    && (j.error.Some? ==> j.error.value.job == Some(j.id))
    && (j.condition.Some? ==> !IsTerminal(j.status) && j.delivery == SpoolerAccepted)
  }

  /** The situation each change is applied in; the engine invariant establishes it. */
  predicate Applicable(c: Change, j: Job) {
    match c
    case StartValidating => j.status == Received
    case RecordPrinter(_) => j.status == Validating
    case MarkQueued => j.status == Validating && j.printer.Some?
    case Claim => j.status == Queued && j.delivery == RequestAccepted
    case MarkDelivered => j.status == Queued && j.delivery == Submitting
    case MarkSpooled(_) => j.status == Queued && j.delivery == Submitting
    case Fail(_) => true
    case CancelUnsent => true
    case Cancel => true
    case SeePending => true
    case SeePrinting => j.delivery == SpoolerAccepted
    case SeeBlocked(_) => j.delivery == SpoolerAccepted
    case SeePrinted => j.delivery == SpoolerAccepted
    case Retire => j.delivery == SpoolerAccepted
    case ConfirmDelivered => j.delivery == DeviceDelivered
  }

  /** One change keeps the record consistent, its identity fixed and delivery moving forward. */
  lemma ApplyKeepsConsistent(c: Change, j: Job)
    requires Consistent(j) && !IsTerminal(j.status) && Applicable(c, j)
    ensures Consistent(Apply(c, j))
    ensures Moves(j.delivery, Apply(c, j).delivery)
    ensures SameIdentity(j, Apply(c, j))
  {
  }

  predicate SameIdentity(a: Job, b: Job) {
    a.id == b.id && a.client == b.client && a.key == b.key && a.createdAt == b.createdAt
  }
}
