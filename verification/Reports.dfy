/**
 What a record must say after the engine has learnt something about its job, field by field:
 the vocabulary in which the effect of provider answers, spooler reports, timeouts, shutdown
 and restart is stated.
 */
module Reports {
  import opened Wrappers
  import opened Jobs
  import opened EngineModel

  /** The record failed with the code and outcome of `e`, naming the job and a printer. */
  predicate FailedWith(after: Job, e: PrintError) {
    && after.status == Failed && after.error.Some?
    && after.error.value.code == e.code && after.error.value.outcome == e.outcome
    && after.error.value.job == Some(after.id)
    && after.error.value.printer == (if e.printer.Some? then e.printer else after.printer)
  }

  /** The record failed with a code and an outcome of the engine's own. */
  predicate FailedAs(after: Job, code: ErrorCode, outcome: Outcome) {
    && after.status == Failed && after.error.Some?
    && after.error.value.code == code && after.error.value.outcome == outcome
    && after.error.value.job == Some(after.id) && after.error.value.printer == after.printer
  }

  /** Everything but status, delivery, spooler id, condition and evidence is the same. */
  predicate SameJob(before: Job, after: Job) {
    SameIdentity(before, after) && after.printer == before.printer
  }

  /** A record that a monitor watches: accepted by the spooler and not settled. */
  predicate Watched(job: Job) {
    && job.delivery == SpoolerAccepted && (job.status == Queued || job.status == Printing)
    && job.completion.None? && job.error.None?
  }

  /**
   The meaning of a spooler report for the record: which status it leads to, with which
   evidence or error, and what becomes of the condition shown to the user. `marked` is
   whether the job is being cancelled when the monitor looks.
   */
  predicate Reported(report: ProviderState, marked: bool, before: Job, after: Job) {
    && SameJob(before, after) && after.delivery == before.delivery && after.spool == before.spool
    && (after.status == Failed <==> report.FailedIn?)
    && (report.FailedIn? ==> FailedWith(after, report.error))
    && (after.status == Cancelled <==> report.DeletedIn? || (report.Vanished? && marked))
    && (after.completion == Some(SpoolerReportedPrinted) <==> report.Printed?)
    && (after.completion == Some(SpoolerJobRetired) <==> report.Vanished? && !marked)
    && (after.status == Completed <==> after.completion.Some?)
    && (report.NowPrinting? ==> after.status == Printing)
    && (report.Pending? || report.Blocked? ==> after.status == before.status)
    && (report.Blocked? ==> after.condition == Some(report.condition))
    && (!report.Blocked? ==> after.condition.None?)
  }

  /** monitor::apply makes exactly the change that the report stands for. */
  lemma ReportSays(report: ProviderState, marked: bool, job: Job)
    requires Watched(job)
    ensures Reported(report, marked, job, Apply(ChangeFor(report, marked), job))
    ensures IsTerminal(Apply(ChangeFor(report, marked), job).status) <==>
      report.Printed? || report.FailedIn? || report.DeletedIn? || report.Vanished?
  {
  }

  /** What a finished provider call means for the record. */
  predicate Answered(r: SubmitResult, before: Job, after: Job) {
    && SameJob(before, after)
    && (match r
        case Spooled(id) =>
          && after.status == before.status && after.delivery == SpoolerAccepted && after.spool == Some(id)
          && after.condition == before.condition
        case Delivered =>
          after.status == Completed && after.completion == Some(BytesDelivered) && after.delivery == DeviceDelivered
        case Errored(e) => FailedWith(after, e) && after.delivery == before.delivery
        case Panicked => FailedAs(after, CodeInternal, Unknown) && after.delivery == before.delivery)
  }

  lemma AnswerSays(r: SubmitResult, job: Job)
    requires job.status == Queued && job.delivery == Submitting
    ensures Answered(r, job, Apply(ResultChange(r), job))
  {
  }

  /** What a restart makes of an open row that it does not resume, by how far the job had gone. */
  predicate Restarted(before: Job, after: Job) {
    && SameJob(before, after) && after.delivery == before.delivery && after.spool == before.spool
    && (match before.delivery
        case RequestAccepted => FailedAs(after, CodePrintFailed, NotPrinted)
        case Submitting => FailedAs(after, CodePrintFailed, Unknown)
        case SpoolerAccepted => FailedAs(after, CodePrinterNotFound, Unknown)
        case DeviceDelivered => after.status == Completed && after.completion == Some(BytesDelivered))
  }

  lemma RestartSaysFields(row: Job)
    requires !IsTerminal(row.status) && (row.delivery == DeviceDelivered ==> row.status == Queued || row.status == Printing)
    ensures Restarted(row, Apply(RestartChange(row), row))
  {
  }
}
