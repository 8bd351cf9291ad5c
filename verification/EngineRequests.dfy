/** A job's request is fixed when the job is created. */
module EngineRequests {
  import opened Jobs
  import opened EngineModel
  import EngineTokens

  predicate SameRequest(f: Flow, f': Flow, k: JobId) {
    (k in f'.requests <==> k in f.requests) && (k in f.requests ==> f'.requests[k] == f.requests[k])
  }

  lemma SubmitRequests(cfg: Config, s: State, t: Step, k: JobId)
    requires Enabled(s, t) && IsSubmitStep(t) && !t.SubmitInsert?
    ensures SameRequest(s.flow, Do(cfg, s, t).flow, k)
  {
    hide MutateIn, ReleaseIn, Swap, TrySend, FetchSender, SameRequest;
    if t.BudgetSwap? {
      SwapRequests(cfg, s, t.job, t.spurious, k);
    } else if t.SubmitSender? {
      SenderRequests(cfg, s, t.job, k);
    } else if t.SubmitSend? {
      SendRequests(cfg, s, t.job, k);
    } else {
      PrepareRequests(cfg, s, t, k);
    }
  }

  lemma PrepareRequests(cfg: Config, s: State, t: Step, k: JobId)
    requires Enabled(s, t) && IsSubmitStep(t) && !t.SubmitInsert? && !t.BudgetSwap? && !t.SubmitSender? && !t.SubmitSend?
    ensures SameRequest(s.flow, Do(cfg, s, t).flow, k)
  {
    hide Mutate, Release;
  }

  lemma SwapRequests(cfg: Config, s: State, j: JobId, spurious: bool, k: JobId)
    requires SubmitEnabled(s, BudgetSwap(j, spurious))
    ensures SameRequest(s.flow, Swap(cfg, s, j, spurious).flow, k)
  {
  }

  lemma SendRequests(cfg: Config, s: State, j: JobId, k: JobId)
    requires SubmitEnabled(s, SubmitSend(j))
    ensures SameRequest(s.flow, TrySend(cfg, s, j).flow, k)
  {
    hide Release;
  }

  lemma SenderRequests(cfg: Config, s: State, j: JobId, k: JobId)
    requires SubmitEnabled(s, SubmitSender(j))
    ensures SameRequest(s.flow, FetchSender(s.flow, j), k)
  {
  }

  lemma WorkerRequests(cfg: Config, s: State, t: Step, k: JobId)
    requires Enabled(s, t) && IsWorkerStep(t)
    ensures SameRequest(s.flow, Do(cfg, s, t).flow, k)
  {
    hide Mutate, Release, ResultChange, Do, Enabled, Call, Return, SameRequest;
    EngineTokens.WorkerDo(cfg, s, t);
    if t.WorkerCall? {
      CallRequests(s, t.gen, k);
    } else if t.ProviderReturn? {
      ReturnRequests(s, t.gen, t.result, k);
    } else {
      WorkerRestRequests(cfg, s, t, k);
    }
  }

  lemma WorkerRestRequests(cfg: Config, s: State, t: Step, k: JobId)
    requires IsWorkerStep(t) && WorkerEnabled(s, t) && !t.WorkerCall? && !t.ProviderReturn?
    ensures SameRequest(s.flow, DoWorker(cfg, s, t).flow, k)
  {
    hide Mutate, Release, ResultChange, Call, Return;
  }

  lemma CallRequests(s: State, g: Gen, k: JobId)
    requires WorkerEnabled(s, WorkerCall(g))
    ensures SameRequest(s.flow, Call(s, g).flow, k)
  {
  }

  lemma ReturnRequests(s: State, g: Gen, r: SubmitResult, k: JobId)
    requires WorkerEnabled(s, ProviderReturn(g, r))
    ensures SameRequest(s.flow, Return(s, g, r).flow, k)
  {
    hide Release;
  }

  lemma RequestsStay(cfg: Config, s: State, t: Step, k: JobId)
    requires Enabled(s, t) && !t.SubmitInsert?
    ensures SameRequest(s.flow, Do(cfg, s, t).flow, k)
  {
    hide Mutate, DoSubmit, DoWorker, SubmitEnabled, WorkerEnabled;
    if IsSubmitStep(t) {
      SubmitRequests(cfg, s, t, k);
    } else if IsWorkerStep(t) {
      WorkerRequests(cfg, s, t, k);
    }
  }
}
