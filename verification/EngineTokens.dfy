/** Each operation on the flow of submissions keeps `Tokens`. */
module EngineTokens {
  import opened Wrappers
  import opened Jobs
  import opened EngineModel
  import opened EngineInvariant

  /** Whatever a worker is holding is `j`. */
  predicate HoldsOnly(w: WorkerPc, j: JobId) {
    w.Idle? || w.Stopped? || w.job == j
  }

  /** Where a job can be when queue `g` is the only one involved with it. */
  predicate Near(p: Place, g: Gen) {
    || (p.AtSubmit? && !p.pc.Inserted?)
    || p.Handed? || p.Gone?
    || ((p.AtQueue? || p.Taken? || p.Claimed? || p.Calling?) && p.gen == g)
  }

  /** Which family a step belongs to decides what it does. */
  lemma SubmitDo(cfg: Config, s: State, t: Step)
    requires IsSubmitStep(t) && Enabled(s, t)
    ensures SubmitEnabled(s, t) && Do(cfg, s, t) == DoSubmit(cfg, s, t)
  {
    hide SubmitEnabled, DoSubmit, WorkerEnabled, DoWorker, DeskEnabled, DoDesk, LifecycleEnabled, DoLifecycle;
  }

  lemma WorkerDo(cfg: Config, s: State, t: Step)
    requires IsWorkerStep(t) && Enabled(s, t)
    ensures WorkerEnabled(s, t) && Do(cfg, s, t) == DoWorker(cfg, s, t)
  {
    hide SubmitEnabled, DoSubmit, WorkerEnabled, DoWorker, DeskEnabled, DoDesk, LifecycleEnabled, DoLifecycle;
  }

  /** Between `f` and `f'` only job `j` moved and only queue `g` changed. */
  ghost predicate OnlyMoved(f: Flow, f': Flow, j: JobId, g: Gen) {
    && f'.nextId == f.nextId && f'.requests == f.requests && f'.gate == f.gate
    && f'.senders == f.senders && f'.nextGen == f.nextGen
    && j in f.place && f'.place == f.place[j := if j in f'.place then f'.place[j] else Gone]
    && g in f.queues && g in f'.queues && f'.queues == f.queues[g := f'.queues[g]]
    && f'.queues[g].printer == f.queues[g].printer
    && (forall k :: k != j && k in f'.running ==> k in f.running && f'.running[k] == f.running[k])
    && (forall k :: k != j && k in f.running ==> k in f'.running)
  }

  ghost predicate LegalMove(cfg: Config, f: Flow, f': Flow, j: JobId, g: Gen) {
    && OnlyMoved(f, f', j, g)
    && (HoldsOnly(f.queues[g].worker, j) || f'.queues[g].worker == f.queues[g].worker)
    && Near(f.place[j], g)
    && (f.place[j].Handed? ==> f'.place[j].Handed? && j in f.running && f.running[j] == g)
    && (forall k :: k in f.queues[g].items && k != j ==> k in f'.queues[g].items)
    && PlaceOk(f', j, f'.place[j])
    && QueueOk(cfg, f', g, f'.queues[g])
    && (j in f'.running ==> RunningOk(f', j, f'.running[j]))
  }

  lemma MoveKeepsPlaces(cfg: Config, f: Flow, f': Flow, j: JobId, g: Gen)
    requires Tokens(cfg, f) && LegalMove(cfg, f, f', j, g)
    ensures forall k :: k in f'.place ==> PlaceOk(f', k, f'.place[k])
  {
    forall k | k in f'.place ensures PlaceOk(f', k, f'.place[k]) {
      assert PlaceOk(f, k, f.place[k]);
    }
  }

  lemma MoveKeepsQueues(cfg: Config, f: Flow, f': Flow, j: JobId, g: Gen, h: Gen)
    requires Tokens(cfg, f) && LegalMove(cfg, f, f', j, g) && h in f'.queues
    ensures QueueOk(cfg, f', h, f'.queues[h])
  {
    if h != g {
      var q := f.queues[h];
      assert QueueOk(cfg, f, h, q) && f'.queues[h] == q;
      assert ItemsOk(f'.place, AtQueue(h, q.printer), q.items);
      assert WorkerOk(f', h, q.printer, q.worker);
    }
  }

  lemma MoveKeepsTokens(cfg: Config, f: Flow, f': Flow, j: JobId, g: Gen)
    requires Tokens(cfg, f) && LegalMove(cfg, f, f', j, g)
    ensures Tokens(cfg, f')
  {
    MoveKeepsPlaces(cfg, f, f', j, g);
    forall h | h in f'.queues ensures QueueOk(cfg, f', h, f'.queues[h]) {
      MoveKeepsQueues(cfg, f, f', j, g, h);
    }
    forall k | k in f'.running ensures RunningOk(f', k, f'.running[k]) {
      assert k != j ==> RunningOk(f, k, f.running[k]);
    }
  }

  lemma InsertKeepsTokens(cfg: Config, f: Flow, r: Request)
    requires Tokens(cfg, f) && f.gate.None?
    ensures Tokens(cfg, Put(f.(gate := Some(f.nextId), nextId := f.nextId + 1,
                               requests := f.requests[f.nextId := r]), f.nextId, AtSubmit(Inserted)))
  {
    var f' := Put(f.(gate := Some(f.nextId), nextId := f.nextId + 1,
                     requests := f.requests[f.nextId := r]), f.nextId, AtSubmit(Inserted));
    forall k | k in f'.place ensures PlaceOk(f', k, f'.place[k]) {
      assert k != f.nextId ==> PlaceOk(f, k, f.place[k]);
    }
    forall h | h in f'.queues ensures QueueOk(cfg, f', h, f'.queues[h]) {
      assert QueueOk(cfg, f, h, f.queues[h]);
    }
  }

  predicate StaysInSubmit(f: Flow, to: Place) {
    || to.Gone?
    || (to.AtSubmit? && !to.pc.Inserted?
        && (to.pc.Sending? ==> to.pc.gen in f.queues && f.queues[to.pc.gen].printer == to.pc.printer))
  }

  lemma SubmitMoveKeepsTokens(cfg: Config, f: Flow, j: JobId, to: Place)
    requires Tokens(cfg, f) && j in f.place && f.place[j].AtSubmit? && !f.place[j].pc.Inserted?
    requires StaysInSubmit(f, to)
    ensures Tokens(cfg, Put(f, j, to))
  {
    hide PlaceOk, QueueOk, StaysInSubmit;
    var f' := Put(f, j, to);
    forall k | k in f'.place ensures PlaceOk(f', k, f'.place[k]) {
      SubmitMoveKeepsPlace(f, j, to, k);
    }
    forall h | h in f'.queues ensures QueueOk(cfg, f', h, f'.queues[h]) {
      SubmitMoveKeepsQueue(cfg, f, j, to, h);
    }
  }

  lemma SubmitMoveKeepsPlace(f: Flow, j: JobId, to: Place, k: JobId)
    requires j in f.place && k in f.place && PlaceOk(f, k, f.place[k]) && StaysInSubmit(f, to)
    ensures PlaceOk(Put(f, j, to), k, Put(f, j, to).place[k])
  {
  }

  lemma SubmitMoveKeepsQueue(cfg: Config, f: Flow, j: JobId, to: Place, h: Gen)
    requires j in f.place && f.place[j].AtSubmit? && h in f.queues && QueueOk(cfg, f, h, f.queues[h])
    ensures QueueOk(cfg, Put(f, j, to), h, f.queues[h])
  {
  }

  lemma ActivateKeepsTokens(cfg: Config, f: Flow, j: JobId)
    requires Tokens(cfg, f) && j in f.place && f.place[j] == AtSubmit(Inserted)
    ensures Tokens(cfg, Put(f.(gate := None), j, AtSubmit(Tracked)))
  {
    var f' := Put(f.(gate := None), j, AtSubmit(Tracked));
    assert PlaceOk(f, j, f.place[j]);
    forall k | k in f'.place ensures PlaceOk(f', k, f'.place[k]) {
      assert PlaceOk(f, k, f.place[k]);
    }
    forall h | h in f'.queues ensures QueueOk(cfg, f', h, f'.queues[h]) {
      assert QueueOk(cfg, f, h, f.queues[h]);
    }
  }

  lemma OpenQueueKeepsTokens(cfg: Config, f: Flow, p: PrinterId)
    requires ValidConfig(cfg) && Tokens(cfg, f)
    requires p in f.senders ==> f.queues[f.senders[p]].worker.Stopped?
    ensures Tokens(cfg, f.(queues := f.queues[f.nextGen := Queue(p, [], Idle)],
                           senders := f.senders[p := f.nextGen], nextGen := f.nextGen + 1))
  {
    var f' := f.(queues := f.queues[f.nextGen := Queue(p, [], Idle)],
                 senders := f.senders[p := f.nextGen], nextGen := f.nextGen + 1);
    assert f.nextGen !in f.queues;
    forall k | k in f'.place ensures PlaceOk(f', k, f'.place[k]) {
      assert PlaceOk(f, k, f.place[k]);
    }
    forall h | h in f'.queues ensures QueueOk(cfg, f', h, f'.queues[h]) {
      assert h != f.nextGen ==> QueueOk(cfg, f, h, f.queues[h]);
    }
    forall k | k in f'.running ensures RunningOk(f', k, f'.running[k]) {
      assert RunningOk(f, k, f.running[k]);
    }
  }

  lemma FetchSenderKeepsTokens(cfg: Config, f: Flow, j: JobId)
    requires ValidConfig(cfg) && Tokens(cfg, f)
    requires j in f.place && f.place[j].AtSubmit? && f.place[j].pc.Marked?
    ensures Tokens(cfg, FetchSender(f, j))
  {
    hide PlaceOk, QueueOk, RunningOk;
    var p := f.place[j].pc.printer;
    if p in f.senders && !f.queues[f.senders[p]].worker.Stopped? {
      SubmitMoveKeepsTokens(cfg, f, j, AtSubmit(Sending(p, f.senders[p])));
    } else {
      OpenQueueKeepsTokens(cfg, f, p);
      var f' := f.(queues := f.queues[f.nextGen := Queue(p, [], Idle)],
                   senders := f.senders[p := f.nextGen], nextGen := f.nextGen + 1);
      SubmitMoveKeepsTokens(cfg, f', j, AtSubmit(Sending(p, f.nextGen)));
    }
  }

  lemma PushKeepsTokens(cfg: Config, f: Flow, g: Gen, j: JobId)
    requires Tokens(cfg, f) && j in f.place && f.place[j].AtSubmit? && !f.place[j].pc.Inserted?
    requires g in f.queues && !f.queues[g].worker.Stopped? && |f.queues[g].items| < cfg.capacity
    ensures Tokens(cfg, Push(f, g, j))
  {
    assert QueueOk(cfg, f, g, f.queues[g]);
    MoveKeepsTokens(cfg, f, Push(f, g, j), j, g);
  }

  lemma PopKeepsTokens(cfg: Config, f: Flow, g: Gen, stop: bool)
    requires Tokens(cfg, f) && g in f.queues && f.queues[g].items != []
    requires f.queues[g].worker == (if stop then Stopped else Idle)
    ensures
      var q := f.queues[g];
      Tokens(cfg, if stop then Pop(f, g, Stopped, Gone) else Pop(f, g, Has(q.items[0]), Taken(g, q.printer)))
  {
    hide Tokens;
    if stop { DropHeadKeepsTokens(cfg, f, g); } else { TakeHeadKeepsTokens(cfg, f, g); }
  }

  lemma RestOfItems(items: seq<JobId>)
    requires items != []
    ensures forall k :: k in items && k != items[0] ==> k in items[1..]
  {
  }

  lemma TakeHeadKeepsTokens(cfg: Config, f: Flow, g: Gen)
    requires Tokens(cfg, f) && g in f.queues && f.queues[g].items != [] && f.queues[g].worker.Idle?
    ensures Tokens(cfg, Pop(f, g, Has(f.queues[g].items[0]), Taken(g, f.queues[g].printer)))
  {
    var q := f.queues[g];
    assert QueueOk(cfg, f, g, q);
    RestOfItems(q.items);
    MoveKeepsTokens(cfg, f, Pop(f, g, Has(q.items[0]), Taken(g, q.printer)), q.items[0], g);
  }

  lemma DropHeadKeepsTokens(cfg: Config, f: Flow, g: Gen)
    requires Tokens(cfg, f) && g in f.queues && f.queues[g].items != [] && f.queues[g].worker.Stopped?
    ensures Tokens(cfg, Pop(f, g, Stopped, Gone))
  {
    var q := f.queues[g];
    assert QueueOk(cfg, f, g, q);
    RestOfItems(q.items);
    MoveKeepsTokens(cfg, f, Pop(f, g, Stopped, Gone), q.items[0], g);
  }

  lemma ClaimKeepsTokens(cfg: Config, f: Flow, g: Gen, j: JobId)
    requires Tokens(cfg, f) && g in f.queues && f.queues[g].worker == Has(j)
    ensures Tokens(cfg, Put(SetWorker(f, g, Took(j)), j, Claimed(g, f.queues[g].printer)))
  {
    assert QueueOk(cfg, f, g, f.queues[g]);
    MoveKeepsTokens(cfg, f, Put(SetWorker(f, g, Took(j)), j, Claimed(g, f.queues[g].printer)), j, g);
  }

  lemma DropKeepsTokens(cfg: Config, f: Flow, g: Gen, j: JobId)
    requires Tokens(cfg, f) && g in f.queues && (f.queues[g].worker == Has(j) || f.queues[g].worker == Took(j))
    ensures Tokens(cfg, Put(SetWorker(f, g, Idle), j, Gone))
  {
    assert QueueOk(cfg, f, g, f.queues[g]);
    MoveKeepsTokens(cfg, f, Put(SetWorker(f, g, Idle), j, Gone), j, g);
  }

  /** The worker stops waiting for a call: it has the result, or the watchdog fired. */
  lemma FinishKeepsTokens(cfg: Config, f: Flow, g: Gen, j: JobId, w: WorkerPc)
    requires Tokens(cfg, f) && g in f.queues
    requires f.queues[g].worker.Waits? && f.queues[g].worker.job == j && !f.queues[g].worker.timedOut
    requires (w == Idle && f.queues[g].worker.result.Some?) || w == f.queues[g].worker.(timedOut := true)
    ensures Tokens(cfg, Put(SetWorker(f, g, w), j, Handed))
  {
    assert QueueOk(cfg, f, g, f.queues[g]);
    MoveKeepsTokens(cfg, f, Put(SetWorker(f, g, w), j, Handed), j, g);
  }

  lemma CallKeepsTokens(cfg: Config, f: Flow, g: Gen, j: JobId)
    requires Tokens(cfg, f) && g in f.queues && f.queues[g].worker == Took(j)
    ensures Tokens(cfg, Put(SetWorker(f, g, Waits(j, None, false)), j, Calling(g, f.queues[g].printer)).(
                          running := f.running[j := g]))
  {
    assert QueueOk(cfg, f, g, f.queues[g]);
    var f' := Put(SetWorker(f, g, Waits(j, None, false)), j, Calling(g, f.queues[g].printer)).(
      running := f.running[j := g]);
    MoveKeepsTokens(cfg, f, f', j, g);
  }

  lemma ReturnKeepsTokens(cfg: Config, f: Flow, g: Gen, r: SubmitResult)
    requires Tokens(cfg, f) && g in f.queues && f.queues[g].worker.Waits? && f.queues[g].worker.result.None?
    ensures
      var w := f.queues[g].worker;
      Tokens(cfg, SetWorker(f, g, w.(result := Some(r))).(running := f.running - {w.job}))
  {
    var w := f.queues[g].worker;
    assert QueueOk(cfg, f, g, f.queues[g]);
    MoveKeepsTokens(cfg, f, SetWorker(f, g, w.(result := Some(r))).(running := f.running - {w.job}), w.job, g);
  }

  /** A worker with nothing in hand comes to rest. */
  lemma RestKeepsTokens(cfg: Config, f: Flow, g: Gen, w: WorkerPc)
    requires Tokens(cfg, f) && g in f.queues
    requires
      var was := f.queues[g].worker;
      || (was.Waits? && was.timedOut && was.result.Some? && w == Idle)
      || (was.Idle? && w == Stopped)
    ensures Tokens(cfg, SetWorker(f, g, w))
  {
    var f' := SetWorker(f, g, w);
    forall k | k in f'.place ensures PlaceOk(f', k, f'.place[k]) {
      assert PlaceOk(f, k, f.place[k]) && QueueOk(cfg, f, g, f.queues[g]);
    }
    forall h | h in f'.queues ensures QueueOk(cfg, f', h, f'.queues[h]) {
      assert QueueOk(cfg, f, h, f.queues[h]);
    }
    forall k | k in f'.running ensures RunningOk(f', k, f'.running[k]) {
      assert RunningOk(f, k, f.running[k]);
    }
  }

  lemma CrashKeepsTokens(cfg: Config, f: Flow)
    requires Tokens(cfg, f)
    ensures Tokens(cfg, f.(place := map j | j in f.place :: AfterCrash(f.place[j]),
                           gate := None, senders := map[], queues := map[], running := map[]))
  {
  }
}
