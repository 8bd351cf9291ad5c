/** The byte budget and the order of submissions under single operations. */
module EngineBudget {
  import opened Wrappers
  import opened Jobs
  import opened EngineModel
  import opened EngineInvariant

  // ------------------------------------------------------------------ sums over reservations

  lemma {:induction false} TotalAdd(m: map<JobId, nat>, j: JobId, v: nat, n: nat)
    requires j !in m
    ensures Total(m[j := v], n) == Total(m, n) + (if j < n then v else 0)
  {
    if n > 0 { TotalAdd(m, j, v, n - 1); }
  }

  lemma {:induction false} TotalRemove(m: map<JobId, nat>, j: JobId, n: nat)
    requires j in m
    ensures Total(m, n) == Total(m - {j}, n) + (if j < n then m[j] else 0)
  {
    if n > 0 { TotalRemove(m, j, n - 1); }
  }

  lemma {:induction false} TotalEmpty(n: nat)
    ensures Total(map[], n) == 0
  {
    if n > 0 { TotalEmpty(n - 1); }
  }

  // ------------------------------------------------------------------ budget

  /** A move that changes nobody's hold on a reservation. */
  lemma MoveKeepsBudget(cfg: Config, place: map<JobId, Place>, running: map<JobId, Gen>, n: nat, b: Bytes,
                        j: JobId, to: Place)
    requires Budget(cfg, place, running, n, b) && j in place
    requires Holds(to, j in running) == Holds(place[j], j in running)
    requires to.AtSubmit? && to.pc.Reserving? ==> 0 <= to.pc.seen
    ensures Budget(cfg, place[j := to], running, n, b)
  {
  }

  /** The compare-and-swap succeeded: the budget grows by exactly the new reservation. */
  lemma ReserveKeepsBudget(cfg: Config, place: map<JobId, Place>, running: map<JobId, Gen>, n: nat, b: Bytes,
                           j: JobId, size: nat, to: Place)
    requires Budget(cfg, place, running, n, b) && j in place && j < n
    requires !Holds(place[j], j in running) && to.AtSubmit? && to.pc.Reserved?
    requires b.used + size <= cfg.budgetLimit
    ensures Budget(cfg, place[j := to], running, n, Bytes(b.used + size, b.reservations[j := size]))
  {
    TotalAdd(b.reservations, j, size, n);
  }

  /** Dropping a reservation returns exactly what it took. */
  lemma ReleaseKeepsBudget(cfg: Config, place: map<JobId, Place>, running: map<JobId, Gen>, n: nat, b: Bytes,
                           j: JobId, to: Place, running': map<JobId, Gen>)
    requires Budget(cfg, place, running, n, b) && j in place && j < n
    requires Holds(place[j], j in running) && !Holds(to, j in running')
    requires forall k :: k != j ==> (k in running <==> k in running')
    requires to.AtSubmit? ==> !to.pc.Reserving?
    ensures j in b.reservations
    ensures Budget(cfg, place[j := to], running', n, Release(b, j))
  {
    TotalRemove(b.reservations, j, n);
  }

  lemma CallKeepsBudget(cfg: Config, place: map<JobId, Place>, running: map<JobId, Gen>, n: nat, b: Bytes,
                        j: JobId, g: Gen, to: Place)
    requires Budget(cfg, place, running, n, b) && j in place && place[j].Claimed? && to.Calling?
    ensures Budget(cfg, place[j := to], running[j := g], n, b)
  {
  }

  lemma InsertKeepsBudget(cfg: Config, place: map<JobId, Place>, running: map<JobId, Gen>, n: nat, b: Bytes)
    requires Budget(cfg, place, running, n, b) && n !in place
    ensures Budget(cfg, place[n := AtSubmit(Inserted)], running, n + 1, b)
  {
  }

  lemma CrashKeepsBudget(cfg: Config, place: map<JobId, Place>, n: nat)
    ensures Budget(cfg, map j | j in place :: AfterCrash(place[j]), map[], n, Bytes(0, map[]))
  {
    TotalEmpty(n);
  }

  // ------------------------------------------------------------------ order

  lemma SubsequenceTake(a: seq<JobId>, b: seq<JobId>, x: JobId)
    requires Subsequence(a, b)
    ensures Subsequence(a + [x], b + [x])
  {
    var at: seq<nat> :| Embeds(at, a, b);
    assert Embeds(at + [|b|], a + [x], b + [x]);
  }

  lemma SubsequenceExtend(a: seq<JobId>, b: seq<JobId>, n: nat)
    requires n <= |b| && Subsequence(a, b[..n])
    ensures Subsequence(a, b)
  {
    var at: seq<nat> :| Embeds(at, a, b[..n]);
    assert Embeds(at, a, b);
  }

  lemma OrderSend(sent: seq<JobId>, called: seq<JobId>, waiting: seq<JobId>, j: JobId)
    requires InOrder(sent, called, waiting)
    ensures InOrder(sent + [j], called, waiting + [j])
  {
    assert (sent + [j])[..|sent| - |waiting|] == sent[..|sent| - |waiting|];
    assert (sent + [j])[|sent| - |waiting|..] == waiting + [j];
  }

  lemma OrderTake(sent: seq<JobId>, called: seq<JobId>, waiting: seq<JobId>, calls: bool)
    requires InOrder(sent, called, waiting) && waiting != []
    ensures InOrder(sent, if calls then called + [waiting[0]] else called, waiting[1..])
  {
    var n := |sent| - |waiting|;
    assert sent[..n + 1][..n] == sent[..n];
    assert sent[n] == waiting[0] && sent[..n + 1] == sent[..n] + [waiting[0]];
    assert sent[n + 1..] == waiting[1..];
    if calls { SubsequenceTake(called, sent[..n], waiting[0]); } else { SubsequenceExtend(called, sent[..n + 1], n); }
  }

  /** The channel closes: everything still waiting counts as dropped. */
  lemma OrderStop(sent: seq<JobId>, called: seq<JobId>, waiting: seq<JobId>)
    requires InOrder(sent, called, waiting)
    ensures InOrder(sent, called, [])
  {
    SubsequenceExtend(called, sent, |sent| - |waiting|);
    assert sent[..|sent|] == sent;
  }

  lemma OrderedCalls(sent: seq<JobId>, called: seq<JobId>, waiting: seq<JobId>)
    requires InOrder(sent, called, waiting)
    ensures Subsequence(called, sent)
  {
    SubsequenceExtend(called, sent, |sent| - |waiting|);
  }

  lemma BacklogPush(q: Queue, j: JobId)
    ensures Backlog(q.(items := q.items + [j])) == Backlog(q) + [j]
  {
  }

  /** The channel that takes the sends of its printer. */
  predicate Current(f: Flow, g: Gen) {
    && g in f.queues && !f.queues[g].worker.Stopped?
    && f.queues[g].printer in f.senders && f.senders[f.queues[g].printer] == g
  }

  lemma PushKeepsPrinterOrder(f: Flow, h: Trace, g: Gen, j: JobId, p': PrinterId)
    requires SendersOk(f) && PrinterOrder(f, h, p') && Current(f, g)
    ensures
      var p := f.queues[g].printer;
      PrinterOrder(Push(f, g, j), h.(sends := h.sends[p := Sent(h.sends, p) + [j]]), p')
  {
    var p := f.queues[g].printer;
    if p' == p {
      OrderSend(Sent(h.sends, p), Sent(h.calls, p), Waiters(f, p), j);
      BacklogPush(f.queues[g], j);
    }
  }

  lemma PushKeepsOrder(f: Flow, h: Trace, g: Gen, j: JobId)
    requires SendersOk(f) && Order(f, h) && Current(f, g)
    ensures
      var p := f.queues[g].printer;
      Order(Push(f, g, j), h.(sends := h.sends[p := Sent(h.sends, p) + [j]]))
  {
    var p := f.queues[g].printer;
    var f', h' := Push(f, g, j), h.(sends := h.sends[p := Sent(h.sends, p) + [j]]);
    forall p' ensures PrinterOrder(f', h', p') {
      PushKeepsPrinterOrder(f, h, g, j, p');
    }
  }

  /** A worker step that changes nothing about what waits. */
  lemma QuietKeepsOrder(f: Flow, h: Trace, f': Flow)
    requires Order(f, h)
    requires forall p :: Waiters(f', p) == Waiters(f, p) || Waiters(f', p) == []
    ensures Order(f', h)
  {
    forall p ensures PrinterOrder(f', h, p) {
      assert PrinterOrder(f, h, p);
      OrderStop(Sent(h.sends, p), Sent(h.calls, p), Waiters(f, p));
    }
  }

  function Called(h: Trace, p: PrinterId, j: JobId, calls: bool): Trace {
    if calls then h.(calls := h.calls[p := Sent(h.calls, p) + [j]]) else h
  }

  lemma AdvanceKeepsPrinterOrder(f: Flow, h: Trace, g: Gen, w: WorkerPc, f': Flow, calls: bool, p': PrinterId)
    requires SendersOk(f) && PrinterOrder(f, h, p') && Current(f, g)
    requires f.queues[g].worker.Has? || f.queues[g].worker.Took?
    requires !w.Has? && !w.Took? && !w.Stopped?
    requires f'.queues == f.queues[g := f.queues[g].(worker := w)] && f'.senders == f.senders
    ensures PrinterOrder(f', Called(h, f.queues[g].printer, f.queues[g].worker.job, calls), p')
  {
    hide InOrder;
    var p := f.queues[g].printer;
    if p' == p {
      OrderTake(Sent(h.sends, p), Sent(h.calls, p), Waiters(f, p), calls);
      assert Backlog(f'.queues[g]) == Backlog(f.queues[g])[1..];
    } else {
      OthersWait(f, f', g, p');
    }
  }

  /** A change to one queue leaves the other printers' waiting jobs alone. */
  lemma OthersWait(f: Flow, f': Flow, g: Gen, p: PrinterId)
    requires SendersOk(f) && g in f.queues && f.queues[g].printer != p
    requires g in f'.queues && f'.queues == f.queues[g := f'.queues[g]] && f'.senders == f.senders
    ensures Waiters(f', p) == Waiters(f, p)
  {
  }

  /** The worker lets go of the oldest waiting job; `calls` says whether it submitted it. */
  lemma AdvanceKeepsOrder(f: Flow, h: Trace, g: Gen, w: WorkerPc, f': Flow, calls: bool)
    requires SendersOk(f) && Order(f, h) && Current(f, g)
    requires f.queues[g].worker.Has? || f.queues[g].worker.Took?
    requires !w.Has? && !w.Took? && !w.Stopped?
    requires f'.queues == f.queues[g := f.queues[g].(worker := w)] && f'.senders == f.senders
    ensures Order(f', Called(h, f.queues[g].printer, f.queues[g].worker.job, calls))
  {
    forall p' ensures PrinterOrder(f', Called(h, f.queues[g].printer, f.queues[g].worker.job, calls), p') {
      AdvanceKeepsPrinterOrder(f, h, g, w, f', calls, p');
    }
  }
}
