/** A small engine with one job, and the states it passes through on its way to the spooler. */
module EngineScenes {
  import opened Wrappers
  import opened Jobs
  import opened EngineModel
  import opened EngineInvariant
  import opened EngineSafety
  import opened EngineOutcomes

  const TINY := Config(1, 1)

  function Client(): ClientId { ClientId("shop") }
  function OrderKey(): Key { Key("order-17") }
  function Printer(): PrinterId { PrinterId("mock-1") }

  function Record(status: JobStatus, delivery: DeliveryStage, spool: Option<SpoolId>): Job {
    NewJob(0, Client(), Some(OrderKey()), 0).(printer := Some(Printer()), status := status, delivery := delivery, spool := spool)
  }

  function Req(): Request { Request(Client(), Some(OrderKey()), 1) }

  /** A serving engine that knows only job 0; `row` is its stored and, if `live`, active record. */
  function Solo(row: Job, live: bool, f: Flow, b: Bytes, h: Trace, d: Desk): State {
    State(Serving, false, {}, Tables(map[0 := row], if live then map[0 := row] else map[], {}, {}, {}), f, b, h, d)
  }

  const NO_DESK := Desk(map[], {}, map[], map[], 0, {})
  const NO_TRACE := Trace([], map[], map[])
  const FREE := Bytes(0, map[])
  const HELD := Bytes(1, map[0 := 1])

  function Alone(p: Place, gate: Option<JobId>): Flow {
    Flow(map[0 := p], map[0 := Req()], gate, map[], map[], map[], 1, 0)
  }

  function WithQueue(p: Place, items: seq<JobId>, w: WorkerPc, running: map<JobId, Gen>): Flow {
    Flow(map[0 := p], map[0 := Req()], None, map[Printer() := 0], map[0 := Queue(Printer(), items, w)], running, 1, 1)
  }

  function SentTrace(): Trace { Trace([], map[Printer() := [0]], map[]) }

  function CalledTrace(): Trace {
    Trace([Submission(0, Printer(), Client(), Some(OrderKey()))], map[Printer() := [0]], map[Printer() := [0]])
  }

  function New(): Job { NewJob(0, Client(), Some(OrderKey()), 0) }

  /** The row of job 0 has just been stored. */
  function InsertedState(): State {
    Solo(New(), false, Alone(AtSubmit(Inserted), Some(0)), FREE, NO_TRACE, NO_DESK)
  }

  predicate NoInsert(steps: seq<Step>) {
    forall i :: 0 <= i < |steps| ==> !steps[i].SubmitInsert?
  }

  /** Some run from there, without another submission, leads to `s`. */
  ghost predicate Later(s: State) {
    exists steps :: NoInsert(steps) && Runs(TINY, InsertedState(), steps) && After(TINY, InsertedState(), steps) == s
  }

  lemma Go(s: State, t: Step, s': State)
    requires Later(s) && Enabled(s, t) && Do(TINY, s, t) == s' && !t.SubmitInsert?
    ensures Later(s')
  {
    hide Do, Enabled, Runs, After;
    var steps :| NoInsert(steps) && Runs(TINY, InsertedState(), steps) && After(TINY, InsertedState(), steps) == s;
    RunsExtend(TINY, InsertedState(), steps, t);
    assert NoInsert(steps + [t]);
  }

  lemma ReachesInserted()
    ensures Reachable(TINY, InsertedState())
  {
    hide Reachable;
    InitReachable(TINY);
    var s0 := Init();
    var s1 := s0.(phase := Reconciling(map[]));
    assert Do(TINY, s0, Boot).phase.todo == map[];
    ReachableStep(TINY, s0, Boot);
    ReachableStep(TINY, s1, Serve);
    Inserts(s0.(phase := Serving));
    ReachableStep(TINY, s0.(phase := Serving), SubmitInsert(Client(), Some(OrderKey()), 1, 0));
  }

  lemma Inserts(s: State)
    requires s == Init().(phase := Serving)
    ensures Enabled(s, SubmitInsert(Client(), Some(OrderKey()), 1, 0))
    ensures Do(TINY, s, SubmitInsert(Client(), Some(OrderKey()), 1, 0)) == InsertedState()
  {
    assert s.tables.repo == map[] && s.flow.nextId == 0;
  }

  lemma {:induction false} RunStaysReachable(s: State, steps: seq<Step>)
    requires Reachable(TINY, s) && Runs(TINY, s, steps)
    ensures Reachable(TINY, After(TINY, s, steps))
    decreases |steps|
  {
    hide Do, Enabled, Reachable;
    if steps != [] {
      ReachableStep(TINY, s, steps[0]);
      RunStaysReachable(Do(TINY, s, steps[0]), steps[1..]);
    }
  }

  lemma LaterIsReachable(s: State)
    requires Later(s)
    ensures Reachable(TINY, s)
  {
    hide Reachable, Runs, After;
    ReachesInserted();
    var steps :| NoInsert(steps) && Runs(TINY, InsertedState(), steps) && After(TINY, InsertedState(), steps) == s;
    RunStaysReachable(InsertedState(), steps);
  }

  lemma Arrives()
    ensures Later(Solo(New(), true, Alone(AtSubmit(Tracked), None), FREE, NO_TRACE, NO_DESK))
  {
    hide Later;
    InsertedIsLater();
    Activates(InsertedState());
  }

  lemma InsertedIsLater()
    ensures Later(InsertedState())
  {
    assert NoInsert([]) && Runs(TINY, InsertedState(), []) && After(TINY, InsertedState(), []) == InsertedState();
  }

  lemma Activates(s: State)
    requires s == Solo(New(), false, Alone(AtSubmit(Inserted), Some(0)), FREE, NO_TRACE, NO_DESK) && Later(s)
    ensures Later(Solo(New(), true, Alone(AtSubmit(Tracked), None), FREE, NO_TRACE, NO_DESK))
  {
    hide Later;
    assert s.flow.place[0 := AtSubmit(Tracked)] == map[0 := AtSubmit(Tracked)];
    Go(s, SubmitActivate(0), Solo(New(), true, Alone(AtSubmit(Tracked), None), FREE, NO_TRACE, NO_DESK));
  }

  lemma Prepares()
    ensures Later(Solo(Record(Validating, RequestAccepted, None), true,
                                 Alone(AtSubmit(Resolved(Printer())), None), FREE, NO_TRACE, NO_DESK))
  {
    hide Later;
    Arrives();
    var s := Solo(New(), true, Alone(AtSubmit(Tracked), None), FREE, NO_TRACE, NO_DESK);
    var row := New().(status := Validating);
    var s1 := Solo(row, true, Alone(AtSubmit(Preparing), None), FREE, NO_TRACE, NO_DESK);
    assert s.flow.place[0 := AtSubmit(Preparing)] == s1.flow.place;
    assert s.tables.repo[0 := row] == s1.tables.repo && s.tables.active[0 := row] == s1.tables.active;
    Go(s, SubmitValidate(0, true), s1);
    var row2 := Record(Validating, RequestAccepted, None);
    var s2 := Solo(row2, true, Alone(AtSubmit(Resolved(Printer())), None), FREE, NO_TRACE, NO_DESK);
    assert s1.flow.place[0 := AtSubmit(Resolved(Printer()))] == s2.flow.place;
    assert s1.tables.repo[0 := row2] == s2.tables.repo && s1.tables.active[0 := row2] == s2.tables.active;
    Go(s1, SubmitResolve(0, Printer(), true), s2);
  }

  function Validated(): Job { Record(Validating, RequestAccepted, None) }
  function InQueue(): Job { Record(Queued, RequestAccepted, None) }
  function InFlight(): Job { Record(Queued, Submitting, None) }
  function InSpool(): Job { Record(Queued, SpoolerAccepted, Some(0)) }

  lemma Reserves()
    ensures Later(Solo(Validated(), true, Alone(AtSubmit(Reserved(Printer())), None), HELD, NO_TRACE, NO_DESK))
  {
    hide Later;
    Prepares();
    var s := Solo(Validated(), true, Alone(AtSubmit(Resolved(Printer())), None), FREE, NO_TRACE, NO_DESK);
    var s1 := Solo(Validated(), true, Alone(AtSubmit(Reserving(Printer(), 0)), None), FREE, NO_TRACE, NO_DESK);
    assert s.flow.place[0 := AtSubmit(Reserving(Printer(), 0))] == s1.flow.place;
    Go(s, BudgetLoad(0), s1);
    var s2 := Solo(Validated(), true, Alone(AtSubmit(Reserved(Printer())), None), HELD, NO_TRACE, NO_DESK);
    assert s1.flow.place[0 := AtSubmit(Reserved(Printer()))] == s2.flow.place;
    Go(s1, BudgetSwap(0, false), s2);
  }

  lemma Marks()
    ensures Later(Solo(InQueue(), true, Alone(AtSubmit(Marked(Printer())), None), HELD, NO_TRACE, NO_DESK))
  {
    hide Later;
    Reserves();
    var s := Solo(Validated(), true, Alone(AtSubmit(Reserved(Printer())), None), HELD, NO_TRACE, NO_DESK);
    var s1 := Solo(InQueue(), true, Alone(AtSubmit(Marked(Printer())), None), HELD, NO_TRACE, NO_DESK);
    assert s.flow.place[0 := AtSubmit(Marked(Printer()))] == s1.flow.place;
    assert s.tables.repo[0 := InQueue()] == s1.tables.repo && s.tables.active[0 := InQueue()] == s1.tables.active;
    Go(s, SubmitMark(0, true), s1);
  }

  /** The state in which job 0 waits in its printer's channel. */
  function QueuedState(): State {
    Solo(InQueue(), true, WithQueue(AtQueue(0, Printer()), [0], Idle, map[]), HELD, SentTrace(), NO_DESK)
  }

  lemma Queues()
    ensures Later(QueuedState())
  {
    hide Later;
    Marks();
    var s := Solo(InQueue(), true, Alone(AtSubmit(Marked(Printer())), None), HELD, NO_TRACE, NO_DESK);
    var s1 := Solo(InQueue(), true, WithQueue(AtSubmit(Sending(Printer(), 0)), [], Idle, map[]), HELD, NO_TRACE, NO_DESK);
    assert s.flow.place[0 := AtSubmit(Sending(Printer(), 0))] == s1.flow.place;
    assert s.flow.queues[0 := Queue(Printer(), [], Idle)] == s1.flow.queues;
    assert s.flow.senders[Printer() := 0] == s1.flow.senders;
    Go(s, SubmitSender(0), s1);
    Sends(s1);
  }

  lemma Sends(s: State)
    requires s == Solo(InQueue(), true, WithQueue(AtSubmit(Sending(Printer(), 0)), [], Idle, map[]), HELD, NO_TRACE, NO_DESK)
    requires Later(s)
    ensures Later(QueuedState())
  {
    hide Later;
    var s1 := QueuedState();
    assert s.flow.place[0 := AtQueue(0, Printer())] == s1.flow.place;
    assert [] + [0] == [0];
    assert s.flow.queues[0 := Queue(Printer(), [0], Idle)] == s1.flow.queues;
    assert s.trace.sends[Printer() := [0]] == s1.trace.sends;
    Go(s, SubmitSend(0), s1);
  }

  function TakenState(): State {
    Solo(InQueue(), true, WithQueue(Taken(0, Printer()), [], Has(0), map[]), HELD, SentTrace(), NO_DESK)
  }

  lemma Receives()
    ensures Later(TakenState())
  {
    hide Later;
    Queues();
    var s, s1 := QueuedState(), TakenState();
    assert s.flow.queues[0].items[1..] == [];
    assert s.flow.place[0 := Taken(0, Printer())] == s1.flow.place;
    assert s.flow.queues[0 := Queue(Printer(), [], Has(0))] == s1.flow.queues;
    Go(s, WorkerReceive(0), s1);
  }

  /** Claiming job 0 is the same whether or not a shutdown is under way. */
  lemma Claims(s: State)
    requires s == TakenState().(shutdown := s.shutdown, doomed := s.doomed)
    ensures Enabled(s, WorkerClaim(0, true))
    ensures Do(TINY, s, WorkerClaim(0, true)) == ClaimedState().(shutdown := s.shutdown, doomed := s.doomed)
  {
    var s1 := ClaimedState();
    assert s.flow.place[0 := Claimed(0, Printer())] == s1.flow.place;
    assert s.flow.queues[0 := Queue(Printer(), [], Took(0))] == s1.flow.queues;
    assert s.tables.repo[0 := InFlight()] == s1.tables.repo && s.tables.active[0 := InFlight()] == s1.tables.active;
  }

  function ClaimedState(): State {
    Solo(InFlight(), true, WithQueue(Claimed(0, Printer()), [], Took(0), map[]), HELD, SentTrace(), NO_DESK)
  }

  // ------------------------------------------------------------------ a job in the spooler

  function SpoolDesk(m: MonitorPc): Desk {
    Desk(map[0 := Monitor(0, m)], {}, map[], map[0 := 0], 1, {})
  }

  /** Job 0 is in the spooler as entry 0 and its monitor is asleep. */
  function SpooledState(): State {
    Solo(InSpool(), true, WithQueue(Handed, [], Idle, map[]), FREE, CalledTrace(), SpoolDesk(Sleeping))
  }

  function CallingState(): State {
    Solo(InFlight(), true, WithQueue(Calling(0, Printer()), [], Waits(0, None, false), map[0 := 0]), HELD, CalledTrace(), NO_DESK)
  }

  function ReturnedState(): State {
    Solo(InFlight(), true, WithQueue(Calling(0, Printer()), [], Waits(0, Some(Spooled(0)), false), map[]), FREE, CalledTrace(),
         Desk(map[], {}, map[], map[0 := 0], 1, {}))
  }

  lemma Calls()
    ensures Later(CallingState())
  {
    hide Later;
    Receives();
    var s := ClaimedState();
    Claims(TakenState());
    Go(TakenState(), WorkerClaim(0, true), s);
    CallsProvider(s);
  }

  lemma CallsProvider(s: State)
    requires s == ClaimedState() && Later(s)
    ensures Later(CallingState())
  {
    hide Later;
    var s1 := CallingState();
    assert s.flow.place[0 := Calling(0, Printer())] == s1.flow.place;
    assert s.flow.queues[0 := Queue(Printer(), [], Waits(0, None, false))] == s1.flow.queues;
    assert s.flow.running[0 := 0] == s1.flow.running;
    assert s.trace.calls[Printer() := [0]] == s1.trace.calls;
    assert Sent(s.trace.calls, Printer()) + [0] == [0];
    assert s.trace.log + [Submission(0, Printer(), Client(), Some(OrderKey()))] == s1.trace.log;
    Go(s, WorkerCall(0), s1);
  }

  lemma Returns()
    ensures Later(ReturnedState())
  {
    hide Later;
    Calls();
    var s, s1 := CallingState(), ReturnedState();
    assert s.flow.queues[0 := Queue(Printer(), [], Waits(0, Some(Spooled(0)), false))] == s1.flow.queues;
    assert s.flow.running - {0} == map[];
    assert s.bytes.reservations - {0} == map[];
    assert s.desk.entries[0 := 0] == s1.desk.entries;
    Go(s, ProviderReturn(0, Spooled(0)), s1);
  }

  lemma Spools()
    ensures Later(SpooledState())
  {
    hide Later;
    Returns();
    var s, s1 := ReturnedState(), SpooledState();
    assert s.flow.queues[0 := Queue(Printer(), [], Idle)] == s1.flow.queues;
    assert s.flow.place[0 := Handed] == s1.flow.place;
    assert s.tables.repo[0 := InSpool()] == s1.tables.repo && s.tables.active[0 := InSpool()] == s1.tables.active;
    assert s.desk.monitors[0 := Monitor(0, Sleeping)] == s1.desk.monitors;
    Go(s, WorkerSettle(0, true), s1);
  }
}
