/** The steps of monitors, the spooler and cancellations keep the invariant. */
module EngineDesk {
  import opened Wrappers
  import opened Jobs
  import opened EngineModel
  import opened EngineInvariant
  import opened EngineTokens
  import opened EngineRecords
  import opened EngineBudget
  import opened EngineSubmit

  /** A step that changes one record in place and keeps every job where it is. */
  lemma EditKeepsInv(cfg: Config, s: State, j: JobId, c: Change, ok: bool)
    requires Inv(cfg, s) && j in s.flow.place
    requires c.Fail? || c.Cancel? || c.CancelUnsent? || (j in s.desk.monitors && WatchChange(c))
    requires s.phase.Serving? || j in s.desk.monitors
    ensures Inv(cfg, MutateIn(s, j, c, ok))
  {
    hide Tokens, History, Budget, Records, Keys, Watch, Order, Phases, Proper, Apply, Consistent, RowOk;
    var f := s.flow;
    JobFacts(cfg, s, j);
    if j in s.tables.active {
      EditIsProper(s.tables, f.place, j, c);
      assert f.place[j := f.place[j]] == f.place;
      MutateKeepsRecords(s.tables, f.place, f.requests, s.phase, j, c, ok, f.place[j]);
      MutateKeepsKeys(s.tables, f.requests, j, c, ok);
      MutateKeepsWatch(s.tables, f.place, f.queues, s.desk, j, c, ok, f.place[j]);
      EditKeepsPhases(s, j, c, ok);
    }
  }

  lemma EditIsProper(t: Tables, place: map<JobId, Place>, j: JobId, c: Change)
    requires j in place && j in t.active && ActiveOk(t, place, j, t.active[j])
    requires c.Fail? || c.Cancel? || c.CancelUnsent? || (place[j].Handed? && WatchChange(c))
    ensures Proper(t, place, j, c, place[j])
  {
  }

  lemma EditKeepsPhases(s: State, j: JobId, c: Change, ok: bool)
    requires Phases(s) && j in s.tables.active
    ensures Phases(MutateIn(s, j, c, ok))
  {
  }

  /** A step that touches only the desk and keeps its monitors sound. */
  lemma DeskKeepsInv(cfg: Config, s: State, d: Desk)
    requires Inv(cfg, s)
    requires s.phase.Serving? || (d.cancels == s.desk.cancels && d.cancelling == s.desk.cancelling)
    requires d.nextSpool == s.desk.nextSpool
    requires forall id :: id in d.entries ==> id in s.desk.entries
    requires forall j :: j in d.monitors ==>
      && j in s.desk.monitors && d.monitors[j].spool == s.desk.monitors[j].spool
      && (d.monitors[j].pc.Decided? ==> WatchChange(d.monitors[j].pc.change))
    ensures Inv(cfg, s.(desk := d))
  {
    hide Tokens, History, Budget, Records, Keys, Order;
    assert Watch(s.tables, s.flow.place, s.flow.queues, d) by {
      forall j | j in d.monitors ensures MonitorOk(s.tables.active, s.flow.place, d.nextSpool, j, d.monitors[j]) {
        assert MonitorOk(s.tables.active, s.flow.place, s.desk.nextSpool, j, s.desk.monitors[j]);
      }
    }
  }

  lemma MonitorFacts(cfg: Config, s: State, j: JobId)
    requires Inv(cfg, s) && j in s.desk.monitors
    ensures MonitorOk(s.tables.active, s.flow.place, s.desk.nextSpool, j, s.desk.monitors[j])
    ensures forall k :: k in s.desk.monitors && s.desk.monitors[k].pc.Decided?
              ==> WatchChange(s.desk.monitors[k].pc.change)
  {
    AllDecided(cfg, s);
  }

  lemma AllDecided(cfg: Config, s: State)
    requires Inv(cfg, s)
    ensures forall k :: k in s.desk.monitors && s.desk.monitors[k].pc.Decided?
              ==> WatchChange(s.desk.monitors[k].pc.change)
  {
    forall k | k in s.desk.monitors && s.desk.monitors[k].pc.Decided?
      ensures WatchChange(s.desk.monitors[k].pc.change)
    {
      assert MonitorOk(s.tables.active, s.flow.place, s.desk.nextSpool, k, s.desk.monitors[k]);
    }
  }

  lemma ApplyKeepsInv(cfg: Config, s: State, j: JobId, ok: bool)
    requires Inv(cfg, s) && Enabled(s, MonitorApply(j, ok))
    ensures Inv(cfg, Do(cfg, s, MonitorApply(j, ok)))
  {
    hide Inv, WatchChange;
    MonitorFacts(cfg, s, j);
    EditKeepsInv(cfg, s, j, s.desk.monitors[j].pc.change, ok);
    DeskKeepsInv(cfg, MutateIn(s, j, s.desk.monitors[j].pc.change, ok), Do(cfg, s, MonitorApply(j, ok)).desk);
  }

  lemma MonitorKeepsInv(cfg: Config, s: State, t: Step)
    requires Inv(cfg, s) && Enabled(s, t)
    requires t.MonitorPoll? || t.MonitorStop? || t.MonitorDecide? || t.SpoolerRetire?
    ensures Inv(cfg, Do(cfg, s, t))
  {
    hide Inv, DoSubmit, DoWorker, DoLifecycle, SubmitEnabled, WorkerEnabled, LifecycleEnabled;
    AllDecided(cfg, s);
    DeskKeepsInv(cfg, s, Do(cfg, s, t).desk);
  }

  lemma CancelEditKeepsInv(cfg: Config, s: State, t: Step)
    requires Inv(cfg, s) && (t.CancelQueued? || t.CancelSettle?) && Enabled(s, t)
    ensures Inv(cfg, Do(cfg, s, t))
  {
    hide Inv, WatchChange;
    AllDecided(cfg, s);
    var j := s.desk.cancels[t.call].job;
    var c := if t.CancelQueued? then CancelUnsent else Cancel;
    if j in s.tables.active {
      ActiveIsPlaced(cfg, s, j);
      EditKeepsInv(cfg, s, j, c, t.ok);
    }
    DeskKeepsInv(cfg, MutateIn(s, j, c, t.ok), Do(cfg, s, t).desk);
  }

  lemma CancelKeepsInv(cfg: Config, s: State, t: Step)
    requires Inv(cfg, s) && Enabled(s, t)
    requires t.CancelRead? || t.CancelMark? || t.CancelDelete? || t.CancelUnmark?
    ensures Inv(cfg, Do(cfg, s, t))
  {
    hide Inv, WatchChange, DoSubmit, DoWorker, DoLifecycle, SubmitEnabled, WorkerEnabled, LifecycleEnabled;
    AllDecided(cfg, s);
    DeskKeepsInv(cfg, s, Do(cfg, s, t).desk);
  }

  lemma DeskStepKeepsInv(cfg: Config, s: State, t: Step)
    requires Inv(cfg, s) && IsDeskStep(t) && Enabled(s, t)
    ensures Inv(cfg, Do(cfg, s, t))
  {
    hide Inv, Do, Enabled;
    match t
    case MonitorApply(j, ok) => ApplyKeepsInv(cfg, s, j, ok);
    case CancelQueued(_, _) => CancelEditKeepsInv(cfg, s, t);
    case CancelSettle(_, _) => CancelEditKeepsInv(cfg, s, t);
    case CancelRead(_, _, _) => CancelKeepsInv(cfg, s, t);
    case CancelMark(_) => CancelKeepsInv(cfg, s, t);
    case CancelDelete(_, _) => CancelKeepsInv(cfg, s, t);
    case CancelUnmark(_) => CancelKeepsInv(cfg, s, t);
    case _ => MonitorKeepsInv(cfg, s, t);
  }

  lemma ActiveIsPlaced(cfg: Config, s: State, j: JobId)
    requires Inv(cfg, s) && j in s.tables.active
    ensures j in s.flow.place
  {
    assert ActiveOk(s.tables, s.flow.place, j, s.tables.active[j]);
  }
}
