/**
 Printer discovery (print-core/src/engine/discovery.rs): the next snapshot, the events of a
 refresh, and a subscriber that replays them.
 */
module Discovery {
  import opened Wrappers

  datatype PrinterId = PrinterId(text: string)
  datatype Provider = Provider(name: string)
  datatype PrinterState = Ready | Printing | Paused | Offline | Error | Unknown
  datatype Condition = Condition(code: nat)

  /** The fields a refresh looks at, and the rest of the record as one value. */
  datatype Printer = Printer(id: PrinterId, provider: Provider, isDefault: bool, online: bool,
                             status: PrinterState, conditions: seq<Condition>, rest: string)

  type Snapshot = map<PrinterId, Printer>

  datatype Event = Connected(printer: Printer) | StatusChanged(printer: Printer) | Disconnected(printer: Printer)

  /** `Printer::status_differs`. */
  predicate StatusDiffers(a: Printer, b: Printer) {
    a.online != b.online || a.status != b.status || a.conditions != b.conditions || a.isDefault != b.isDefault
  }

  /** What a client cares about is the same: reachability, state, conditions and being the default. */
  predicate SameStatus(a: Printer, b: Printer) {
    a.online == b.online && a.status == b.status && a.conditions == b.conditions && a.isDefault == b.isDefault
  }

  lemma DiffersIff(a: Printer, b: Printer)
    ensures StatusDiffers(a, b) <==> !SameStatus(a, b)
  {
  }

  ghost predicate OwnIds(s: Snapshot) {
    forall id :: id in s ==> s[id].id == id
  }

  /** The printers of failing providers, then everything discovered; later entries win. */
  function Kept(cache: Snapshot, failed: set<Provider>): Snapshot {
    map id | id in cache && cache[id].provider in failed :: cache[id]
  }

  function Collected(kept: Snapshot, discovered: seq<Printer>): Snapshot {
    if discovered == [] then kept
    else
      var p := discovered[|discovered| - 1];
      Collected(kept, discovered[..|discovered| - 1])[p.id := p]
  }

  function NextSnapshot(cache: Snapshot, failed: set<Provider>, discovered: seq<Printer>): Snapshot {
    Collected(Kept(cache, failed), discovered)
  }

  // ------------------------------------------------------------------ events

  predicate Tells(e: Event, was: Snapshot, next: Snapshot) {
    var id := e.printer.id;
    match e
    case Connected(p) => id in next && id !in was && p == next[id]
    case StatusChanged(p) => id in next && id in was && p == next[id] && !SameStatus(was[id], p)
    case Disconnected(p) => id in was && id !in next && p == was[id]
  }

  predicate NeedsEvent(was: Snapshot, next: Snapshot, id: PrinterId) {
    || (id in next && id !in was)
    || (id in next && id in was && !SameStatus(was[id], next[id]))
    || (id in was && id !in next)
  }

  ghost predicate About(events: seq<Event>, id: PrinterId) {
    exists i :: 0 <= i < |events| && events[i].printer.id == id
  }

  predicate OncePerPrinter(events: seq<Event>) {
    forall i, j :: 0 <= i < j < |events| ==> events[i].printer.id != events[j].printer.id
  }

  /** The events of a refresh: true, at most one per printer, and none missing. */
  ghost predicate EventsFor(events: seq<Event>, was: Snapshot, next: Snapshot) {
    && OncePerPrinter(events)
    && (forall i :: 0 <= i < |events| ==> Tells(events[i], was, next))
    && (forall id :: NeedsEvent(was, next, id) ==> About(events, id))
  }

  class Cache {
    var byId: Snapshot
    var refreshed: bool

    constructor ()
      ensures byId == map[] && !refreshed
    {
      byId := map[];
      refreshed := false;
    }

    /** `refresh`, once the providers have answered; only the first refresh is silent. */
    method Refresh(failed: set<Provider>, discovered: seq<Printer>) returns (events: seq<Event>)
      requires OwnIds(byId)
      modifies this
      ensures OwnIds(byId) && refreshed
      ensures byId == NextSnapshot(old(byId), failed, discovered)
      ensures if old(refreshed) then EventsFor(events, old(byId), byId) else events == []
    {
      CollectedOwnIds(Kept(byId, failed), discovered);
      var next := Kept(byId, failed);
      for i := 0 to |discovered|
        invariant next == Collected(Kept(byId, failed), discovered[..i]) && byId == old(byId)
      {
        assert discovered[..i + 1][..i] == discovered[..i];
        next := next[discovered[i].id := discovered[i]];
      }
      assert discovered[..|discovered|] == discovered;
      events := [];
      if refreshed {
        events := Appeared(byId, next);
        events := Vanished(byId, next, events);
      }
      byId := next;
      refreshed := true;
    }
  }

  lemma {:induction false} CollectedOwnIds(kept: Snapshot, discovered: seq<Printer>)
    requires OwnIds(kept)
    ensures OwnIds(Collected(kept, discovered))
    decreases |discovered|
  {
    if discovered != [] { CollectedOwnIds(kept, discovered[..|discovered| - 1]); }
  }

  lemma AboutPush(events: seq<Event>, e: Event, id: PrinterId)
    ensures About(events + [e], id) <==> About(events, id) || e.printer.id == id
  {
    if About(events, id) {
      var i :| 0 <= i < |events| && events[i].printer.id == id;
      assert (events + [e])[i].printer.id == id;
    }
    assert (events + [e])[|events|] == e;
    if About(events + [e], id) {
      var i :| 0 <= i < |events + [e]| && (events + [e])[i].printer.id == id;
      assert i < |events| ==> events[i].printer.id == id;
    }
  }

  /** What the two event loops have done when `rest` is still to come. */
  ghost predicate Progress(events: seq<Event>, was: Snapshot, next: Snapshot, rest: set<PrinterId>) {
    && OncePerPrinter(events)
    && (forall i :: 0 <= i < |events| ==> Tells(events[i], was, next) && events[i].printer.id !in rest)
  }

  lemma Pushed(events: seq<Event>, e: Event, was: Snapshot, next: Snapshot, rest: set<PrinterId>)
    requires Progress(events, was, next, rest) && Tells(e, was, next) && e.printer.id in rest
    ensures Progress(events + [e], was, next, rest - {e.printer.id})
  {
    var id := e.printer.id;
    forall i | 0 <= i < |events| ensures events[i].printer.id != id && (events + [e])[i] == events[i] {}
  }

  /** The loop over the new snapshot. */
  method Appeared(was: Snapshot, next: Snapshot) returns (events: seq<Event>)
    requires OwnIds(was) && OwnIds(next)
    ensures Progress(events, was, next, was.Keys - next.Keys)
    ensures forall id :: id in next && NeedsEvent(was, next, id) ==> About(events, id)
  {
    hide Progress, About, SameStatus, StatusDiffers;
    events := [];
    var rest := next.Keys;
    Nothing(was, next, was.Keys + rest);
    while rest != {}
      invariant rest <= next.Keys
      invariant Progress(events, was, next, (was.Keys - next.Keys) + rest)
      invariant forall id :: id in next && id !in rest && NeedsEvent(was, next, id) ==> About(events, id)
      decreases |rest|
    {
      var id :| id in rest;
      var todo := (was.Keys - next.Keys) + rest;
      if id in was { DiffersIff(was[id], next[id]); }
      if id !in was || StatusDiffers(was[id], next[id]) {
        var e := if id in was then StatusChanged(next[id]) else Connected(next[id]);
        Pushed(events, e, was, next, todo);
        forall k ensures About(events + [e], k) <==> About(events, k) || k == id { AboutPush(events, e, k); }
        events := events + [e];
      } else {
        Passed(events, was, next, todo, todo - {id});
      }
      rest := rest - {id};
      assert todo - {id} == (was.Keys - next.Keys) + rest;
    }
    assert (was.Keys - next.Keys) + {} == was.Keys - next.Keys;
  }

  lemma Nothing(was: Snapshot, next: Snapshot, rest: set<PrinterId>)
    ensures Progress([], was, next, rest) && Progress([], was, next, (was.Keys - next.Keys) + next.Keys)
  {
  }

  lemma Passed(events: seq<Event>, was: Snapshot, next: Snapshot, rest: set<PrinterId>, rest': set<PrinterId>)
    requires Progress(events, was, next, rest) && rest' <= rest
    ensures Progress(events, was, next, rest')
  {
  }

  /** The loop over the old snapshot. */
  method Vanished(was: Snapshot, next: Snapshot, appeared: seq<Event>) returns (events: seq<Event>)
    requires OwnIds(was) && OwnIds(next) && Progress(appeared, was, next, was.Keys - next.Keys)
    requires forall id :: id in next && NeedsEvent(was, next, id) ==> About(appeared, id)
    ensures EventsFor(events, was, next)
  {
    hide Progress, About;
    events := appeared;
    var rest := was.Keys;
    while rest != {}
      invariant rest <= was.Keys
      invariant Progress(events, was, next, rest - next.Keys)
      invariant forall id :: id !in rest && NeedsEvent(was, next, id) ==> About(events, id)
      invariant forall id :: id in next && NeedsEvent(was, next, id) ==> About(events, id)
      decreases |rest|
    {
      var id :| id in rest;
      if id !in next {
        var e := Disconnected(was[id]);
        Pushed(events, e, was, next, rest - next.Keys);
        forall k ensures About(events + [e], k) <==> About(events, k) || k == id { AboutPush(events, e, k); }
        events := events + [e];
      }
      var left := rest - {id};
      assert rest - next.Keys - {id} == left - next.Keys;
      assert id in next ==> rest - next.Keys == left - next.Keys;
      rest := left;
    }
    AllTold(events, was, next);
  }

  lemma AllTold(events: seq<Event>, was: Snapshot, next: Snapshot)
    requires Progress(events, was, next, {} - next.Keys)
    requires forall id :: NeedsEvent(was, next, id) ==> About(events, id)
    ensures EventsFor(events, was, next)
  {
  }

  // ------------------------------------------------------------------ subscriber

  function Fold(s: Snapshot, e: Event): Snapshot {
    if e.Disconnected? then s - {e.printer.id} else s[e.printer.id := e.printer]
  }

  function Replay(s: Snapshot, events: seq<Event>): Snapshot {
    if events == [] then s else Fold(Replay(s, events[..|events| - 1]), events[|events| - 1])
  }

  /** The same printers, in the same state as far as clients care. */
  ghost predicate Agrees(s: Snapshot, t: Snapshot) {
    s.Keys == t.Keys && forall id :: id in s ==> SameStatus(s[id], t[id])
  }

  /** The last word on a printer is the event about it, or the old snapshot. */
  lemma {:induction false} ReplayAt(s: Snapshot, events: seq<Event>, id: PrinterId)
    requires OncePerPrinter(events)
    ensures !About(events, id) ==> (id in Replay(s, events) <==> id in s) && (id in s ==> Replay(s, events)[id] == s[id])
    ensures forall i :: 0 <= i < |events| && events[i].printer.id == id ==>
      if events[i].Disconnected? then id !in Replay(s, events)
      else id in Replay(s, events) && Replay(s, events)[id] == events[i].printer
    decreases |events|
  {
    if events != [] {
      var n := |events| - 1;
      var front := events[..n];
      ReplayAt(s, front, id);
      assert events == front + [events[n]];
      AboutPush(front, events[n], id);
      forall i | 0 <= i < |events| && events[i].printer.id == id
        ensures if events[i].Disconnected? then id !in Replay(s, events)
                else id in Replay(s, events) && Replay(s, events)[id] == events[i].printer
      {
        if i < n { assert front[i] == events[i]; }
      }
    }
  }

  lemma ReplayOne(s: Snapshot, events: seq<Event>, was: Snapshot, next: Snapshot, id: PrinterId)
    requires Agrees(s, was) && EventsFor(events, was, next)
    ensures (id in Replay(s, events) <==> id in next) && (id in next ==> SameStatus(Replay(s, events)[id], next[id]))
  {
    ReplayAt(s, events, id);
    if About(events, id) {
      var i :| 0 <= i < |events| && events[i].printer.id == id;
      assert Tells(events[i], was, next);
    } else {
      assert !NeedsEvent(was, next, id);
    }
  }

  /** Folding a refresh's events into an up-to-date copy gives an up-to-date copy. */
  lemma ReplayIsExact(s: Snapshot, events: seq<Event>, was: Snapshot, next: Snapshot)
    requires Agrees(s, was) && EventsFor(events, was, next)
    ensures Agrees(Replay(s, events), next)
  {
    hide EventsFor;
    forall id
      ensures (id in Replay(s, events) <==> id in next) && (id in next ==> SameStatus(Replay(s, events)[id], next[id]))
    {
      ReplayOne(s, events, was, next, id);
    }
  }

  // ------------------------------------------------------------------ every run

  /** One refresh after the first, with the events it sent. */
  datatype Round = Round(failed: set<Provider>, discovered: seq<Printer>, events: seq<Event>)

  ghost function CacheAfter(cache: Snapshot, rounds: seq<Round>): Snapshot {
    if rounds == [] then cache
    else
      var n := |rounds| - 1;
      NextSnapshot(CacheAfter(cache, rounds[..n]), rounds[n].failed, rounds[n].discovered)
  }

  ghost predicate Sent(cache: Snapshot, rounds: seq<Round>) {
    forall i :: 0 <= i < |rounds| ==>
      EventsFor(rounds[i].events, CacheAfter(cache, rounds[..i]), CacheAfter(cache, rounds[..i + 1]))
  }

  ghost function CopyAfter(copy: Snapshot, rounds: seq<Round>): Snapshot {
    if rounds == [] then copy else Replay(CopyAfter(copy, rounds[..|rounds| - 1]), rounds[|rounds| - 1].events)
  }

  /** A subscriber that starts from any snapshot and folds in all later events agrees with the cache
      after every refresh. */
  lemma {:induction false} SubscriberStaysExact(cache: Snapshot, copy: Snapshot, rounds: seq<Round>)
    requires Agrees(copy, cache) && Sent(cache, rounds)
    ensures Agrees(CopyAfter(copy, rounds), CacheAfter(cache, rounds))
    decreases |rounds|
  {
    hide EventsFor, Agrees, Replay, NextSnapshot;
    if rounds != [] {
      var n := |rounds| - 1;
      var front := rounds[..n];
      forall i | 0 <= i < n ensures
        EventsFor(front[i].events, CacheAfter(cache, front[..i]), CacheAfter(cache, front[..i + 1])) {
        assert front[..i] == rounds[..i] && front[..i + 1] == rounds[..i + 1];
        assert EventsFor(rounds[i].events, CacheAfter(cache, rounds[..i]), CacheAfter(cache, rounds[..i + 1]));
      }
      SubscriberStaysExact(cache, copy, front);
      assert rounds[..n + 1] == rounds;
      ReplayIsExact(CopyAfter(copy, front), rounds[n].events, CacheAfter(cache, front), CacheAfter(cache, rounds));
    }
  }

  lemma {:induction false} CollectedKeeps(kept: Snapshot, discovered: seq<Printer>, id: PrinterId)
    requires id in kept
    ensures id in Collected(kept, discovered)
    decreases |discovered|
  {
    if discovered != [] { CollectedKeeps(kept, discovered[..|discovered| - 1], id); }
  }

  ghost predicate Found(discovered: seq<Printer>, id: PrinterId) {
    exists i :: 0 <= i < |discovered| && discovered[i].id == id
  }

  /** A printer is in the next snapshot iff it was discovered or belongs to a failing provider. */
  lemma {:induction false} SnapshotIff(cache: Snapshot, failed: set<Provider>, discovered: seq<Printer>, id: PrinterId)
    ensures id in NextSnapshot(cache, failed, discovered) <==>
      Found(discovered, id) || (id in cache && cache[id].provider in failed)
    decreases |discovered|
  {
    if discovered != [] {
      var n := |discovered| - 1;
      var front := discovered[..n];
      SnapshotIff(cache, failed, front, id);
      assert Found(discovered, id) <==> Found(front, id) || discovered[n].id == id by {
        if Found(front, id) {
          var i :| 0 <= i < n && front[i].id == id;
          assert discovered[i].id == id;
        }
        if Found(discovered, id) {
          var i :| 0 <= i < |discovered| && discovered[i].id == id;
          assert i < n ==> front[i].id == id;
        }
      }
    }
  }

  /** The last record of a printer among those discovered. */
  predicate Latest(discovered: seq<Printer>, i: nat) {
    i < |discovered| && forall k :: i < k < |discovered| ==> discovered[k].id != discovered[i].id
  }

  lemma {:induction false} LatestIsHeld(kept: Snapshot, discovered: seq<Printer>, i: nat)
    requires Latest(discovered, i)
    ensures
      var id := discovered[i].id;
      id in Collected(kept, discovered) && Collected(kept, discovered)[id] == discovered[i]
    decreases |discovered|
  {
    var n := |discovered| - 1;
    if i < n {
      assert Latest(discovered[..n], i);
      LatestIsHeld(kept, discovered[..n], i);
      assert discovered[n].id != discovered[i].id;
    }
  }

  lemma {:induction false} UnfoundIsKept(kept: Snapshot, discovered: seq<Printer>, id: PrinterId)
    requires forall i :: 0 <= i < |discovered| ==> discovered[i].id != id
    ensures id in Collected(kept, discovered) <==> id in kept
    ensures id in kept ==> Collected(kept, discovered)[id] == kept[id]
    decreases |discovered|
  {
    if discovered != [] { UnfoundIsKept(kept, discovered[..|discovered| - 1], id); }
  }

  /** The snapshot holds the record that was discovered last for each printer, and for a printer that
      was not discovered, which then is one of a failing provider, the record it had. */
  lemma SnapshotHoldsTheLatest(cache: Snapshot, failed: set<Provider>, discovered: seq<Printer>, id: PrinterId)
    requires id in NextSnapshot(cache, failed, discovered)
    ensures Found(discovered, id) ==>
      exists i: nat :: Latest(discovered, i) && discovered[i].id == id && NextSnapshot(cache, failed, discovered)[id] == discovered[i]
    ensures !Found(discovered, id) ==>
      id in cache && cache[id].provider in failed && NextSnapshot(cache, failed, discovered)[id] == cache[id]
  {
    hide Collected;
    if Found(discovered, id) {
      var i := LatestOf(discovered, id);
      LatestIsHeld(Kept(cache, failed), discovered, i);
    } else {
      UnfoundIsKept(Kept(cache, failed), discovered, id);
    }
  }

  lemma {:induction false} LatestOf(discovered: seq<Printer>, id: PrinterId) returns (i: nat)
    requires Found(discovered, id)
    ensures Latest(discovered, i) && discovered[i].id == id
    decreases |discovered|
  {
    var n := |discovered| - 1;
    if discovered[n].id == id {
      i := n;
    } else {
      var k :| 0 <= k < |discovered| && discovered[k].id == id;
      assert discovered[..n][k].id == id;
      i := LatestOf(discovered[..n], id);
    }
  }

  /** A failing provider's printers stay in the snapshot, and no event says they have gone. */
  lemma FailingProviderKeepsItsPrinters(cache: Snapshot, failed: set<Provider>, discovered: seq<Printer>,
                                        events: seq<Event>, id: PrinterId)
    requires id in cache && cache[id].provider in failed
    requires EventsFor(events, cache, NextSnapshot(cache, failed, discovered))
    ensures id in NextSnapshot(cache, failed, discovered)
    ensures forall i :: 0 <= i < |events| && events[i].printer.id == id ==> !events[i].Disconnected?
  {
    CollectedKeeps(Kept(cache, failed), discovered, id);
  }
}
