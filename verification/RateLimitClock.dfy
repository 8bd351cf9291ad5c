/**
 The token bucket without any assumption about its clock or its crowd. `check` reads the clock
 before it takes the lock, so readings can arrive out of order: a client's allowance grows by the
 forward moves of its own readings, and by what pruning forgives it.
 */
module RateLimitClock {
  import opened RateLimit

  /** The readings of client `k`, in the order in which they are handled. */
  function Readings(rs: seq<Request>, k: Client): seq<real> {
    if rs == [] then []
    else Readings(rs[..|rs| - 1], k) + if rs[|rs| - 1].client == k then [rs[|rs| - 1].now] else []
  }

  /** The sum of the forward moves of a series of readings. */
  function Forward(ts: seq<real>): real {
    if |ts| < 2 then 0.0 else Forward(ts[..|ts| - 1]) + Elapsed(ts[|ts| - 1], ts[|ts| - 2])
  }

  /** What one reading after another brings. */
  function Share(t: real, last: real, rate: real): real { Elapsed(t, last) * rate }

  /** What a client earns by its readings. */
  function Earned(ts: seq<real>, rate: real): real { Forward(ts) * rate }

  /** The tokens kept for a client; one without a bucket has its whole burst. */
  function Stored(l: Limiter, k: Client): real {
    if k in l.buckets then l.buckets[k].tokens else l.burst
  }

  /** What dropping the bucket of `k` gives it. */
  function Forgiveness(l: Limiter, k: Client, now: real): real {
    if k in l.buckets && k !in Pruned(l, now).buckets then l.burst - l.buckets[k].tokens else 0.0
  }

  /** What the time since its last reading gives to `k`. */
  function Gain(l: Limiter, r: Request, k: Client): real {
    var p := Pruned(l, r.now);
    if r.client == k && k in p.buckets then Elapsed(r.now, p.buckets[k].last) * l.rate else 0.0
  }

  /** All that `k` is given after its first reading. */
  ghost function Credit(l: Limiter, rs: seq<Request>, k: Client): real {
    if rs == [] then 0.0
    else
      var n := |rs| - 1;
      var m := Run(l, rs[..n]);
      Credit(l, rs[..n], k) +
      if Readings(rs[..n], k) == [] then 0.0 else Forgiveness(m, k, rs[n].now) + Gain(m, rs[n], k)
  }

  // ------------------------------------------------------------------ conservation

  /** One check: what `k` spends and keeps is at most what it had, was forgiven and gained. */
  lemma StepConserves(l: Limiter, r: Request, k: Client)
    requires Valid(l)
    ensures
      var spent := if r.client == k && Accepts(l, k, r.now) then 1.0 else 0.0;
      && spent + Stored(After(l, r.client, r.now), k) <= Stored(l, k) + Forgiveness(l, k, r.now) + Gain(l, r, k)
      && (r.client == k ==> spent + Stored(After(l, r.client, r.now), k) <= l.burst)
  {
    PrunedIsValid(l, r.now);
    LevelInRange(Pruned(l, r.now), k, r.now);
  }

  lemma {:induction false} RunIsValid(l: Limiter, rs: seq<Request>)
    requires Valid(l)
    ensures Valid(Run(l, rs)) && Run(l, rs).rate == l.rate && Run(l, rs).burst == l.burst
    decreases |rs|
  {
    hide After, Valid;
    if rs != [] {
      RunIsValid(l, rs[..|rs| - 1]);
      AfterIsValid(Run(l, rs[..|rs| - 1]), rs[|rs| - 1].client, rs[|rs| - 1].now);
      AfterSettings(Run(l, rs[..|rs| - 1]), rs[|rs| - 1].client, rs[|rs| - 1].now);
    }
  }

  lemma AfterSettings(l: Limiter, k: Client, now: real)
    ensures After(l, k, now).rate == l.rate && After(l, k, now).burst == l.burst
  {
  }

  lemma {:induction false} Unseen(l: Limiter, rs: seq<Request>, k: Client)
    requires Readings(rs, k) == []
    ensures Accepted(l, rs, k) == 0 && Credit(l, rs, k) == 0.0
    decreases |rs|
  {
    hide Run, Forgiveness, Gain, Accepts;
    if rs != [] { Unseen(l, rs[..|rs| - 1], k); }
  }

  /**
   For every run, with readings in any order and any crowd: what a client has spent and still has
   is at most its burst and its credit.
   */
  lemma {:induction false} Conservation(l: Limiter, rs: seq<Request>, k: Client)
    requires Valid(l) && Readings(rs, k) != []
    ensures Accepted(l, rs, k) as real + Stored(Run(l, rs), k) <= l.burst + Credit(l, rs, k)
    decreases |rs|
  {
    hide After, Valid, Accepts, Forgiveness, Gain, Stored;
    var n := |rs| - 1;
    var front := rs[..n];
    RunIsValid(l, front);
    StepConserves(Run(l, front), rs[n], k);
    if Readings(front, k) == [] {
      Unseen(l, front, k);
    } else {
      Conservation(l, front, k);
    }
  }

  // ------------------------------------------------------------------ few clients

  /** At most as many clients as are kept without pruning. */
  predicate NoCrowd(l: Limiter, rs: seq<Request>) {
    |l.buckets.Keys + Clients(rs)| <= CROWD
  }

  lemma FewerInFront(l: Limiter, rs: seq<Request>, n: nat)
    requires NoCrowd(l, rs) && n <= |rs|
    ensures NoCrowd(l, rs[..n])
  {
    ClientsGrow(rs, n);
    Subsets(l.buckets.Keys + Clients(rs[..n]), l.buckets.Keys + Clients(rs));
  }

  /** Nothing is pruned, so a client's bucket remembers its last reading. */
  lemma {:induction false} Remembered(l: Limiter, rs: seq<Request>, k: Client)
    requires NoCrowd(l, rs)
    ensures Run(l, rs).buckets.Keys == l.buckets.Keys + Clients(rs) && |Run(l, rs).buckets| <= CROWD
    ensures Run(l, rs).rate == l.rate
    ensures
      var ts := Readings(rs, k);
      ts != [] ==> k in Run(l, rs).buckets && Run(l, rs).buckets[k].last == ts[|ts| - 1]
    decreases |rs|
  {
    hide After, NoCrowd, Clients;
    if rs == [] {
      NobodyYet(l);
    } else {
      var n := |rs| - 1;
      FewerInFront(l, rs, n);
      Remembered(l, rs[..n], k);
      ClientsPush(rs);
      AfterKeeps(Run(l, rs[..n]), rs[n].client, rs[n].now, k);
      assert l.buckets.Keys + Clients(rs) == l.buckets.Keys + Clients(rs[..n]) + {rs[n].client};
    }
    CountsKeys(l, rs, Run(l, rs));
  }

  lemma NobodyYet(l: Limiter)
    ensures l.buckets.Keys + Clients([]) == l.buckets.Keys
  {
  }

  lemma CountsKeys(l: Limiter, rs: seq<Request>, m: Limiter)
    requires NoCrowd(l, rs) && m.buckets.Keys == l.buckets.Keys + Clients(rs)
    ensures |m.buckets| <= CROWD
  {
    assert |m.buckets| == |m.buckets.Keys|;
  }

  lemma ClientsPush(rs: seq<Request>)
    requires rs != []
    ensures Clients(rs) == Clients(rs[..|rs| - 1]) + {rs[|rs| - 1].client}
  {
    var n := |rs| - 1;
    ClientsGrow(rs, n);
    assert rs[n].client in Clients(rs);
    forall c | c in Clients(rs) ensures c in Clients(rs[..n]) + {rs[n].client} {
      var i :| 0 <= i < |rs| && rs[i].client == c;
      if i < n { assert rs[..n][i].client == c; }
    }
  }

  lemma AfterKeeps(l: Limiter, who: Client, now: real, k: Client)
    requires |l.buckets| <= CROWD
    ensures
      var l' := After(l, who, now);
      && l'.buckets.Keys == l.buckets.Keys + {who} && l'.buckets[who].last == now && l'.rate == l.rate
      && (k != who && k in l.buckets ==> k in l'.buckets && l'.buckets[k] == l.buckets[k])
  {
  }

  /** Without a crowd the credit is the rate times the forward moves of the client's own readings. */
  lemma {:induction false} CreditIsForward(l: Limiter, rs: seq<Request>, k: Client)
    requires NoCrowd(l, rs)
    ensures Credit(l, rs, k) == Earned(Readings(rs, k), l.rate)
    decreases |rs|
  {
    hide Run, NoCrowd, Forgiveness, Gain, Earned, Share;
    NoMoves(l.rate);
    if rs != [] {
      var n := |rs| - 1;
      var front, ts := rs[..n], Readings(rs[..n], k);
      FewerInFront(l, rs, n);
      CreditIsForward(l, front, k);
      Remembered(l, front, k);
      if ts == [] {
        OneReading(rs[n].now, l.rate);
      } else {
        CreditStep(Run(l, front), rs[n], k, ts[|ts| - 1]);
        EarnedPush(ts, rs[n].now, l.rate);
        assert ts + [] == ts;
      }
    }
  }

  lemma NoMoves(rate: real)
    ensures Earned([], rate) == 0.0
  {
  }

  lemma OneReading(t: real, rate: real)
    ensures Earned([] + [t], rate) == 0.0 && Earned([] + [], rate) == 0.0
  {
  }

  lemma EarnedPush(ts: seq<real>, t: real, rate: real)
    requires ts != []
    ensures Earned(ts + [t], rate) == Earned(ts, rate) + Share(t, ts[|ts| - 1], rate)
  {
    hide Forward;
    ForwardPush(ts, t);
    Sums(Forward(ts), Elapsed(t, ts[|ts| - 1]), rate);
  }

  lemma CreditStep(l: Limiter, r: Request, k: Client, last: real)
    requires |l.buckets| <= CROWD && k in l.buckets && l.buckets[k].last == last
    ensures Forgiveness(l, k, r.now) == 0.0
    ensures Gain(l, r, k) == if r.client == k then Share(r.now, last, l.rate) else 0.0
  {
  }

  lemma Sums(a: real, b: real, c: real)
    ensures (a + b) * c == a * c + b * c
  {
  }

  lemma ForwardPush(ts: seq<real>, t: real)
    requires ts != []
    ensures Forward(ts + [t]) == Forward(ts) + Elapsed(t, ts[|ts| - 1])
  {
    assert (ts + [t])[..|ts|] == ts;
  }

  /**
   Readings in any order: a client is accepted at most burst + rate * (the forward moves of its own
   readings) times, whatever the other clients' clocks say.
   */
  lemma AcceptedByReadings(l: Limiter, rs: seq<Request>, k: Client)
    requires Valid(l) && NoCrowd(l, rs)
    ensures Accepted(l, rs, k) as real <= l.burst + Earned(Readings(rs, k), l.rate)
  {
    hide Run, Accepted, Credit, Earned;
    CreditIsForward(l, rs, k);
    if Readings(rs, k) == [] {
      Unseen(l, rs, k);
    } else {
      Conservation(l, rs, k);
      RunIsValid(l, rs);
    }
  }

  // ------------------------------------------------------------------ in order

  predicate Rising(ts: seq<real>) {
    forall i :: 0 <= i < |ts| - 1 ==> ts[i] <= ts[i + 1]
  }

  /** The forward moves add up to the elapsed time iff the readings are in order; else to more. */
  lemma {:induction false} ForwardIsElapsedIff(ts: seq<real>)
    requires ts != []
    ensures ts[|ts| - 1] - ts[0] <= Forward(ts)
    ensures Forward(ts) == ts[|ts| - 1] - ts[0] <==> Rising(ts)
    decreases |ts|
  {
    if |ts| >= 2 {
      var n := |ts| - 1;
      var front := ts[..n];
      ForwardIsElapsedIff(front);
      assert Rising(ts) <==> Rising(front) && ts[n - 1] <= ts[n] by {
        if Rising(front) && ts[n - 1] <= ts[n] {
          forall i | 0 <= i < n ensures ts[i] <= ts[i + 1] {
            if i < n - 1 { assert front[i] <= front[i + 1]; }
          }
        }
        if Rising(ts) {
          forall i | 0 <= i < n - 1 ensures front[i] <= front[i + 1] { assert ts[i] <= ts[i + 1]; }
          assert ts[n - 1] <= ts[n - 1 + 1];
        }
      }
    }
  }

  /** With its own readings in order, a client is accepted at most burst + rate * elapsed times. */
  lemma AcceptedIsBounded(l: Limiter, rs: seq<Request>, k: Client)
    requires Valid(l) && NoCrowd(l, rs) && Readings(rs, k) != [] && Rising(Readings(rs, k))
    ensures
      var ts := Readings(rs, k);
      Accepted(l, rs, k) as real <= l.burst + (ts[|ts| - 1] - ts[0]) * l.rate
  {
    hide Accepted, Readings, Forward, NoCrowd;
    AcceptedByReadings(l, rs, k);
    ForwardIsElapsedIff(Readings(rs, k));
  }

  // ------------------------------------------------------------------ a crowd

  /** Distinct clients. */
  function Guest(i: nat): Client { Client(seq(i, j => 'x')) }

  function Guests(n: nat): seq<Request> {
    if n == 0 then [] else Guests(n - 1) + [Request(Guest(n), 0.0)]
  }

  function GuestSet(n: nat): set<Client> {
    if n == 0 then {} else GuestSet(n - 1) + {Guest(n)}
  }

  lemma {:induction false} GuestsDiffer(n: nat, i: nat)
    requires i > n || i == 0
    ensures Guest(i) !in GuestSet(n)
  {
    if n > 0 {
      GuestsDiffer(n - 1, i);
      assert |Guest(n).name| == n && |Guest(i).name| == i;
    }
  }

  /** The house after `n` guests: nobody pruned, client 0 untouched, every bucket last used at time 0. */
  ghost predicate House(l: Limiter, m: Limiter, n: nat) {
    && m.buckets.Keys == {Guest(0)} + GuestSet(n) && |m.buckets| == n + 1
    && Guest(0) in l.buckets && m.buckets[Guest(0)] == l.buckets[Guest(0)] && m.rate == l.rate && m.burst == l.burst
    && forall k :: k in m.buckets ==> m.buckets[k].last == 0.0
  }

  lemma {:induction false} GuestsArrive(l: Limiter, n: nat)
    requires n <= CROWD && l.buckets.Keys == {Guest(0)} && l.buckets[Guest(0)].last == 0.0
    ensures House(l, Run(l, Guests(n)), n) && Accepted(l, Guests(n), Guest(0)) == 0
  {
    hide After, Accepts, House, Guest;
    if n == 0 {
      EmptyHouse(l);
    } else {
      GuestsArrive(l, n - 1);
      assert Guests(n)[..|Guests(n)| - 1] == Guests(n - 1);
      OneMoreGuest(l, Run(l, Guests(n - 1)), n);
    }
  }

  lemma EmptyHouse(l: Limiter)
    requires l.buckets.Keys == {Guest(0)} && l.buckets[Guest(0)].last == 0.0
    ensures House(l, l, 0)
  {
    hide Guest;
    assert |l.buckets| == |l.buckets.Keys| == 1;
  }

  lemma OneMoreGuest(l: Limiter, m: Limiter, n: nat)
    requires 0 < n <= CROWD && House(l, m, n - 1)
    ensures House(l, After(m, Guest(n), 0.0), n) && Guest(n) != Guest(0)
  {
    hide After;
    GuestsDiffer(n - 1, n);
    assert |Guest(n).name| == n && |Guest(0).name| == 0;
    GuestArrives(m, Guest(n), Guest(0));
    assert m.buckets.Keys + {Guest(n)} == {Guest(0)} + GuestSet(n);
    assert |m.buckets| == |m.buckets.Keys|;
  }

  lemma GuestArrives(l: Limiter, g: Client, k: Client)
    requires |l.buckets| <= CROWD && g !in l.buckets && k in l.buckets && forall j :: j in l.buckets ==> l.buckets[j].last == 0.0
    ensures
      var m := After(l, g, 0.0);
      && m.buckets.Keys == l.buckets.Keys + {g} && |m.buckets| == |l.buckets.Keys + {g}| && m.buckets[k] == l.buckets[k]
      && m.rate == l.rate && m.burst == l.burst && forall j :: j in m.buckets ==> m.buckets[j].last == 0.0
  {
    var m := After(l, g, 0.0);
    assert |m.buckets| == |m.buckets.Keys|;
  }

  lemma {:induction false} RunOn(l: Limiter, a: seq<Request>, b: seq<Request>, k: Client)
    ensures Run(l, a + b) == Run(Run(l, a), b)
    ensures Accepted(l, a + b, k) == Accepted(l, a, k) + Accepted(Run(l, a), b, k)
    decreases |b|
  {
    hide After, Accepts;
    if b == [] {
      assert a + b == a;
    } else {
      assert (a + b)[..|a + b| - 1] == a + b[..|b| - 1];
      RunOn(l, a, b[..|b| - 1], k);
    }
  }

  lemma TwoRequests(l: Limiter, k: Client, now: real)
    ensures
      var rs := [Request(k, now), Request(k, now)];
      && Run(l, rs) == After(After(l, k, now), k, now)
      && Accepted(l, rs, k) == (if Accepts(l, k, now) then 1 else 0) + (if Accepts(After(l, k, now), k, now) then 1 else 0)
  {
    hide After, Accepts;
    var rs := [Request(k, now), Request(k, now)];
    var one := rs[..1];
    assert one == [Request(k, now)] && one[..0] == [];
    assert Run(l, []) == l && Accepted(l, [], k) == 0;
    assert Run(l, one) == After(l, k, now);
    assert Accepted(l, one, k) == if Accepts(l, k, now) then 1 else 0;
  }

  /** A limiter with a burst of 2 whose buckets do not refill within a minute. */
  function Slow(): Limiter { Limiter(0.01, 2.0, map[]) }

  /** Client 0 twice, then a crowd of others, then client 0 twice again a minute later. */
  function CrowdedMinute(): seq<Request> {
    var k := Guest(0);
    [Request(k, 0.0), Request(k, 0.0)] + Guests(CROWD) + [Request(k, MINUTE), Request(k, MINUTE)]
  }

  lemma FirstTwo()
    ensures
      var k, rs := Guest(0), [Request(Guest(0), 0.0), Request(Guest(0), 0.0)];
      Accepted(Slow(), rs, k) == 2 && Run(Slow(), rs) == Slow().(buckets := map[k := Bucket(0.0, 0.0)])
  {
    var k := Guest(0);
    var l1 := After(Slow(), k, 0.0);
    assert l1.buckets == map[k := Bucket(1.0, 0.0)];
    assert |l1.buckets| == 1;
    assert After(l1, k, 0.0).buckets == map[k := Bucket(0.0, 0.0)];
    TwoRequests(Slow(), k, 0.0);
  }

  lemma LastTwo(l: Limiter, k: Client)
    requires |l.buckets| > CROWD && l.rate == 0.01 && l.burst == 2.0 && forall j :: j in l.buckets ==> l.buckets[j].last == 0.0
    ensures Accepted(l, [Request(k, MINUTE), Request(k, MINUTE)], k) == 2
  {
    var p := Pruned(l, MINUTE);
    assert p.buckets == map[];
    var l1 := After(l, k, MINUTE);
    assert l1.buckets == map[k := Bucket(1.0, MINUTE)];
    assert |l1.buckets| == 1;
    TwoRequests(l, k, MINUTE);
  }

  /** In a crowd a dropped bucket lets a client exceed its allowance: 4 requests are accepted within a
      minute, where burst + rate * 60 is 2.6. */
  lemma CrowdExceedsAllowance()
    ensures Valid(Slow()) && Accepted(Slow(), CrowdedMinute(), Guest(0)) == 4
    ensures 4.0 > Slow().burst + MINUTE * Slow().rate
  {
    hide Accepted, Run, After, Accepts;
    var k := Guest(0);
    var first, last := [Request(k, 0.0), Request(k, 0.0)], [Request(k, MINUTE), Request(k, MINUTE)];
    var l := Slow().(buckets := map[k := Bucket(0.0, 0.0)]);
    FirstTwo();
    assert l.buckets.Keys == {k};
    GuestsArrive(l, CROWD);
    RunOn(Slow(), first, Guests(CROWD), k);
    RunOn(Slow(), first + Guests(CROWD), last, k);
    LastTwo(Run(l, Guests(CROWD)), k);
  }
}
