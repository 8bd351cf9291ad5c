/** The per-client token bucket (agent/src/security/rate_limit.rs), over the reals. */
module RateLimit {
  datatype Client = Client(name: string)
  datatype Bucket = Bucket(tokens: real, last: real)
  datatype Limiter = Limiter(rate: real, burst: real, buckets: map<Client, Bucket>)

  const CROWD: nat := 10_000
  const MINUTE := 60.0

  ghost predicate Valid(l: Limiter) {
    && l.rate > 0.0 && l.burst >= 1.0
    && forall k :: k in l.buckets ==> 0.0 <= l.buckets[k].tokens <= l.burst
  }

  /** `RateLimiter::new`. */
  function New(rate: real, burst: nat): Limiter {
    Limiter(if rate < 0.001 then 0.001 else rate, if burst < 1 then 1.0 else burst as real, map[])
  }

  /** `duration_since` saturates at zero. */
  function Elapsed(now: real, last: real): real { if now < last then 0.0 else now - last }

  function Least(a: real, b: real): real { if a < b then a else b }

  /** In a crowd, buckets unused for a minute are dropped. */
  function Pruned(l: Limiter, now: real): Limiter {
    if |l.buckets| > CROWD then
      l.(buckets := map k | k in l.buckets && Elapsed(now, l.buckets[k].last) < MINUTE :: l.buckets[k])
    else l
  }

  /** What client `k` can spend at `now`. */
  function Level(l: Limiter, k: Client, now: real): real {
    if k in l.buckets then Least(l.buckets[k].tokens + Elapsed(now, l.buckets[k].last) * l.rate, l.burst) else l.burst
  }

  predicate Accepts(l: Limiter, k: Client, now: real) {
    Level(Pruned(l, now), k, now) >= 1.0
  }

  /** The state after `check_at`. */
  function After(l: Limiter, k: Client, now: real): Limiter {
    var p := Pruned(l, now);
    var level := Level(p, k, now);
    p.(buckets := p.buckets[k := Bucket(if level >= 1.0 then level - 1.0 else level, now)])
  }

  class RateLimiter {
    const rate: real
    const burst: real
    var buckets: map<Client, Bucket>

    ghost function View(): Limiter
      reads this
    {
      Limiter(rate, burst, buckets)
    }

    constructor (rate: real, burst: nat)
      ensures View() == New(rate, burst) && Valid(View())
    {
      this.rate := if rate < 0.001 then 0.001 else rate;
      this.burst := if burst < 1 then 1.0 else burst as real;
      buckets := map[];
    }

    /** `check_at`. */
    method CheckAt(k: Client, now: real) returns (ok: bool)
      requires Valid(View())
      modifies this
      ensures Valid(View())
      ensures View() == After(old(View()), k, now) && ok == Accepts(old(View()), k, now)
    {
      hide Valid;
      AfterIsValid(View(), k, now);
      if |buckets| > CROWD {
        buckets := map j | j in buckets && Elapsed(now, buckets[j].last) < MINUTE :: buckets[j];
      }
      assert View() == Pruned(old(View()), now);
      if k !in buckets { buckets := buckets[k := Bucket(burst, now)]; }
      var b := buckets[k];
      var tokens := Least(b.tokens + Elapsed(now, b.last) * rate, burst);
      assert tokens == Level(Pruned(old(View()), now), k, now);
      ok := tokens >= 1.0;
      if ok { tokens := tokens - 1.0; }
      buckets := buckets[k := Bucket(tokens, now)];
      assert buckets == After(old(View()), k, now).buckets;
    }
  }

  // ------------------------------------------------------------------ one check

  lemma Product(a: real, b: real)
    requires a >= 0.0 && b >= 0.0
    ensures a * b >= 0.0
  {
  }

  lemma LevelInRange(l: Limiter, k: Client, now: real)
    requires Valid(l)
    ensures 0.0 <= Level(l, k, now) <= l.burst
  {
    if k in l.buckets { Product(Elapsed(now, l.buckets[k].last), l.rate); }
  }

  lemma PrunedIsValid(l: Limiter, now: real)
    requires Valid(l)
    ensures Valid(Pruned(l, now))
  {
  }

  /** Tokens stay between zero and the burst. */
  lemma AfterIsValid(l: Limiter, k: Client, now: real)
    requires Valid(l)
    ensures Valid(After(l, k, now))
  {
    PrunedIsValid(l, now);
    LevelInRange(Pruned(l, now), k, now);
  }

  /** Nothing is forgotten that matters: no crowd, or a minute refills any bucket. */
  predicate Remembers(l: Limiter) {
    |l.buckets| <= CROWD || l.burst <= MINUTE * l.rate
  }

  lemma Times(a: real, b: real, c: real)
    requires a <= b && c >= 0.0
    ensures a * c <= b * c
  {
    Product(b - a, c);
    assert (b - a) * c == b * c - a * c;
  }

  lemma PruningIsHarmless(l: Limiter, k: Client, now: real)
    requires Valid(l) && Remembers(l)
    ensures Level(Pruned(l, now), k, now) == Level(l, k, now)
  {
    if k in l.buckets && |l.buckets| > CROWD && Elapsed(now, l.buckets[k].last) >= MINUTE {
      Times(MINUTE, Elapsed(now, l.buckets[k].last), l.rate);
    }
  }

  /** A bucket that pruning drops although it has not refilled. */
  predicate Forgotten(l: Limiter, k: Client, now: real) {
    && k in l.buckets && |l.buckets| > CROWD && Elapsed(now, l.buckets[k].last) >= MINUTE
    && l.buckets[k].tokens + Elapsed(now, l.buckets[k].last) * l.rate < l.burst
  }

  /** Pruning changes what a client can spend iff it drops a bucket that had not refilled. */
  lemma PruningForgivesIff(l: Limiter, k: Client, now: real)
    requires Valid(l)
    ensures Level(Pruned(l, now), k, now) != Level(l, k, now) <==> Forgotten(l, k, now)
    ensures Forgotten(l, k, now) ==> Level(Pruned(l, now), k, now) == l.burst
  {
  }

  /** Waiting adds at most `rate` tokens per second. */
  lemma LevelGrows(l: Limiter, k: Client, now: real, later: real)
    requires Valid(l) && now <= later && (k in l.buckets ==> l.buckets[k].last <= now)
    ensures Level(l, k, later) <= Level(l, k, now) + (later - now) * l.rate
    ensures Level(l, k, now) <= Level(l, k, later)
  {
    Product(later - now, l.rate);
    if k in l.buckets {
      var b := l.buckets[k];
      assert (later - b.last) * l.rate == (now - b.last) * l.rate + (later - now) * l.rate;
    }
  }

  lemma SpendsOne(l: Limiter, k: Client, now: real)
    requires Valid(l) && Remembers(l)
    ensures Level(After(l, k, now), k, now) == Level(l, k, now) - if Accepts(l, k, now) then 1.0 else 0.0
  {
    PruningIsHarmless(l, k, now);
    LevelInRange(l, k, now);
  }

  /** A client's request changes what another can spend iff pruning drops the other's bucket before it
      has refilled; nothing else passes between clients. */
  lemma OthersKeepTheirLevelIff(l: Limiter, k: Client, other: Client, now: real)
    requires Valid(l) && k != other
    ensures Level(After(l, k, now), other, now) == Level(l, other, now) <==> !Forgotten(l, other, now)
    ensures Level(After(l, k, now), other, now) == Level(Pruned(l, now), other, now)
    ensures other in l.buckets && other in After(l, k, now).buckets ==> After(l, k, now).buckets[other] == l.buckets[other]
  {
    PruningForgivesIff(l, other, now);
  }

  // ------------------------------------------------------------------ runs

  datatype Request = Request(client: Client, now: real)

  ghost function Run(l: Limiter, rs: seq<Request>): Limiter {
    if rs == [] then l else After(Run(l, rs[..|rs| - 1]), rs[|rs| - 1].client, rs[|rs| - 1].now)
  }

  /** How many requests of client `k` are accepted. */
  ghost function Accepted(l: Limiter, rs: seq<Request>, k: Client): nat {
    if rs == [] then 0
    else
      var n := |rs| - 1;
      Accepted(l, rs[..n], k) + if rs[n].client == k && Accepts(Run(l, rs[..n]), k, rs[n].now) then 1 else 0
  }

  predicate InOrder(rs: seq<Request>) {
    forall i, j :: 0 <= i < j < |rs| ==> rs[i].now <= rs[j].now
  }

  function Clients(rs: seq<Request>): set<Client> {
    set i | 0 <= i < |rs| :: rs[i].client
  }

  /** Clocks of the buckets do not run ahead. */
  ghost predicate Settled(l: Limiter, now: real) {
    Valid(l) && forall k :: k in l.buckets ==> l.buckets[k].last <= now
  }

  lemma Subsets(a: set<Client>, b: set<Client>)
    requires a <= b
    ensures |a| <= |b|
  {
    assert |b| == |a| + |b - a| by { assert b == a + (b - a); }
  }

  /** Either few enough clients take part, or a minute refills any bucket. */
  predicate FewClients(l: Limiter, rs: seq<Request>) {
    |l.buckets.Keys + Clients(rs)| <= CROWD || l.burst <= MINUTE * l.rate
  }

  lemma StepFacts(l: Limiter, k: Client, time: real, now: real)
    requires Settled(l, now) && time <= now
    ensures Settled(After(l, k, time), now)
    ensures After(l, k, time).rate == l.rate && After(l, k, time).burst == l.burst
    ensures After(l, k, time).buckets.Keys <= l.buckets.Keys + {k}
  {
    AfterIsValid(l, k, time);
  }

  lemma ClientsGrow(rs: seq<Request>, n: nat)
    requires n <= |rs|
    ensures Clients(rs[..n]) <= Clients(rs)
  {
    forall c | c in Clients(rs[..n]) ensures c in Clients(rs) {
      var i :| 0 <= i < n && rs[..n][i].client == c;
      assert rs[i].client == c;
    }
  }

  lemma FewerClients(l: Limiter, rs: seq<Request>, n: nat)
    requires FewClients(l, rs) && n <= |rs|
    ensures FewClients(l, rs[..n])
  {
    ClientsGrow(rs, n);
    Subsets(l.buckets.Keys + Clients(rs[..n]), l.buckets.Keys + Clients(rs));
  }

  lemma FewBuckets(l: Limiter, rs: seq<Request>, m: Limiter)
    requires FewClients(l, rs) && m.buckets.Keys <= l.buckets.Keys + Clients(rs) && m.rate == l.rate && m.burst == l.burst
    ensures Remembers(m)
  {
    Subsets(m.buckets.Keys, l.buckets.Keys + Clients(rs));
    assert |m.buckets| == |m.buckets.Keys|;
  }

  lemma {:induction false} RunFacts(l: Limiter, rs: seq<Request>, now: real)
    requires InOrder(rs) && FewClients(l, rs) && Settled(l, now) && (rs != [] ==> rs[|rs| - 1].now <= now)
    ensures Settled(Run(l, rs), now) && Remembers(Run(l, rs))
    ensures Run(l, rs).rate == l.rate && Run(l, rs).burst == l.burst
    ensures Run(l, rs).buckets.Keys <= l.buckets.Keys + Clients(rs)
    decreases |rs|
  {
    hide After, Settled, FewClients, Remembers;
    if rs != [] {
      var n := |rs| - 1;
      ClientsGrow(rs, n);
      FewerClients(l, rs, n);
      assert rs[n].client in Clients(rs);
      assert n > 0 ==> rs[..n][n - 1].now <= rs[n].now;
      RunFacts(l, rs[..n], now);
      StepFacts(Run(l, rs[..n]), rs[n].client, rs[n].now, now);
    }
    FewBuckets(l, rs, Run(l, rs));
  }

  /** What client `k` has spent and can still spend, against what it may get by then. */
  ghost predicate Covered(l: Limiter, rs: seq<Request>, k: Client, now: real, allowance: real) {
    Accepted(l, rs, k) as real + Level(Run(l, rs), k, now) <= l.burst + allowance
  }

  /** What a client may get between two times. */
  function Refill(from: real, to: real, rate: real): real { (to - from) * rate }

  lemma {:induction false} Balance(l: Limiter, rs: seq<Request>, k: Client, start: real)
    requires InOrder(rs) && FewClients(l, rs) && Settled(l, start) && rs != [] && start <= rs[0].now
    ensures Covered(l, rs, k, rs[|rs| - 1].now, Refill(start, rs[|rs| - 1].now, l.rate))
    decreases |rs|
  {
    hide Covered, FewClients, Settled, Run, Accepted, Refill;
    var n := |rs| - 1;
    var front, now := rs[..n], rs[n].now;
    FrontFacts(l, rs, start);
    if n == 0 {
      StartsCovered(l, k, start, now);
      assert front == [];
    } else {
      Balance(l, front, k, start);
      var past := front[n - 1].now;
      TimeCovers(l, front, k, past, now, Refill(start, past, l.rate));
      Stretches(start, past, now, l.rate);
    }
    StepCovers(l, rs, k, now, Refill(start, now, l.rate));
  }

  lemma StartsCovered(l: Limiter, k: Client, start: real, now: real)
    requires Settled(l, start) && start <= now
    ensures Covered(l, [], k, now, Refill(start, now, l.rate))
  {
    hide Level;
    LevelInRange(l, k, now);
    Product(now - start, l.rate);
    assert Accepted(l, [], k) == 0 && Run(l, []) == l;
    assert Refill(start, now, l.rate) >= 0.0;
  }

  lemma TimeCovers(l: Limiter, rs: seq<Request>, k: Client, now: real, later: real, allowance: real)
    requires Covered(l, rs, k, now, allowance) && Settled(Run(l, rs), now) && now <= later && Run(l, rs).rate == l.rate
    ensures Covered(l, rs, k, later, allowance + Refill(now, later, l.rate))
  {
    hide Level, Run, Accepted;
    LevelGrows(Run(l, rs), k, now, later);
  }

  lemma StepCovers(l: Limiter, rs: seq<Request>, k: Client, now: real, allowance: real)
    requires rs != [] && rs[|rs| - 1].now == now && Covered(l, rs[..|rs| - 1], k, now, allowance)
    requires Valid(Run(l, rs[..|rs| - 1])) && Remembers(Run(l, rs[..|rs| - 1]))
    ensures Covered(l, rs, k, now, allowance)
  {
    hide Level, After, Accepts, Valid, Remembers;
    StepBalance(Run(l, rs[..|rs| - 1]), k, rs[|rs| - 1].client, now);
  }

  lemma Stretches(a: real, b: real, c: real, rate: real)
    ensures Refill(a, c, rate) == Refill(a, b, rate) + Refill(b, c, rate)
  {
  }

  lemma FrontFacts(l: Limiter, rs: seq<Request>, start: real)
    requires InOrder(rs) && FewClients(l, rs) && Settled(l, start) && rs != [] && start <= rs[0].now
    ensures
      var front := rs[..|rs| - 1];
      var now := if front == [] then start else front[|front| - 1].now;
      && FewClients(l, front) && InOrder(front) && start <= rs[|rs| - 1].now && now <= rs[|rs| - 1].now
      && Settled(Run(l, front), now) && Valid(Run(l, front)) && Remembers(Run(l, front)) && Run(l, front).rate == l.rate && Run(l, front).burst == l.burst
  {
    hide Run;
    var n := |rs| - 1;
    var front := rs[..n];
    FewerClients(l, rs, n);
    assert n > 0 ==> rs[0].now <= front[n - 1].now && front[n - 1].now <= rs[n].now;
    RunFacts(l, front, if front == [] then start else front[n - 1].now);
  }

  /** One check moves at most one token from the level of `k` to its count. */
  lemma StepBalance(l: Limiter, k: Client, who: Client, now: real)
    requires Valid(l) && Remembers(l)
    ensures Level(After(l, who, now), k, now) + (if who == k && Accepts(l, k, now) then 1.0 else 0.0) == Level(l, k, now)
  {
    if who == k {
      SpendsOne(l, k, now);
    } else {
      OthersKeepTheirLevelIff(l, who, k, now);
      PruningIsHarmless(l, k, now);
    }
  }

  /**
   With all readings in order: in any stretch of a run, from `start` to its last request, a client
   is accepted at most burst + rate * length times, also in a crowd whose buckets refill within a
   minute.
   */
  lemma AcceptedInOrder(l: Limiter, rs: seq<Request>, k: Client, start: real)
    requires InOrder(rs) && FewClients(l, rs) && Settled(l, start) && rs != [] && start <= rs[0].now
    ensures Accepted(l, rs, k) as real <= l.burst + Refill(start, rs[|rs| - 1].now, l.rate)
  {
    hide Level, After, Run, Accepted, FewClients, Remembers;
    Balance(l, rs, k, start);
    FrontFacts(l, rs, start);
    RunLast(l, rs);
    LevelInRange(Run(l, rs), k, rs[|rs| - 1].now);
  }

  lemma RunLast(l: Limiter, rs: seq<Request>)
    requires rs != [] && Valid(Run(l, rs[..|rs| - 1]))
    ensures Valid(Run(l, rs))
  {
    hide After, Valid;
    AfterIsValid(Run(l, rs[..|rs| - 1]), rs[|rs| - 1].client, rs[|rs| - 1].now);
  }

  /** The other direction: requests of one client at one time are all served while its level lasts, so
      a client that was not seen before gets its whole burst at once. */
  lemma {:induction false} LevelIsServed(l: Limiter, rs: seq<Request>, k: Client, now: real)
    requires Settled(l, now) && FewClients(l, rs) && forall i :: 0 <= i < |rs| ==> rs[i] == Request(k, now)
    requires |rs| as real <= Level(l, k, now)
    ensures Accepted(l, rs, k) == |rs| && Level(Run(l, rs), k, now) == Level(l, k, now) - |rs| as real
    decreases |rs|
  {
    hide Level, After, Accepts, FewClients, Valid;
    if rs != [] {
      var n := |rs| - 1;
      FewerClients(l, rs, n);
      LevelIsServed(l, rs[..n], k, now);
      RunFacts(l, rs[..n], now);
      SpendsOne(Run(l, rs[..n]), k, now);
      AcceptsIff(Run(l, rs[..n]), k, now);
    }
  }

  lemma AcceptsIff(l: Limiter, k: Client, now: real)
    requires Valid(l) && Remembers(l)
    ensures Accepts(l, k, now) <==> Level(l, k, now) >= 1.0
  {
    PruningIsHarmless(l, k, now);
  }

  /** The clock must not run backwards: here one client with burst 1 is served twice at time 10. */
  lemma BackwardsClockRefills(k: Client)
    ensures
      var l := New(1.0, 1);
      var rs := [Request(k, 10.0), Request(k, 9.0), Request(k, 10.0)];
      Accepts(l, k, 10.0) && Accepts(Run(l, rs[..2]), k, 10.0)
  {
    var l := New(1.0, 1);
    var rs := [Request(k, 10.0), Request(k, 9.0), Request(k, 10.0)];
    assert rs[..1][..0] == [] && rs[..2][..1] == rs[..1];
    var l1 := After(l, k, 10.0);
    assert Run(l, rs[..1]) == l1 && l1.buckets[k] == Bucket(0.0, 10.0);
    var l2 := After(l1, k, 9.0);
    assert Run(l, rs[..2]) == l2;
    assert l1.buckets == map[k := Bucket(0.0, 10.0)];
    assert |l1.buckets| == 1;
    assert l2.buckets[k] == Bucket(0.0, 9.0);
    assert l2.buckets == map[k := Bucket(0.0, 9.0)];
    assert |l2.buckets| == 1;
  }
}
