/** The token-bucket rate limiter of api/server_security.hpp. Reals stand for
    doubles and for times in seconds. */
module RateLimiter {

  datatype Config = Config(rate: int, burst: int)

  datatype Bucket = Bucket(tokens: real, last: real)

  type Buckets = map<string, Bucket>

  // ---------- one request, buckets never evicted ----------

  /** Tokens earned between two moments. */
  function Earned(c: Config, from: real, to: real): real {
    (to - from) * c.rate as real
  }

  function Refilled(c: Config, b: Bucket, now: real): real {
    var t := b.tokens + Earned(c, b.last, now);
    if t < c.burst as real then t else c.burst as real
  }

  /** Tokens the key has at the time of the request. */
  function Available(c: Config, buckets: Buckets, key: string, now: real): real {
    if key in buckets then Refilled(c, buckets[key], now) else c.burst as real
  }

  function Allows(c: Config, buckets: Buckets, key: string, now: real): bool {
    Available(c, buckets, key, now) >= 1.0
  }

  function After(c: Config, buckets: Buckets, key: string, now: real): Buckets {
    var t := Available(c, buckets, key, now);
    buckets[key := Bucket(if t >= 1.0 then t - 1.0 else t, now)]
  }

  // ---------- evicting buckets that are full again ----------

  function FullAfter(c: Config): real {
    if c.rate > 0 then c.burst as real / c.rate as real else 0.0
  }

  predicate Evicted(c: Config, b: Bucket, now: real) {
    now - b.last >= FullAfter(c)
  }

  function Pruned(c: Config, buckets: Buckets, now: real): Buckets {
    buckets - set k | k in buckets && Evicted(c, buckets[k], now)
  }

  /** Buckets are evicted when there are max of them. */
  function Kept(c: Config, max: nat, buckets: Buckets, now: real): Buckets {
    if |buckets| >= max then Pruned(c, buckets, now) else buckets
  }

  const MAX_BUCKETS := 100000

  class RateLimiter {
    const c: Config
    const max: nat
    var buckets: Buckets

    constructor (c: Config)
      ensures this.c == c && max == MAX_BUCKETS && buckets == map[]
    {
      this.c, max, buckets := c, MAX_BUCKETS, map[];
    }

    method Allow(key: string, now: real) returns (ok: bool)
      modifies this
      ensures ok == Allows(c, Kept(c, max, old(buckets), now), key, now)
      ensures buckets == After(c, Kept(c, max, old(buckets), now), key, now)
    {
      hide Earned, FullAfter, Pruned;
      if |buckets| >= max { Prune(now); }
      var b: Bucket;
      if key !in buckets {
        b := Bucket(c.burst as real, now);
      } else {
        b := buckets[key];
        var t := b.tokens + Earned(c, b.last, now);
        b := Bucket(if t < c.burst as real then t else c.burst as real, now);
      }
      ok := b.tokens >= 1.0;
      if ok { b := b.(tokens := b.tokens - 1.0); }
      buckets := buckets[key := b];
    }

    method Prune(now: real)
      modifies this
      ensures buckets == Pruned(c, old(buckets), now)
    {
      var fullAfter := FullAfter(c);
      hide FullAfter;
      ghost var was := buckets;
      var rest := buckets.Keys;
      while rest != {}
        invariant rest <= was.Keys
        invariant buckets == was - set k | k in was && k !in rest && Evicted(c, was[k], now)
      {
        var k :| k in rest;
        if now - buckets[k].last >= fullAfter { buckets := buckets - {k}; }
        rest := rest - {k};
      }
    }
  }

  // ---------- runs ----------

  datatype Request = Request(key: string, time: real)

  predicate InOrder(reqs: seq<Request>) {
    forall i, j :: 0 <= i < j < |reqs| ==> reqs[i].time <= reqs[j].time
  }

  /** The buckets after a run without eviction. */
  function Plain(c: Config, reqs: seq<Request>): Buckets {
    if reqs == [] then map[]
    else
      var r := reqs[|reqs| - 1];
      After(c, Plain(c, reqs[..|reqs| - 1]), r.key, r.time)
  }

  /** The buckets after the same run with eviction. */
  function Evicting(c: Config, max: nat, reqs: seq<Request>): Buckets {
    if reqs == [] then map[]
    else
      var r := reqs[|reqs| - 1];
      After(c, Kept(c, max, Evicting(c, max, reqs[..|reqs| - 1]), r.time), r.key, r.time)
  }

  /** The answer to request i of the run. */
  predicate Answer(c: Config, max: nat, reqs: seq<Request>, i: nat)
    requires i < |reqs|
  {
    Allows(c, Kept(c, max, Evicting(c, max, reqs[..i]), reqs[i].time), reqs[i].key, reqs[i].time)
  }

  predicate PlainAnswer(c: Config, reqs: seq<Request>, i: nat)
    requires i < |reqs|
  {
    Allows(c, Plain(c, reqs[..i]), reqs[i].key, reqs[i].time)
  }

  // ---------- eviction is invisible ----------

  /** What a run keeps: tokens are never negative and no bucket is newer than now. */
  ghost predicate Sound(buckets: Buckets, now: real) {
    forall k {:trigger buckets[k]} :: k in buckets ==> buckets[k].tokens >= 0.0 && buckets[k].last <= now
  }

  /** p is u without some buckets that are full again by now. */
  ghost predicate FullElsewhere(c: Config, p: Buckets, u: Buckets, now: real) {
    && p.Keys <= u.Keys
    && (forall k {:trigger p[k]} :: k in p ==> p[k] == u[k])
    && forall k {:trigger u[k]} :: k in u && k !in p ==> Refilled(c, u[k], now) == c.burst as real
  }

  lemma MoreTime(c: Config, from: real, now: real, later: real)
    requires c.rate > 0 && from <= now <= later
    ensures 0.0 <= Earned(c, from, now) <= Earned(c, from, later)
    ensures Earned(c, from, now) + Earned(c, now, later) == Earned(c, from, later)
  {
    var rate := c.rate as real;
    assert (later - from) * rate == (now - from) * rate + (later - now) * rate;
    Product(later - now, rate);
    Product(now - from, rate);
  }

  lemma Product(x: real, y: real)
    requires x >= 0.0 && y >= 0.0
    ensures x * y >= 0.0
  {
  }

  lemma LongEnough(elapsed: real, burst: real, rate: real)
    requires rate > 0.0 && elapsed >= burst / rate
    ensures elapsed * rate >= burst
  {
    assert burst == (burst / rate) * rate;
    Product(elapsed - burst / rate, rate);
    assert elapsed * rate == (elapsed - burst / rate) * rate + (burst / rate) * rate;
  }

  /** An evicted bucket would have been full. */
  lemma EvictedIsFull(c: Config, b: Bucket, now: real)
    requires c.rate > 0 && b.tokens >= 0.0 && Evicted(c, b, now)
    ensures Refilled(c, b, now) == c.burst as real
  {
    EarnedEnough(c, b.last, now);
    hide Earned, FullAfter;
  }

  lemma EarnedEnough(c: Config, last: real, now: real)
    requires c.rate > 0 && now - last >= FullAfter(c)
    ensures Earned(c, last, now) >= c.burst as real
  {
    LongEnough(now - last, c.burst as real, c.rate as real);
  }

  lemma StaysFull(c: Config, b: Bucket, now: real, later: real)
    requires c.rate > 0 && b.last <= now <= later && Refilled(c, b, now) == c.burst as real
    ensures Refilled(c, b, later) == c.burst as real
  {
    MoreTime(c, b.last, now, later);
    hide Earned;
  }

  lemma SoundAfter(c: Config, u: Buckets, key: string, now: real)
    requires c.rate > 0 && c.burst >= 0 && Sound(u, now)
    ensures Sound(After(c, u, key, now), now)
  {
    if key in u { MoreTime(c, u[key].last, u[key].last, now); MoreTime(c, u[key].last, now, now); }
    hide Earned;
    assert Available(c, u, key, now) >= 0.0;
    var u2 := After(c, u, key, now);
    forall k | k in u2 ensures u2[k].tokens >= 0.0 && u2[k].last <= now {
      assert k != key ==> u2[k] == u[k];
    }
  }

  /** Eviction changes no answer, and the relation survives the request. */
  lemma SameAnswer(c: Config, max: nat, p: Buckets, u: Buckets, before: real, key: string, now: real)
    requires c.rate > 0 && c.burst >= 0 && before <= now && Sound(u, before) && FullElsewhere(c, p, u, before)
    ensures Allows(c, Kept(c, max, p, now), key, now) == Allows(c, u, key, now)
    ensures FullElsewhere(c, After(c, Kept(c, max, p, now), key, now), After(c, u, key, now), now)
  {
    var q := Kept(c, max, p, now);
    forall k | k in u && k !in q ensures Refilled(c, u[k], now) == c.burst as real {
      if k in p {
        EvictedIsFull(c, u[k], now);
      } else {
        StaysFull(c, u[k], before, now);
      }
    }
    assert FullElsewhere(c, q, u, now);
    hide Refilled;
    assert Available(c, q, key, now) == Available(c, u, key, now);
  }

  lemma {:induction false} RunsAgree(c: Config, max: nat, reqs: seq<Request>, now: real)
    requires c.rate > 0 && c.burst >= 0 && InOrder(reqs) && forall i :: 0 <= i < |reqs| ==> reqs[i].time <= now
    ensures Sound(Plain(c, reqs), now) && FullElsewhere(c, Evicting(c, max, reqs), Plain(c, reqs), now)
  {
    if reqs != [] {
      var init, r := reqs[..|reqs| - 1], reqs[|reqs| - 1];
      RunsAgree(c, max, init, r.time);
      SameAnswer(c, max, Evicting(c, max, init), Plain(c, init), r.time, r.key, r.time);
      SoundAfter(c, Plain(c, init), r.key, r.time);
      var u := Plain(c, reqs);
      assert u == After(c, Plain(c, init), r.key, r.time);
      assert Sound(u, r.time) && FullElsewhere(c, Evicting(c, max, reqs), u, r.time);
      forall k | k in u && k !in Evicting(c, max, reqs) ensures Refilled(c, u[k], now) == c.burst as real {
        StaysFull(c, u[k], r.time, now);
      }
    }
  }

  lemma SmallBurstRefuses(c: Config, buckets: Buckets, key: string, now: real)
    requires c.burst < 1
    ensures !Allows(c, buckets, key, now)
  {
    assert Available(c, buckets, key, now) <= c.burst as real;
  }

  /** Evicting full buckets never changes an answer. */
  lemma PruningIsInvisible(c: Config, max: nat, reqs: seq<Request>, i: nat)
    requires c.rate > 0 || c.burst < 1
    requires InOrder(reqs) && i < |reqs|
    ensures Answer(c, max, reqs, i) == PlainAnswer(c, reqs, i)
  {
    var now := reqs[i].time;
    if c.burst < 1 {
      SmallBurstRefuses(c, Kept(c, max, Evicting(c, max, reqs[..i]), now), reqs[i].key, now);
      SmallBurstRefuses(c, Plain(c, reqs[..i]), reqs[i].key, now);
    } else {
      RunsAgree(c, max, reqs[..i], now);
      SameAnswer(c, max, Evicting(c, max, reqs[..i]), Plain(c, reqs[..i]), now, reqs[i].key, now);
    }
  }

  // ---------- without a rate, eviction forgets who is out of tokens ----------

  /** Clients, told apart by the lengths of their keys. */
  function Client(n: nat): (key: string)
    ensures |key| == n
  {
    if n == 0 then "" else Client(n - 1) + "x"
  }

  /** How many others have come by request n. */
  function Others(c: Config, n: nat): nat {
    if n <= c.burst then 0 else n - c.burst
  }

  /** Client 0 spends its whole burst, then others come, each once, all at one moment. */
  function Flood(c: Config, n: nat): (reqs: seq<Request>)
    requires c.burst >= 1
    ensures |reqs| == n && forall i :: 0 <= i < n ==> reqs[i].time == 0.0
  {
    if n == 0 then []
    else Flood(c, n - 1) + [Request(Client(Others(c, n)), 0.0)]
  }

  lemma FloodStep(c: Config, n: nat)
    requires c.burst >= 1 && n > 0
    ensures Flood(c, n)[..n - 1] == Flood(c, n - 1)
    ensures Flood(c, n)[n - 1] == Request(Client(Others(c, n)), 0.0)
  {
  }

  /** At the same moment a bucket holds what it held. */
  lemma NoTimeNoTokens(c: Config, b: Bucket)
    requires b.last == 0.0 && b.tokens <= c.burst as real
    ensures Refilled(c, b, 0.0) == b.tokens
  {
  }

  lemma {:induction false} PlainFlood(c: Config, n: nat)
    requires c.burst >= 1
    ensures var u := Plain(c, Flood(c, n));
      var left := if n < c.burst then c.burst - n else 0;
      if n == 0 then u == map[] else Client(0) in u && u[Client(0)] == Bucket(left as real, 0.0)
  {
    if n > 0 {
      PlainFlood(c, n - 1);
      FloodStep(c, n);
      if 1 < n <= c.burst { NoTimeNoTokens(c, Plain(c, Flood(c, n - 1))[Client(0)]); }
      hide Refilled;
    }
  }

  /** Client 0 and `others` more have a bucket, all used at time 0. */
  predicate Seated(p: Buckets, others: nat) {
    && Client(0) in p && p[Client(0)].last == 0.0
    && |p| == 1 + others && forall k :: k in p ==> |k| <= others
  }

  lemma SeatOne(c: Config, p: Buckets, n: nat)
    requires c.burst >= 1 && n > 0 && if n == 1 then p == map[] else Seated(p, Others(c, n - 1))
    ensures Seated(After(c, p, Client(Others(c, n)), 0.0), Others(c, n))
  {
    hide Available;
    var key := Client(Others(c, n));
    var p2 := After(c, p, key, 0.0);
    assert p2.Keys == p.Keys + {key};
  }

  /** While there are fewer than max clients, nobody is evicted. */
  lemma {:induction false} EvictingFlood(c: Config, max: nat, n: nat)
    requires c.burst >= 1 && n > 0 && max > 1 && n < c.burst + max
    ensures Seated(Evicting(c, max, Flood(c, n)), Others(c, n))
  {
    FloodStep(c, n);
    if n > 1 { EvictingFlood(c, max, n - 1); }
    hide After, Pruned;
    var p := Evicting(c, max, Flood(c, n - 1));
    assert Kept(c, max, p, 0.0) == p;
    SeatOne(c, p, n);
  }

  lemma LastOneIsSeated(c: Config, max: nat)
    requires c.burst >= 1
    ensures var p := Evicting(c, max, Flood(c, c.burst));
      Client(0) in p && p[Client(0)].last == 0.0
  {
    FloodStep(c, c.burst);
    hide Kept, Available;
  }

  /** The run that eviction answers differently. */
  function Forgotten(c: Config, max: nat): seq<Request>
    requires c.burst >= 1 && max >= 1
  {
    Flood(c, c.burst + max - 1) + [Request(Client(0), 0.0)]
  }

  lemma ForgottenTwice(c: Config, max: nat)
    requires c.rate <= 0 && c.burst >= 1 && max >= 1
    ensures var reqs := Forgotten(c, max);
      var i := |reqs| - 1;
      InOrder(reqs) && Answer(c, max, reqs, i) && !PlainAnswer(c, reqs, i)
  {
    var n := c.burst + max - 1;
    var reqs := Forgotten(c, max);
    assert reqs[..n] == Flood(c, n);
    PlainFlood(c, n);
    NoTimeNoTokens(c, Bucket(0.0, 0.0));
    var p := Evicting(c, max, Flood(c, n));
    if max == 1 {
      LastOneIsSeated(c, max);
      assert p.Keys != {};
    } else {
      EvictingFlood(c, max, n);
    }
    hide Evicting, Flood, Refilled, Plain;
    assert Client(0) !in Kept(c, max, p, 0.0);
  }

  /** Exactly when evicting buckets never changes an answer. */
  lemma EvictionIsInvisibleIff(c: Config, max: nat)
    requires max >= 1
    ensures (forall reqs: seq<Request>, i: nat :: InOrder(reqs) && i < |reqs| ==> Answer(c, max, reqs, i) == PlainAnswer(c, reqs, i))
      <==> c.rate > 0 || c.burst < 1
  {
    if c.rate > 0 || c.burst < 1 {
      forall reqs: seq<Request>, i: nat | InOrder(reqs) && i < |reqs|
        ensures Answer(c, max, reqs, i) == PlainAnswer(c, reqs, i)
      {
        PruningIsInvisible(c, max, reqs, i);
      }
    } else {
      ForgottenTwice(c, max);
    }
  }

  // ---------- how many requests get through ----------

  /** Requests of the key that the limiter allowed between lo and hi. */
  function AllowedIn(c: Config, max: nat, reqs: seq<Request>, key: string, lo: real, hi: real): nat {
    if reqs == [] then 0
    else
      var n := |reqs| - 1;
      AllowedIn(c, max, reqs[..n], key, lo, hi)
      + if reqs[n].key == key && lo <= reqs[n].time <= hi && Answer(c, max, reqs, n) then 1 else 0
  }

  /** The same count for a limiter that keeps every bucket. */
  function PlainIn(c: Config, reqs: seq<Request>, key: string, lo: real, hi: real): nat {
    if reqs == [] then 0
    else
      var n := |reqs| - 1;
      PlainIn(c, reqs[..n], key, lo, hi)
      + if reqs[n].key == key && lo <= reqs[n].time <= hi && PlainAnswer(c, reqs, n) then 1 else 0
  }

  lemma {:induction false} SameCount(c: Config, max: nat, reqs: seq<Request>, key: string, lo: real, hi: real)
    requires c.rate > 0 && InOrder(reqs)
    ensures AllowedIn(c, max, reqs, key, lo, hi) == PlainIn(c, reqs, key, lo, hi)
  {
    if reqs != [] {
      var n := |reqs| - 1;
      SameCount(c, max, reqs[..n], key, lo, hi);
      PruningIsInvisible(c, max, reqs, n);
    }
  }

  /** While requests in the window get through, tokens are spent. */
  ghost predicate Spent(c: Config, reqs: seq<Request>, key: string, lo: real, hi: real) {
    var n := PlainIn(c, reqs, key, lo, hi);
    var u := Plain(c, reqs);
    n > 0 ==>
      && key in u && lo <= u[key].last
      && n as real + u[key].tokens <= c.burst as real + Earned(c, lo, u[key].last)
      && n as real <= c.burst as real + Earned(c, lo, hi)
  }

  lemma {:induction false} WindowSpent(c: Config, reqs: seq<Request>, key: string, lo: real, hi: real)
    requires c.rate > 0 && c.burst >= 0 && InOrder(reqs) && lo <= hi
    ensures Spent(c, reqs, key, lo, hi)
  {
    if reqs != [] {
      var n := |reqs| - 1;
      var init, r := reqs[..n], reqs[n];
      WindowSpent(c, init, key, lo, hi);
      RunsAgree(c, 0, init, r.time);
      hide InOrder;
      if r.key == key {
        OneRequest(c, reqs, key, lo, hi);
      } else {
        OtherRequest(c, reqs, key, lo, hi);
      }
    }
  }

  lemma OtherRequest(c: Config, reqs: seq<Request>, key: string, lo: real, hi: real)
    requires reqs != [] && reqs[|reqs| - 1].key != key && Spent(c, reqs[..|reqs| - 1], key, lo, hi)
    ensures Spent(c, reqs, key, lo, hi)
  {
    hide Available, PlainAnswer;
  }

  /** Numbers only: n requests so far, `token` left at the last of them; now t tokens are available. */
  lemma Spend(n: nat, counted: bool, t: real, token: real, burst: real, toLast: real, step: real, toNow: real, window: real)
    requires t <= burst && toNow >= 0.0 && window >= 0.0
    requires n > 0 ==> t <= token + step && toLast + step == toNow && n as real + token <= burst + toLast
    requires counted ==> t >= 1.0 && toNow <= window
    ensures counted ==>
      (n + 1) as real + (t - 1.0) <= burst + toNow && (n + 1) as real <= burst + window
    ensures n > 0 ==> n as real + t <= burst + toNow
  {
  }

  lemma AvailableIs(c: Config, u: Buckets, key: string, now: real)
    ensures Available(c, u, key, now) <= c.burst as real
    ensures key in u ==> Available(c, u, key, now) <= u[key].tokens + Earned(c, u[key].last, now)
  {
  }

  lemma OneRequest(c: Config, reqs: seq<Request>, key: string, lo: real, hi: real)
    requires c.rate > 0 && c.burst >= 0 && lo <= hi && reqs != [] && reqs[|reqs| - 1].key == key
    requires var init := reqs[..|reqs| - 1];
      Sound(Plain(c, init), reqs[|reqs| - 1].time) && Spent(c, init, key, lo, hi)
    ensures Spent(c, reqs, key, lo, hi)
  {
    var n := |reqs| - 1;
    var u, now := Plain(c, reqs[..n]), reqs[n].time;
    var n0 := PlainIn(c, reqs[..n], key, lo, hi);
    if n0 > 0 || lo <= now {
      var counted := lo <= now <= hi && PlainAnswer(c, reqs, n);
      var token, last := if key in u then u[key].tokens else 0.0, if key in u then u[key].last else now;
      AvailableIs(c, u, key, now);
      assert n0 > 0 ==> lo <= last <= now;
      MoreTime(c, lo, now, now);
      MoreTime(c, lo, hi, hi);
      if n0 > 0 { MoreTime(c, lo, last, now); }
      if counted { MoreTime(c, lo, now, hi); }
      hide Available, Earned;
      Spend(n0, counted, Available(c, u, key, now), token, c.burst as real,
            Earned(c, lo, last), Earned(c, last, now), Earned(c, lo, now), Earned(c, lo, hi));
      assert Plain(c, reqs)[key].last == now;
    }
  }

  /** In any window of length t the limiter allows at most burst + rate * t
      requests of a key, however many buckets it keeps. */
  lemma WindowBound(c: Config, max: nat, reqs: seq<Request>, key: string, lo: real, t: real)
    requires c.rate > 0 && c.burst >= 0 && InOrder(reqs) && t >= 0.0
    ensures AllowedIn(c, max, reqs, key, lo, lo + t) as real <= c.burst as real + t * c.rate as real
  {
    SameCount(c, max, reqs, key, lo, lo + t);
    WindowSpent(c, reqs, key, lo, lo + t);
    hide PlainIn, AllowedIn, Plain, InOrder;
    Product(t, c.rate as real);
    assert Earned(c, lo, lo + t) == t * c.rate as real;
  }

  // ---------- and which ones ----------

  /** The key's bucket holds exactly what the window from lo on leaves. */
  ghost predicate ExactFrom(c: Config, reqs: seq<Request>, key: string, lo: real)
    requires key in Plain(c, reqs)
  {
    var b := Plain(c, reqs)[key];
    lo <= b.last && b.tokens == c.burst as real + Earned(c, lo, b.last) - PlainIn(c, reqs, key, lo, b.last) as real
  }

  ghost predicate Exact(c: Config, reqs: seq<Request>, key: string) {
    key in Plain(c, reqs) ==> exists lo :: ExactFrom(c, reqs, key, lo)
  }

  /** No request of the key is later than its bucket. */
  lemma {:induction false} LastIsLast(c: Config, reqs: seq<Request>, key: string, lo: real, hi: real)
    requires InOrder(reqs) && if key in Plain(c, reqs) then Plain(c, reqs)[key].last <= hi else true
    ensures key !in Plain(c, reqs) ==> PlainIn(c, reqs, key, lo, hi) == 0
    ensures key in Plain(c, reqs) ==> PlainIn(c, reqs, key, lo, hi) == PlainIn(c, reqs, key, lo, Plain(c, reqs)[key].last)
  {
    hide PlainAnswer, Available;
    if reqs != [] {
      var n := |reqs| - 1;
      var init, r := reqs[..n], reqs[n];
      if key in Plain(c, init) { LastAtMost(c, init, key, r.time); }
      LastIsLast(c, init, key, lo, hi);
      if r.key == key { LastIsLast(c, init, key, lo, r.time); }
    }
  }

  lemma {:induction false} LastAtMost(c: Config, reqs: seq<Request>, key: string, now: real)
    requires InOrder(reqs) && (forall i :: 0 <= i < |reqs| ==> reqs[i].time <= now) && key in Plain(c, reqs)
    ensures Plain(c, reqs)[key].last <= now
  {
    hide Available;
    var n := |reqs| - 1;
    if reqs[n].key != key { LastAtMost(c, reqs[..n], key, now); }
  }

  /** What a key has at its next request is exactly what some window leaves, or everything. */
  lemma AvailableIsExact(c: Config, reqs: seq<Request>, key: string, now: real) returns (lo: real)
    requires c.rate > 0 && c.burst >= 0 && InOrder(reqs) && Exact(c, reqs, key)
    requires forall i :: 0 <= i < |reqs| ==> reqs[i].time <= now
    ensures lo <= now
    ensures Available(c, Plain(c, reqs), key, now) == c.burst as real + Earned(c, lo, now) - PlainIn(c, reqs, key, lo, now) as real
  {
    hide InOrder;
    var u := Plain(c, reqs);
    lo := now;
    MoreTime(c, now, now, now);
    if key !in u {
      LastIsLast(c, reqs, key, now, now);
    } else {
      LastAtMost(c, reqs, key, now);
      var b := u[key];
      MoreTime(c, b.last, now, now);
      if b.tokens + Earned(c, b.last, now) < c.burst as real {
        lo :| ExactFrom(c, reqs, key, lo);
        LastIsLast(c, reqs, key, lo, now);
        MoreTime(c, lo, b.last, now);
      } else {
        WindowSpent(c, reqs, key, now, now);
        assert PlainIn(c, reqs, key, now, now) == 0;
      }
    }
  }

  lemma {:induction false} AlwaysExact(c: Config, reqs: seq<Request>, key: string)
    requires c.rate > 0 && c.burst >= 0 && InOrder(reqs)
    ensures Exact(c, reqs, key)
  {
    if reqs != [] {
      var n := |reqs| - 1;
      var init, r := reqs[..n], reqs[n];
      AlwaysExact(c, init, key);
      if r.key == key {
        var lo := AvailableIsExact(c, init, key, r.time);
        hide Available, Earned, InOrder;
        assert ExactFrom(c, reqs, key, lo);
      } else if key in Plain(c, init) {
        hide Available, Earned, InOrder;
        var lo :| ExactFrom(c, init, key, lo);
        assert ExactFrom(c, reqs, key, lo);
      }
    }
  }

  /** Allowing request i keeps the window from lo on within its bound. */
  ghost predicate Fits(c: Config, max: nat, reqs: seq<Request>, i: nat, lo: real)
    requires i < |reqs|
  {
    var r := reqs[i];
    AllowedIn(c, max, reqs[..i], r.key, lo, r.time) as real + 1.0 <= c.burst as real + Earned(c, lo, r.time)
  }

  /** An allowed request keeps every window that ends with it within its bound. */
  lemma AllowedFits(c: Config, max: nat, reqs: seq<Request>, i: nat, lo: real)
    requires c.rate > 0 && c.burst >= 0 && InOrder(reqs) && i < |reqs| && lo <= reqs[i].time
    requires PlainAnswer(c, reqs, i)
    ensures Fits(c, max, reqs, i, lo)
  {
    var now, r := reqs[..i + 1], reqs[i];
    SameCount(c, max, reqs[..i], r.key, lo, r.time);
    WindowSpent(c, now, r.key, lo, r.time);
    assert now[..i] == reqs[..i];
    hide AllowedIn, InOrder, Available, Plain, Earned;
    assert PlainIn(c, now, r.key, lo, r.time) == PlainIn(c, reqs[..i], r.key, lo, r.time) + 1;
  }

  /** A request that would keep every window within its bound is not refused. */
  lemma RefusedFails(c: Config, max: nat, reqs: seq<Request>, i: nat) returns (lo: real)
    requires c.rate > 0 && c.burst >= 0 && InOrder(reqs) && i < |reqs| && !PlainAnswer(c, reqs, i)
    ensures lo <= reqs[i].time && !Fits(c, max, reqs, i, lo)
  {
    var init, r := reqs[..i], reqs[i];
    AlwaysExact(c, init, r.key);
    lo := AvailableIsExact(c, init, r.key, r.time);
    SameCount(c, max, init, r.key, lo, r.time);
    hide AllowedIn, PlainIn, InOrder, Available, Plain, Exact, Earned;
  }

  /** Exactly the requests are allowed that keep every window that ends with them within
      burst + rate * t: none that could be allowed is refused. */
  lemma AllowedIff(c: Config, max: nat, reqs: seq<Request>, i: nat)
    requires c.rate > 0 && c.burst >= 0 && InOrder(reqs) && i < |reqs|
    ensures Answer(c, max, reqs, i) <==> forall lo: real :: lo <= reqs[i].time ==> Fits(c, max, reqs, i, lo)
  {
    PruningIsInvisible(c, max, reqs, i);
    hide Answer, PlainAnswer, InOrder, Fits;
    if PlainAnswer(c, reqs, i) {
      forall lo: real | lo <= reqs[i].time ensures Fits(c, max, reqs, i, lo) {
        AllowedFits(c, max, reqs, i, lo);
      }
    } else {
      var lo := RefusedFails(c, max, reqs, i);
    }
  }
}
