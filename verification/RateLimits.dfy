/** Per-principal token buckets with eviction, over real time. */
module RateLimits {
  import opened Basics

  datatype Bucket = Bucket(tokens: real, last: real)
  type Buckets = map<string, Bucket>

  /** Refill per second and capacity. */
  datatype Limits = Limits(rate: real, burst: real)

  const MAX_BUCKETS: nat := 4096

  function Elapsed(now: real, last: real): real {
    if now >= last then now - last else 0.0
  }

  /** Tokens that flow in during some seconds. */
  function Refill(x: Limits, seconds: real): real {
    seconds * x.rate
  }

  function Smaller(a: real, b: real): real {
    if a <= b then a else b
  }

  /** What a bucket holds at a time. */
  function Level(x: Limits, b: Bucket, now: real): real {
    Smaller(b.tokens + Refill(x, Elapsed(now, b.last)), x.burst)
  }

  /** What a principal may draw on: a bucket that is not held is full. */
  function LevelOf(x: Limits, m: Buckets, key: string, now: real): real {
    if key in m then Level(x, m[key], now) else x.burst
  }

  /** Refilled: the bucket stands for no more than a new one would. */
  predicate IsFull(x: Limits, b: Bucket, now: real) {
    Level(x, b, now) == x.burst
  }

  /** Dropping the buckets that have refilled. */
  function Retained(x: Limits, m: Buckets, now: real): Buckets {
    map k | k in m && m[k].tokens + Refill(x, Elapsed(now, m[k].last)) < x.burst :: m[k]
  }

  /** One request, evicting or not. */
  function AllowOn(x: Limits, m: Buckets, evict: bool, key: string, now: real): (bool, Buckets) {
    var kept := if evict then Retained(x, m, now) else m;
    var level := LevelOf(x, kept, key, now);
    if level >= 1.0 then (true, kept[key := Bucket(level - 1.0, now)]) else (false, kept[key := Bucket(level, now)])
  }

  class RateLimiter {
    const limits: Limits
    var buckets: Buckets

    constructor (limits: Limits)
      ensures this.limits == limits && buckets == map[]
    {
      this.limits := limits;
      buckets := map[];
    }

    /** Take one token for a principal. A new one at capacity first evicts idle buckets. */
    method Allow(key: string, now: real) returns (ok: bool)
      modifies this
      ensures (ok, buckets) == AllowOn(limits, old(buckets), key !in old(buckets) && |old(buckets)| >= MAX_BUCKETS, key, now)
      ensures buckets.Keys <= old(buckets).Keys + {key} && key in buckets && buckets[key].last == now
      ensures forall k :: k in old(buckets) && k != key ==> (k in buckets <==> key in old(buckets) || |old(buckets)| < MAX_BUCKETS || !IsFull(limits, old(buckets)[k], now))
      ensures forall k :: k in buckets && k != key ==> buckets[k] == old(buckets)[k]
    {
      if key !in buckets && |buckets| >= MAX_BUCKETS {
        buckets := Retained(limits, buckets, now);
      }
      if key !in buckets {
        buckets := buckets[key := Bucket(limits.burst, now)];
      }
      var b := buckets[key];
      b := Bucket(Smaller(b.tokens + Refill(limits, Elapsed(now, b.last)), limits.burst), now);
      ok := b.tokens >= 1.0;
      if ok {
        b := b.(tokens := b.tokens - 1.0);
      }
      ghost var kept := if key !in old(buckets) && |old(buckets)| >= MAX_BUCKETS then Retained(limits, old(buckets), now) else old(buckets);
      assert buckets[key := b] == kept[key := b];
      buckets := buckets[key := b];
    }
  }

  // ---------------------------------------------------------------- eviction cannot be seen

  /** From a time on, two maps give every principal the same. */
  ghost predicate Alike(x: Limits, m: Buckets, n: Buckets, from: real) {
    forall k: string, t: real :: t >= from ==> LevelOf(x, m, k, t) == LevelOf(x, n, k, t)
  }

  /** No bucket was last used in the future. */
  predicate Past(m: Buckets, now: real) {
    forall k :: k in m ==> m[k].last <= now
  }

  lemma RefillGrows(x: Limits, a: real, b: real)
    requires x.rate >= 0.0 && 0.0 <= a <= b
    ensures 0.0 <= Refill(x, a) <= Refill(x, b)
  {
  }

  lemma RefillAdds(x: Limits, a: real, b: real)
    ensures Refill(x, a + b) == Refill(x, a) + Refill(x, b)
  {
  }

  lemma RefillIs(x: Limits, seconds: real)
    ensures Refill(x, seconds) == x.rate * seconds
  {
  }

  lemma RetainedIsAlike(x: Limits, m: Buckets, now: real)
    requires x.rate >= 0.0 && Past(m, now)
    ensures Alike(x, Retained(x, m, now), m, now)
  {
    forall k: string, t: real | t >= now
      ensures LevelOf(x, Retained(x, m, now), k, t) == LevelOf(x, m, k, t)
    {
      if k in m && k !in Retained(x, m, now) {
        RefillGrows(x, Elapsed(now, m[k].last), Elapsed(t, m[k].last));
      }
    }
  }

  /** One request answered alike leaves alike maps. */
  lemma AllowAlike(x: Limits, m: Buckets, e: bool, n: Buckets, f: bool, key: string, now: real)
    requires x.rate >= 0.0 && Past(m, now) && Past(n, now) && Alike(x, m, n, now)
    ensures AllowOn(x, m, e, key, now).0 == AllowOn(x, n, f, key, now).0
    ensures Alike(x, AllowOn(x, m, e, key, now).1, AllowOn(x, n, f, key, now).1, now)
    ensures Past(AllowOn(x, m, e, key, now).1, now) && Past(AllowOn(x, n, f, key, now).1, now)
  {
    RetainedIsAlike(x, m, now);
    RetainedIsAlike(x, n, now);
    var a, b := if e then Retained(x, m, now) else m, if f then Retained(x, n, now) else n;
    assert LevelOf(x, a, key, now) == LevelOf(x, m, key, now) == LevelOf(x, n, key, now) == LevelOf(x, b, key, now);
    var a', b' := AllowOn(x, m, e, key, now).1, AllowOn(x, n, f, key, now).1;
    forall k: string, t: real | t >= now
      ensures LevelOf(x, a', k, t) == LevelOf(x, b', k, t)
    {
      if k != key {
        assert LevelOf(x, a', k, t) == LevelOf(x, a, k, t) == LevelOf(x, m, k, t);
        assert LevelOf(x, b', k, t) == LevelOf(x, b, k, t) == LevelOf(x, n, k, t);
      }
    }
  }

  /** A request at a time, and whether the implementation happens to evict there. */
  datatype Call = Call(key: string, now: real, evict: bool)

  function Answers(x: Limits, m: Buckets, calls: seq<Call>): (r: seq<bool>)
    ensures |r| == |calls|
    decreases |calls|
  {
    if calls == [] then []
    else
      var (ok, n) := AllowOn(x, m, calls[0].evict, calls[0].key, calls[0].now);
      [ok] + Answers(x, n, calls[1..])
  }

  predicate InOrder(calls: seq<Call>, from: real)
    decreases |calls|
  {
    calls == [] || (calls[0].now >= from && InOrder(calls[1..], calls[0].now))
  }

  /** The same requests at the same times, whatever is evicted. */
  predicate SameCalls(a: seq<Call>, b: seq<Call>) {
    |a| == |b| && forall i :: 0 <= i < |a| ==> a[i].key == b[i].key && a[i].now == b[i].now
  }

  /** Over every sequence of requests of all principals, evicting refilled buckets at any
      moments gives the answers that never evicting gives. */
  lemma {:induction false} EvictionIsInvisible(x: Limits, m: Buckets, a: seq<Call>, n: Buckets, b: seq<Call>, from: real)
    requires x.rate >= 0.0 && Past(m, from) && Past(n, from) && Alike(x, m, n, from)
    requires SameCalls(a, b) && InOrder(a, from)
    ensures Answers(x, m, a) == Answers(x, n, b)
    decreases |a|
  {
    if a != [] {
      var c, d := a[0], b[0];
      AllowAlike(x, m, c.evict, n, d.evict, c.key, c.now);
      EvictionIsInvisible(x, AllowOn(x, m, c.evict, c.key, c.now).1, a[1..], AllowOn(x, n, d.evict, d.key, d.now).1, b[1..], c.now);
    }
  }

  // ---------------------------------------------------------------- the rate guarantee

  /** How many requests of a principal were admitted. */
  function Admitted(key: string, calls: seq<Call>, answers: seq<bool>): nat
    requires |answers| == |calls|
  {
    if calls == [] then 0
    else (if calls[0].key == key && answers[0] then 1 else 0) + Admitted(key, calls[1..], answers[1..])
  }

  ghost predicate Sound(x: Limits, m: Buckets, from: real) {
    Past(m, from) && forall k :: k in m ==> 0.0 <= m[k].tokens <= x.burst
  }

  lemma AllowKeepsSound(x: Limits, m: Buckets, c: Call, from: real)
    requires x.rate >= 0.0 && x.burst >= 0.0 && Sound(x, m, from) && c.now >= from
    ensures Sound(x, AllowOn(x, m, c.evict, c.key, c.now).1, c.now)
    ensures forall k: string :: 0.0 <= LevelOf(x, m, k, c.now) <= x.burst
  {
    forall k: string
      ensures 0.0 <= LevelOf(x, m, k, c.now) <= x.burst
    {
      if k in m {
        RefillGrows(x, 0.0, Elapsed(c.now, m[k].last));
      }
    }
    RetainedIsAlike(x, m, c.now);
  }

  /** Between two times a level rises by no more than the refill. */
  lemma Rise(x: Limits, m: Buckets, key: string, from: real, to: real)
    requires x.rate >= 0.0 && Past(m, from) && from <= to
    ensures LevelOf(x, m, key, to) <= LevelOf(x, m, key, from) + Refill(x, to - from)
  {
    RefillGrows(x, 0.0, to - from);
    if key in m {
      var b := m[key];
      RefillAdds(x, from - b.last, to - from);
    }
  }

  lemma {:induction false} WindowRefill(x: Limits, m: Buckets, calls: seq<Call>, key: string, from: real, to: real)
    requires x.rate >= 0.0 && x.burst >= 0.0 && Sound(x, m, from) && InOrder(calls, from)
    requires from <= to && forall i :: 0 <= i < |calls| ==> calls[i].now <= to
    ensures Admitted(key, calls, Answers(x, m, calls)) as real <= LevelOf(x, m, key, from) + Refill(x, to - from)
    ensures Admitted(key, calls, Answers(x, m, calls)) as real <= x.burst + Refill(x, to - from)
    decreases |calls|
  {
    hide Refill, AllowOn;
    AllowKeepsSound(x, m, Call(key, from, false), from);
    assert 0.0 <= LevelOf(x, m, key, from) <= x.burst;
    RefillGrows(x, 0.0, to - from);
    if calls == [] {
      assert Admitted(key, calls, Answers(x, m, calls)) == 0;
    } else {
      var c := calls[0];
      var (ok, n) := AllowOn(x, m, c.evict, c.key, c.now);
      AllowKeepsSound(x, m, c, from);
      WindowRefill(x, n, calls[1..], key, c.now, to);
      Rise(x, m, key, from, c.now);
      RetainedIsAlike(x, m, c.now);
      LevelAfter(x, m, c, key);
      RefillAdds(x, c.now - from, to - c.now);
      assert Answers(x, m, calls)[1..] == Answers(x, n, calls[1..]);
    }
  }

  /** In any window a principal is admitted no more often than its level at the start plus
      what flows in, so never more than the burst plus the rate times the window. */
  lemma WindowBound(x: Limits, m: Buckets, calls: seq<Call>, key: string, from: real, to: real)
    requires x.rate >= 0.0 && x.burst >= 0.0 && Sound(x, m, from) && InOrder(calls, from)
    requires from <= to && forall i :: 0 <= i < |calls| ==> calls[i].now <= to
    ensures Admitted(key, calls, Answers(x, m, calls)) as real <= LevelOf(x, m, key, from) + x.rate * (to - from)
    ensures Admitted(key, calls, Answers(x, m, calls)) as real <= x.burst + x.rate * (to - from)
  {
    RefillIs(x, to - from);
    hide Refill, Answers, Admitted, LevelOf, Sound, InOrder, AllowOn, Level;
    WindowRefill(x, m, calls, key, from, to);
  }

  /** A request takes one token from its own principal if admitted and nothing from others. */
  lemma LevelAfter(x: Limits, m: Buckets, c: Call, key: string)
    requires x.rate >= 0.0 && Past(m, c.now)
    ensures LevelOf(x, AllowOn(x, m, c.evict, c.key, c.now).1, key, c.now) ==
              LevelOf(x, m, key, c.now) - if c.key == key && AllowOn(x, m, c.evict, c.key, c.now).0 then 1.0 else 0.0
  {
    RetainedIsAlike(x, m, c.now);
    var kept := if c.evict then Retained(x, m, c.now) else m;
    assert LevelOf(x, kept, key, c.now) == LevelOf(x, m, key, c.now);
  }

  // ---------------------------------------------------------------- no request is refused without need

  /** The buckets before call i. */
  function Before(x: Limits, calls: seq<Call>, i: nat): Buckets
    requires i <= |calls|
  {
    if i == 0 then map[] else AllowOn(x, Before(x, calls, i - 1), calls[i - 1].evict, calls[i - 1].key, calls[i - 1].now).1
  }

  /** Whether call i is admitted. */
  function Grants(x: Limits, calls: seq<Call>, i: nat): bool
    requires i < |calls|
  {
    AllowOn(x, Before(x, calls, i), calls[i].evict, calls[i].key, calls[i].now).0
  }

  /** How many of a principal's calls from j up to, not including, i are admitted. */
  function Count(x: Limits, calls: seq<Call>, key: string, j: nat, i: nat): nat
    requires j <= i <= |calls|
  {
    if j == i then 0 else Count(x, calls, key, j, i - 1) + if calls[i - 1].key == key && Grants(x, calls, i - 1) then 1 else 0
  }

  predicate Ordered(calls: seq<Call>) {
    forall i, j :: 0 <= i <= j < |calls| ==> calls[i].now <= calls[j].now
  }

  /** What a principal may still use at a time in the window opened by call j. */
  function Room(x: Limits, calls: seq<Call>, key: string, j: nat, i: nat, now: real): real
    requires j <= i <= |calls| && j < |calls|
  {
    x.burst + Refill(x, now - calls[j].now) - Count(x, calls, key, j, i) as real
  }

  /** At its time before call i the level is the least room of any window that call opens or
      an earlier one did. */
  lemma {:induction false} LevelIsLeastRoom(x: Limits, calls: seq<Call>, key: string, i: nat) returns (least: nat)
    requires x.rate >= 0.0 && i < |calls| && Ordered(calls)
    ensures Past(Before(x, calls, i), calls[i].now)
    ensures forall j :: 0 <= j <= i ==> LevelOf(x, Before(x, calls, i), key, calls[i].now) <= Room(x, calls, key, j, i, calls[i].now)
    ensures least <= i && LevelOf(x, Before(x, calls, i), key, calls[i].now) == Room(x, calls, key, least, i, calls[i].now)
    decreases i
  {
    var now := calls[i].now;
    if i == 0 {
      NoTime(x);
      least := 0;
    } else {
      var c, m, n := calls[i - 1], Before(x, calls, i - 1), Before(x, calls, i);
      least := LevelIsLeastRoom(x, calls, key, i - 1);
      LevelAfter(x, m, c, key);
      StaysPast(x, m, c, now);
      LevelGrows(x, n, key, c.now, now);
      NoTime(x);
      forall j | 0 <= j < i
        ensures Room(x, calls, key, j, i, now) == Room(x, calls, key, j, i - 1, c.now) + Refill(x, now - c.now) - (if c.key == key && Grants(x, calls, i - 1) then 1.0 else 0.0)
      {
        RefillAdds(x, c.now - calls[j].now, now - c.now);
      }
      hide Refill, AllowOn, LevelOf;
      if LevelOf(x, n, key, now) == x.burst {
        least := i;
      }
    }
  }

  lemma NoTime(x: Limits)
    ensures Refill(x, 0.0) == 0.0
  {
  }

  lemma StaysPast(x: Limits, m: Buckets, c: Call, now: real)
    requires Past(m, c.now) && c.now <= now
    ensures Past(AllowOn(x, m, c.evict, c.key, c.now).1, now) && Past(AllowOn(x, m, c.evict, c.key, c.now).1, c.now)
  {
  }

  /** A level that nobody draws on rises with the refill until it reaches the burst. */
  lemma LevelGrows(x: Limits, m: Buckets, key: string, from: real, to: real)
    requires x.rate >= 0.0 && Past(m, from) && from <= to
    ensures LevelOf(x, m, key, to) == Smaller(LevelOf(x, m, key, from) + Refill(x, to - from), x.burst)
  {
    RefillGrows(x, 0.0, to - from);
    if key in m {
      RefillAdds(x, from - m[key].last, to - from);
    }
  }

  /** The answers to a sequence of calls are those of its calls. */
  lemma {:induction false} AnswersAre(x: Limits, calls: seq<Call>, k: nat, i: nat)
    requires k <= i < |calls|
    ensures Answers(x, Before(x, calls, k), calls[k..])[i - k] == Grants(x, calls, i)
    decreases i - k
  {
    hide AllowOn;
    var rest := calls[k..];
    assert rest[0] == calls[k] && rest[1..] == calls[k + 1..];
    if k < i {
      AnswersAre(x, calls, k + 1, i);
    }
  }

  /** A request is refused exactly if admitting it would exceed, in some window that it or an
      earlier request opens, the burst plus the rate times the length of the window. */
  lemma RefusedOnlyIfNeeded(x: Limits, calls: seq<Call>, i: nat)
    requires x.rate >= 0.0 && i < |calls| && Ordered(calls)
    ensures Answers(x, map[], calls)[i] == Grants(x, calls, i)
    ensures Grants(x, calls, i) <==> forall j :: 0 <= j <= i ==> Fits(x, calls, calls[i].key, j, i)
  {
    AnswersAre(x, calls, 0, i);
    assert calls[0..] == calls;
    var key, now, m := calls[i].key, calls[i].now, Before(x, calls, i);
    var least := LevelIsLeastRoom(x, calls, key, i);
    forall j | 0 <= j <= i
      ensures Fits(x, calls, key, j, i) <==> Room(x, calls, key, j, i, now) >= 1.0
    {
      FitsIff(x, calls, key, j, i);
    }
    GrantsIff(x, m, calls[i]);
    hide AllowOn, LevelOf, Room, Fits, Count, Before;
    assert Grants(x, calls, i) <==> LevelOf(x, m, key, now) >= 1.0;
  }

  /** One more call of a principal now stays within the limits in the window that call j opens. */
  predicate Fits(x: Limits, calls: seq<Call>, key: string, j: nat, i: nat)
    requires j <= i < |calls|
  {
    Count(x, calls, key, j, i) as real + 1.0 <= x.burst + x.rate * (calls[i].now - calls[j].now)
  }

  lemma FitsIff(x: Limits, calls: seq<Call>, key: string, j: nat, i: nat)
    requires j <= i < |calls|
    ensures Fits(x, calls, key, j, i) <==> Room(x, calls, key, j, i, calls[i].now) >= 1.0
  {
    RefillIs(x, calls[i].now - calls[j].now);
    hide Refill, Count;
  }

  lemma GrantsIff(x: Limits, m: Buckets, c: Call)
    requires x.rate >= 0.0 && Past(m, c.now)
    ensures AllowOn(x, m, c.evict, c.key, c.now).0 <==> LevelOf(x, m, c.key, c.now) >= 1.0
  {
    RetainedIsAlike(x, m, c.now);
  }

  /** A capacity below one token admits nobody, ever. */
  lemma {:induction false} SmallBurstAdmitsNone(x: Limits, m: Buckets, calls: seq<Call>, key: string)
    requires x.burst < 1.0
    ensures Admitted(key, calls, Answers(x, m, calls)) == 0
    decreases |calls|
  {
    if calls != [] {
      var c := calls[0];
      var (ok, n) := AllowOn(x, m, c.evict, c.key, c.now);
      SmallBurstAdmitsNone(x, n, calls[1..], key);
      assert Answers(x, m, calls)[1..] == Answers(x, n, calls[1..]);
    }
  }
}
