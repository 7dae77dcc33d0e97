/** The token-bucket rate limiter (ratelimit.py), over real time. The lock makes every call one step
    on the bucket, so a history is the sequence of calls in the order they take the lock. */
module RateLimit {
  import opened Wrappers

  datatype Bucket = Bucket(rate: real, capacity: real, tokens: real, last: real)

  predicate ValidBucket(b: Bucket) {
    b.rate > 0.0 && b.capacity > 0.0 && 0.0 <= b.tokens <= b.capacity
  }

  function Min(x: real, y: real): real {
    if x <= y then x else y
  }

  function Max(x: real, y: real): real {
    if x >= y then x else y
  }

  /** The tokens that accrue between two times. */
  function Earned(rate: real, from: real, to: real): real {
    (to - from) * rate
  }

  lemma EarnedAdds(rate: real, a: real, b: real, c: real)
    requires rate > 0.0
    ensures Earned(rate, a, c) == Earned(rate, a, b) + Earned(rate, b, c)
    ensures a <= b ==> Earned(rate, a, b) >= 0.0
    ensures b <= c ==> Earned(rate, b, c) >= 0.0
  {
  }

  /** _refill at time `now`. */
  function Refill(b: Bucket, now: real): Bucket {
    b.(tokens := Min(b.capacity, b.tokens + Earned(b.rate, b.last, now)), last := now)
  }

  /** acquire(n) at time `now`: the bucket afterwards, and the time the caller sleeps. */
  function Take(b: Bucket, n: real, now: real): (Bucket, real)
    requires b.rate > 0.0
  {
    var full := Refill(b, now);
    (full.(tokens := Max(0.0, full.tokens - n)), if full.tokens < n then (n - full.tokens) / b.rate else 0.0)
  }

  class TokenBucket {
    const rate: real
    const capacity: real
    var tokens: real
    var lastRefill: real

    ghost function Abs(): Bucket
      reads this
    {
      Bucket(rate, capacity, tokens, lastRefill)
    }

    /** A missing or zero capacity means one second's worth of tokens. */
    constructor (rate: real, capacity: Option<real>, now: real)
      requires rate > 0.0 && (capacity.Some? ==> capacity.value >= 0.0)
      ensures ValidBucket(Abs()) && this.rate == rate && tokens == this.capacity && lastRefill == now
      ensures this.capacity == if capacity.Some? && capacity.value != 0.0 then capacity.value else rate
    {
      var c := if capacity.Some? && capacity.value != 0.0 then capacity.value else rate;
      this.rate, this.capacity, tokens, lastRefill := rate, c, c, now;
    }

    /** Never leaves the bucket below empty or above its capacity. */
    method Acquire(n: real, now: real) returns (wait: real)
      requires ValidBucket(Abs()) && n >= 0.0 && now >= lastRefill
      modifies this
      ensures ValidBucket(Abs())
      ensures (Abs(), wait) == Take(old(Abs()), n, now)
    {
      RefillValid(Abs(), now);
      hide Earned;
      tokens := Min(capacity, tokens + Earned(rate, lastRefill, now));
      lastRefill := now;
      wait := 0.0;
      if tokens < n {
        wait := (n - tokens) / rate;
      }
      tokens := Max(0.0, tokens - n);
    }
  }

  lemma RefillValid(b: Bucket, now: real)
    requires ValidBucket(b) && now >= b.last
    ensures ValidBucket(Refill(b, now)) && Refill(b, now).tokens <= b.tokens + Earned(b.rate, b.last, now)
  {
    EarnedAdds(b.rate, b.last, now, now);
  }

  // ----- histories -------------------------------------------------------------------------

  /** A call of acquire(1) by a thread. */
  datatype Call = Call(thread: nat, at: real)

  /** The call, the tokens it took from the bucket, and how long it slept. */
  datatype Grant = Grant(thread: nat, at: real, used: real, wait: real)

  datatype Log = Log(bucket: Bucket, grants: seq<Grant>)

  function Next(log: Log, c: Call): Log
    requires log.bucket.rate > 0.0
  {
    var (b, wait) := Take(log.bucket, 1.0, c.at);
    Log(b, log.grants + [Grant(c.thread, c.at, Min(Refill(log.bucket, c.at).tokens, 1.0), wait)])
  }

  function History(b: Bucket, calls: seq<Call>): (log: Log)
    requires b.rate > 0.0
    ensures log.bucket.rate == b.rate && log.bucket.capacity == b.capacity
  {
    if calls == [] then Log(b, []) else Next(History(b, calls[..|calls| - 1]), calls[|calls| - 1])
  }

  /** The clock does not go back. */
  predicate Ordered(calls: seq<Call>, from: real) {
    (calls != [] ==> from <= calls[0].at) && forall i, j :: 0 <= i < j < |calls| ==> calls[i].at <= calls[j].at
  }

  /** A thread sleeps out a grant before it calls again. */
  predicate Sequential(grants: seq<Grant>) {
    forall i, j :: 0 <= i < j < |grants| && grants[i].thread == grants[j].thread ==>
                     grants[i].at + grants[i].wait <= grants[j].at
  }

  /** Begun and granted within the window [from, to]. */
  predicate Within(g: Grant, from: real, to: real) {
    from <= g.at && g.at + g.wait <= to
  }

  function Count(grants: seq<Grant>, from: real, to: real): real {
    if grants == [] then 0.0
    else
      var n := |grants| - 1;
      Count(grants[..n], from, to) + if Within(grants[n], from, to) then 1.0 else 0.0
  }

  function Used(grants: seq<Grant>, from: real, to: real): real {
    if grants == [] then 0.0
    else
      var n := |grants| - 1;
      Used(grants[..n], from, to) + if Within(grants[n], from, to) then grants[n].used else 0.0
  }

  /** The time a thread slept on the grants within the window. */
  function Slept(grants: seq<Grant>, thread: nat, from: real, to: real): real {
    if grants == [] then 0.0
    else
      var n := |grants| - 1;
      Slept(grants[..n], thread, from, to)
        + if grants[n].thread == thread && Within(grants[n], from, to) then grants[n].wait else 0.0
  }

  function SleptBy(grants: seq<Grant>, threads: nat, from: real, to: real): real {
    if threads == 0 then 0.0
    else SleptBy(grants, threads - 1, from, to) + Slept(grants, threads - 1, from, to)
  }

  // ----- the bound -------------------------------------------------------------------------

  /** What a call takes and what it sleeps add up to the one token it asked for. */
  lemma OneToken(b: Bucket, at: real)
    requires ValidBucket(b) && at >= b.last
    ensures var (b', wait) := Take(b, 1.0, at);
            var used := Min(Refill(b, at).tokens, 1.0);
            && ValidBucket(b') && b'.last == at && 0.0 <= used && wait >= 0.0
            && used + b.rate * wait == 1.0
            && b'.tokens == Refill(b, at).tokens - used
            && b'.tokens + used <= b.tokens + Earned(b.rate, b.last, at) && b'.tokens + used <= b.capacity
  {
    RefillValid(b, at);
    var t := Refill(b, at).tokens;
    if t < 1.0 {
      assert b.rate * ((1.0 - t) / b.rate) == 1.0 - t;
    }
  }

  /** The tokens used in the window never exceed a full bucket and the refill of the window. */
  predicate UsedBound(log: Log, from: real, to: real) {
    var b := log.bucket;
    var used := Used(log.grants, from, to);
    if b.last < from then used == 0.0
    else if b.last <= to then used + b.tokens <= b.capacity + Earned(b.rate, from, b.last)
    else used <= b.capacity + Earned(b.rate, from, to)
  }

  predicate Honest(g: Grant, rate: real) {
    g.used + rate * g.wait == 1.0 && g.wait >= 0.0 && g.used >= 0.0
  }

  lemma UsedSnoc(grants: seq<Grant>, g: Grant, from: real, to: real)
    ensures Used(grants + [g], from, to) == Used(grants, from, to) + if Within(g, from, to) then g.used else 0.0
  {
    assert (grants + [g])[..|grants|] == grants;
  }

  lemma NextTakes(log: Log, c: Call) returns (g: Grant)
    requires ValidBucket(log.bucket) && c.at >= log.bucket.last
    ensures var log' := Next(log, c);
            && log'.grants == log.grants + [g] && g.at == c.at && Honest(g, log.bucket.rate)
            && ValidBucket(log'.bucket) && log'.bucket.last == c.at
            && log'.bucket.tokens + g.used <= log.bucket.tokens + Earned(log.bucket.rate, log.bucket.last, c.at)
            && log'.bucket.tokens + g.used <= log.bucket.capacity
            && log'.bucket.rate == log.bucket.rate && log'.bucket.capacity == log.bucket.capacity
  {
    OneToken(log.bucket, c.at);
    g := Next(log, c).grants[|log.grants|];
    hide Earned, Refill;
  }

  lemma UsedStep(log: Log, c: Call, from: real, to: real)
    requires ValidBucket(log.bucket) && c.at >= log.bucket.last && from <= to && UsedBound(log, from, to)
    ensures UsedBound(Next(log, c), from, to)
  {
    var b := log.bucket;
    var g := NextTakes(log, c);
    UsedSnoc(log.grants, g, from, to);
    EarnedAdds(b.rate, from, b.last, c.at);
    EarnedAdds(b.rate, from, c.at, to);
    EarnedAdds(b.rate, from, b.last, to);
    EarnedAdds(b.rate, from, to, c.at);
    hide Next, Used, Earned;
  }

  ghost predicate LogOk(log: Log, calls: seq<Call>, from: real, to: real) {
    && ValidBucket(log.bucket) && UsedBound(log, from, to)
    && (forall g <- log.grants :: Honest(g, log.bucket.rate))
    && (calls != [] ==> log.bucket.last == calls[|calls| - 1].at)
  }

  lemma {:induction false} HistoryOk(b: Bucket, calls: seq<Call>, from: real, to: real)
    requires ValidBucket(b) && Ordered(calls, b.last) && b.last <= from <= to
    ensures LogOk(History(b, calls), calls, from, to)
  {
    if calls != [] {
      var init, c := calls[..|calls| - 1], calls[|calls| - 1];
      assert calls == init + [c];
      OrderedInit(init, c, b.last);
      HistoryOk(b, init, from, to);
      HistorySnoc(b, init, c);
      hide UsedBound, Next, ValidBucket, Honest, Ordered;
      assert History(b, init).bucket.last <= c.at by {
        if init == [] { assert History(b, init) == Log(b, []); }
      }
      hide LogOk, History;
      LogStep(History(b, init), init, c, from, to);
    } else {
      EarnedAdds(b.rate, from, b.last, b.last);
    }
  }

  lemma OrderedInit(init: seq<Call>, c: Call, from: real)
    requires Ordered(init + [c], from)
    ensures Ordered(init, from)
    ensures c.at >= if init == [] then from else init[|init| - 1].at
  {
    var calls := init + [c];
    assert forall i :: 0 <= i < |init| ==> init[i] == calls[i];
    assert calls[|init|] == c;
  }

  lemma HistorySnoc(b: Bucket, calls: seq<Call>, c: Call)
    requires b.rate > 0.0
    ensures History(b, calls + [c]) == Next(History(b, calls), c)
  {
    hide Next;
    assert (calls + [c])[..|calls|] == calls;
  }

  lemma LogStep(log: Log, calls: seq<Call>, c: Call, from: real, to: real)
    requires LogOk(log, calls, from, to) && from <= to && c.at >= log.bucket.last
    ensures LogOk(Next(log, c), calls + [c], from, to)
  {
    var g := NextTakes(log, c);
    UsedStep(log, c, from, to);
    hide UsedBound, Next, Honest;
  }

  // ----- the sleeping threads --------------------------------------------------------------

  /** When the thread's last grant ended, or `from` if that is later. */
  function FreeAt(grants: seq<Grant>, thread: nat, from: real): real {
    if grants == [] then from
    else
      var n := |grants| - 1;
      if grants[n].thread == thread then Max(from, grants[n].at + grants[n].wait)
      else FreeAt(grants[..n], thread, from)
  }

  lemma {:induction false} FreeBefore(grants: seq<Grant>, g: Grant, from: real)
    requires Sequential(grants + [g])
    ensures FreeAt(grants, g.thread, from) <= Max(from, g.at)
  {
    if grants != [] {
      var init, last := grants[..|grants| - 1], grants[|grants| - 1];
      assert grants == init + [last];
      assert (grants + [g])[|init|] == last && (grants + [g])[|grants|] == g;
      if last.thread != g.thread {
        assert Sequential(init + [g]) by {
          forall i, j | 0 <= i < j < |init + [g]| && (init + [g])[i].thread == (init + [g])[j].thread
            ensures (init + [g])[i].at + (init + [g])[i].wait <= (init + [g])[j].at
          {
            var j' := if j == |init| then |grants| else j;
            assert (init + [g])[j] == (grants + [g])[j'] && (init + [g])[i] == (grants + [g])[i];
          }
        }
        FreeBefore(init, g, from);
      }
    }
  }

  /** The sleeps of one thread do not overlap: in the window they take no longer than the window. */
  lemma {:induction false} SleepFits(grants: seq<Grant>, thread: nat, from: real, to: real)
    requires from <= to && Sequential(grants) && forall g <- grants :: g.wait >= 0.0
    ensures Slept(grants, thread, from, to) <= Min(FreeAt(grants, thread, from), to) - from
    ensures FreeAt(grants, thread, from) >= from
  {
    if grants != [] {
      var init, g := grants[..|grants| - 1], grants[|grants| - 1];
      assert grants == init + [g];
      assert g in grants;
      assert Sequential(init);
      FreeBefore(init, g, from);
      hide Sequential;
      SleepFits(init, thread, from, to);
    }
  }

  lemma {:induction false} SleptBySnoc(grants: seq<Grant>, g: Grant, threads: nat, from: real, to: real)
    ensures SleptBy(grants + [g], threads, from, to) == SleptBy(grants, threads, from, to)
              + if g.thread < threads && Within(g, from, to) then g.wait else 0.0
  {
    if threads > 0 {
      SleptBySnoc(grants, g, threads - 1, from, to);
      assert (grants + [g])[..|grants|] == grants;
    }
  }

  /** m times t. */
  function Times(m: nat, t: real): real {
    m as real * t
  }

  lemma TimesStep(m: nat, t: real)
    ensures Times(m + 1, t) == Times(m, t) + t && Times(0, t) == 0.0
  {
    assert (m + 1) as real == m as real + 1.0;
    assert (m as real + 1.0) * t == m as real * t + t;
  }

  lemma ProductAdds(rate: real, x: real, y: real)
    ensures Product(rate, x + y) == Product(rate, x) + Product(rate, y) && Product(rate, 0.0) == 0.0
  {
  }

  function Product(rate: real, x: real): real {
    rate * x
  }

  lemma {:induction false} SleepsFit(grants: seq<Grant>, threads: nat, from: real, to: real)
    requires from <= to && Sequential(grants) && forall g <- grants :: g.wait >= 0.0
    ensures SleptBy(grants, threads, from, to) <= Times(threads, to - from)
  {
    hide Times, Slept, FreeAt;
    if threads == 0 {
      TimesStep(0, to - from);
    } else {
      TimesStep(threads - 1, to - from);
      SleepsFit(grants, threads - 1, from, to);
      SleepFits(grants, threads - 1, from, to);
    }
  }

  /** The granted calls are paid for: by tokens of the bucket, and by sleeping. */
  lemma {:induction false} Paid(grants: seq<Grant>, threads: nat, rate: real, from: real, to: real)
    requires forall g <- grants :: Honest(g, rate) && g.thread < threads
    ensures Count(grants, from, to) == Used(grants, from, to) + Product(rate, SleptBy(grants, threads, from, to))
  {
    hide Product;
    if grants == [] {
      NothingSlept(threads, from, to);
      ProductAdds(rate, 0.0, 0.0);
    } else {
      var init, g := grants[..|grants| - 1], grants[|grants| - 1];
      assert grants == init + [g];
      assert g in grants;
      Paid(init, threads, rate, from, to);
      SleptBySnoc(init, g, threads, from, to);
      ProductAdds(rate, SleptBy(init, threads, from, to), if Within(g, from, to) then g.wait else 0.0);
      GrantPaid(g, rate);
      hide SleptBy, Honest;
    }
  }

  lemma GrantPaid(g: Grant, rate: real)
    requires Honest(g, rate)
    ensures g.used + Product(rate, g.wait) == 1.0 && Product(rate, 0.0) == 0.0
  {
  }

  lemma {:induction false} NothingSlept(threads: nat, from: real, to: real)
    ensures SleptBy([], threads, from, to) == 0.0
  {
    if threads > 0 { NothingSlept(threads - 1, from, to); }
  }

  /** What a window grants is paid for by a full bucket, the refill of the window, and the time slept in
      it, which the refill pays a second time. */
  lemma GrantsPaid(b: Bucket, calls: seq<Call>, threads: nat, from: real, to: real)
    requires ValidBucket(b) && Ordered(calls, b.last) && b.last <= from <= to
    requires forall g <- History(b, calls).grants :: g.thread < threads
    ensures Count(History(b, calls).grants, from, to)
              <= b.capacity + Earned(b.rate, from, to)
                 + Product(b.rate, SleptBy(History(b, calls).grants, threads, from, to))
    ensures forall g <- History(b, calls).grants :: g.wait >= 0.0
  {
    HistoryOk(b, calls, from, to);
    hide Take, Next, History, Product, Used, Count, SleptBy, UsedBound, Honest, Ordered, Earned;
    var log := History(b, calls);
    HonestWaits(log.grants, b.rate);
    Paid(log.grants, threads, b.rate, from, to);
    UsedAtMost(log, from, to);
  }

  lemma {:induction false} SleptNothing(grants: seq<Grant>, thread: nat, from: real, to: real)
    requires forall g <- grants :: Within(g, from, to) ==> g.wait == 0.0
    ensures Slept(grants, thread, from, to) == 0.0
  {
    if grants != [] {
      var init, g := grants[..|grants| - 1], grants[|grants| - 1];
      assert grants == init + [g];
      assert g in grants;
      SleptNothing(init, thread, from, to);
    }
  }

  lemma {:induction false} NobodySlept(grants: seq<Grant>, threads: nat, from: real, to: real)
    requires forall g <- grants :: Within(g, from, to) ==> g.wait == 0.0
    ensures SleptBy(grants, threads, from, to) == 0.0
  {
    if threads > 0 {
      SleptNothing(grants, threads - 1, from, to);
      NobodySlept(grants, threads - 1, from, to);
    }
  }

  /** The bound of an ideal bucket, C + rT, holds of every window in which no grant slept. */
  lemma IdealWithoutSleep(b: Bucket, calls: seq<Call>, threads: nat, from: real, to: real)
    requires ValidBucket(b) && Ordered(calls, b.last) && b.last <= from <= to
    requires forall g <- History(b, calls).grants :: g.thread < threads && (Within(g, from, to) ==> g.wait == 0.0)
    ensures Count(History(b, calls).grants, from, to) <= b.capacity + Earned(b.rate, from, to)
  {
    GrantsPaid(b, calls, threads, from, to);
    NobodySlept(History(b, calls).grants, threads, from, to);
    ProductAdds(b.rate, 0.0, 0.0);
    hide History, Ordered, Product, SleptBy, Count, Earned;
  }

  /** Main result. With m threads that each wait out a grant before the next call, the calls begun and
      granted within any window of length T number at most C + (m+1) r T: the bucket gives C + rT,
      and every thread can besides sleep for all of the window, which the refill then pays again. */
  lemma GrantsBounded(b: Bucket, calls: seq<Call>, threads: nat, from: real, to: real)
    requires ValidBucket(b) && Ordered(calls, b.last) && b.last <= from <= to
    requires forall g <- History(b, calls).grants :: g.thread < threads
    requires Sequential(History(b, calls).grants)
    ensures Count(History(b, calls).grants, from, to)
              <= b.capacity + Times(threads + 1, Earned(b.rate, from, to))
  {
    GrantsPaid(b, calls, threads, from, to);
    hide History, Times, Product, Count, SleptBy, Ordered, Earned, Sequential;
    var log := History(b, calls);
    SleepsFit(log.grants, threads, from, to);
    Combine(b.rate, threads, from, to, SleptBy(log.grants, threads, from, to));
  }

  lemma HonestWaits(grants: seq<Grant>, rate: real)
    requires forall g <- grants :: Honest(g, rate)
    ensures forall g <- grants :: g.wait >= 0.0
  {
  }

  lemma UsedAtMost(log: Log, from: real, to: real)
    requires ValidBucket(log.bucket) && from <= to && UsedBound(log, from, to)
    ensures Used(log.grants, from, to) <= log.bucket.capacity + Earned(log.bucket.rate, from, to)
  {
    var b := log.bucket;
    EarnedAdds(b.rate, from, b.last, to);
    EarnedAdds(b.rate, from, to, to);
  }

  lemma Combine(rate: real, threads: nat, from: real, to: real, slept: real)
    requires rate > 0.0 && slept <= Times(threads, to - from)
    ensures Product(rate, slept) + Earned(rate, from, to) <= Times(threads + 1, Earned(rate, from, to))
  {
    var m, t := threads as real, to - from;
    assert (threads + 1) as real == m + 1.0;
    assert rate * slept <= rate * (m * t);
    assert rate * (m * t) == m * (t * rate);
    assert (m + 1.0) * (t * rate) == m * (t * rate) + t * rate;
  }

  // ----- the bound is attained -------------------------------------------------------------

  /** When k tokens have accrued since the start. */
  function At(rate: real, k: nat): real
    requires rate > 0.0
  {
    k as real / rate
  }

  lemma AtStep(rate: real, k: nat)
    requires rate > 0.0
    ensures At(rate, 0) == 0.0 && At(rate, k + 1) == At(rate, k) + 1.0 / rate && 1.0 / rate > 0.0
    ensures Earned(rate, At(rate, k), At(rate, k + 1)) == 1.0 && Earned(rate, At(rate, 0), At(rate, k)) == k as real
    ensures Earned(rate, At(rate, k), At(rate, k)) == 0.0
  {
    assert (k + 1) as real / rate == k as real / rate + 1.0 / rate;
    assert 1.0 / rate * rate == 1.0;
    assert k as real / rate * rate == k as real;
  }

  lemma {:induction false} AtGrows(rate: real, j: nat, k: nat)
    requires rate > 0.0 && j <= k
    ensures At(rate, j) <= At(rate, k)
  {
    if j < k {
      AtGrows(rate, j, k - 1);
      AtStep(rate, k - 1);
    }
    hide At;
  }

  /** One call by each of the first m threads. */
  function Crowd(m: nat, at: real): seq<Call> {
    seq(m, i requires 0 <= i < m => Call(i, at))
  }

  /** Empties the bucket of C tokens, then for every token that accrues lets one call have it and m calls
      wait for the next. */
  function Busy(rate: real, c: nat, m: nat, k: nat): seq<Call>
    requires rate > 0.0
  {
    if k == 0 then seq(c, _ => Call(0, 0.0))
    else Busy(rate, c, m, k - 1) + Crowd(m, At(rate, k - 1)) + [Call(0, At(rate, k))]
  }

  /** Up to time `at` the calls are ordered, the grants are sequential and by threads below m, and n of
      them lie in the window [0, to]. */
  ghost predicate Track(b: Bucket, calls: seq<Call>, at: real, m: nat, to: real, n: nat)
    requires b.rate > 0.0
  {
    var grants := History(b, calls).grants;
    && Ordered(calls, 0.0) && CallsBy(calls, at)
    && Sequential(grants) && Count(grants, 0.0, to) == n as real && GrantsBy(grants, m, at)
  }

  predicate CallsBy(calls: seq<Call>, at: real) {
    forall c <- calls :: c.at <= at
  }

  predicate GrantsBy(grants: seq<Grant>, m: nat, at: real) {
    forall g <- grants :: g.thread < m && g.at <= at
  }

  /** The threads below i are free at `next`, the others at `at`. */
  predicate FreeBy(grants: seq<Grant>, at: real, next: real, i: nat) {
    forall g <- grants :: g.at + g.wait <= if g.thread < i then next else at
  }

  lemma BySnoc(calls: seq<Call>, c: Call, grants: seq<Grant>, g: Grant, m: nat, before: real)
    requires CallsBy(calls, before) && GrantsBy(grants, m, before) && before <= c.at == g.at && g.thread < m
    ensures CallsBy(calls + [c], c.at) && GrantsBy(grants + [g], m, c.at)
  {
  }

  /** The bucket is empty at time `at`; the first i threads are asleep until `next`, the others free. */
  ghost predicate Empty(b: Bucket, calls: seq<Call>, at: real, next: real, i: nat)
    requires b.rate > 0.0
  {
    var log := History(b, calls);
    log.bucket.tokens == 0.0 && log.bucket.last == at && FreeBy(log.grants, at, next, i)
  }

  lemma OrderedSnoc(calls: seq<Call>, c: Call)
    requires Ordered(calls, 0.0) && c.at >= 0.0 && CallsBy(calls, c.at)
    ensures Ordered(calls + [c], 0.0)
  {
  }

  lemma SequentialSnoc(grants: seq<Grant>, g: Grant)
    requires Sequential(grants) && forall f <- grants :: f.thread == g.thread ==> f.at + f.wait <= g.at
    ensures Sequential(grants + [g])
  {
    var all := grants + [g];
    forall i, j | 0 <= i < j < |all| && all[i].thread == all[j].thread
      ensures all[i].at + all[i].wait <= all[j].at
    {
      assert grants[i] in grants && all[i] == grants[i];
      if j < |grants| { assert all[j] == grants[j]; }
    }
  }

  lemma TrackSnoc(b: Bucket, calls: seq<Call>, before: real, c: Call, g: Grant, m: nat, to: real, n: nat)
    requires b.rate > 0.0 && Track(b, calls, before, m, to, n) && before <= c.at && c.at >= 0.0
    requires Next(History(b, calls), c).grants == History(b, calls).grants + [g]
    requires g.at == c.at && g.thread == c.thread < m && Within(g, 0.0, to)
    requires forall f <- History(b, calls).grants :: f.thread == g.thread ==> f.at + f.wait <= g.at
    ensures Track(b, calls + [c], c.at, m, to, n + 1)
  {
    hide Next, History, Count, Ordered, Sequential, CallsBy, GrantsBy, Within;
    var grants := History(b, calls).grants;
    HistorySnoc(b, calls, c);
    CallsLater(calls, before, c.at);
    OrderedSnoc(calls, c);
    SequentialSnoc(grants, g);
    CountSnoc(grants, g, 0.0, to);
    BySnoc(calls, c, grants, g, m, before);
  }

  lemma CallsLater(calls: seq<Call>, at: real, later: real)
    requires CallsBy(calls, at) && at <= later
    ensures CallsBy(calls, later)
  {
  }

  /** A call that finds a whole token. */
  lemma Served(log: Log, c: Call)
    requires log.bucket.rate > 0.0
    requires Min(log.bucket.capacity, log.bucket.tokens + Earned(log.bucket.rate, log.bucket.last, c.at)) >= 1.0
    ensures Next(log, c).grants == log.grants + [Grant(c.thread, c.at, 1.0, 0.0)]
    ensures Next(log, c).bucket.tokens
              == Min(log.bucket.capacity, log.bucket.tokens + Earned(log.bucket.rate, log.bucket.last, c.at)) - 1.0
    ensures Next(log, c).bucket.last == c.at
  {
    hide Earned;
  }

  /** A call that finds the bucket empty. */
  lemma Waits(log: Log, c: Call)
    requires ValidBucket(log.bucket) && log.bucket.tokens == 0.0 && c.at == log.bucket.last
    ensures Next(log, c).grants == log.grants + [Grant(c.thread, c.at, 0.0, 1.0 / log.bucket.rate)]
    ensures Next(log, c).bucket == log.bucket
  {
    assert Earned(log.bucket.rate, c.at, c.at) == 0.0;
    hide Earned;
  }

  lemma {:induction false} Burst(b: Bucket, c: nat, i: nat, m: nat, to: real)
    requires ValidBucket(b) && b.capacity == b.tokens == c as real && b.last == 0.0 && i <= c && m > 0 && to >= 0.0
    ensures var calls := seq(i, _ => Call(0, 0.0));
            && Track(b, calls, 0.0, m, to, i)
            && var log := History(b, calls);
               log.bucket.tokens == (c - i) as real && log.bucket.last == 0.0
               && forall g <- log.grants :: g.at == 0.0 && g.wait == 0.0
  {
    if i > 0 {
      Burst(b, c, i - 1, m, to);
      var calls, call := seq(i - 1, _ => Call(0, 0.0)), Call(0, 0.0);
      assert seq(i, _ => Call(0, 0.0)) == calls + [call];
      var log := History(b, calls);
      assert Earned(b.rate, 0.0, 0.0) == 0.0;
      hide Earned, Track, Within;
      Served(log, call);
      HistorySnoc(b, calls, call);
      hide History, Next;
      assert Within(Grant(0, 0.0, 1.0, 0.0), 0.0, to) by { InWindow(Grant(0, 0.0, 1.0, 0.0), to); }
      TrackSnoc(b, calls, 0.0, call, Grant(0, 0.0, 1.0, 0.0), m, to, i - 1);
    }
  }

  lemma InWindow(g: Grant, to: real)
    requires 0.0 <= g.at && g.at + g.wait <= to
    ensures Within(g, 0.0, to)
  {
  }

  lemma FreeSnoc(grants: seq<Grant>, g: Grant, at: real, next: real, i: nat)
    requires FreeBy(grants, at, next, i) && g.thread == i && at <= next && g.at + g.wait <= next
    ensures FreeBy(grants + [g], at, next, i + 1)
    ensures forall f <- grants :: f.thread == i ==> f.at + f.wait <= at
  {
  }

  lemma OneWaits(b: Bucket, calls: seq<Call>, at: real, next: real, i: nat, m: nat, to: real, n: nat)
    requires ValidBucket(b) && i < m && next == at + 1.0 / b.rate && 0.0 <= at && next <= to
    requires Track(b, calls, at, m, to, n) && Empty(b, calls, at, next, i)
    ensures Track(b, calls + [Call(i, at)], at, m, to, n + 1) && Empty(b, calls + [Call(i, at)], at, next, i + 1)
  {
    var call, log, g := Call(i, at), History(b, calls), Grant(i, at, 0.0, 1.0 / b.rate);
    assert 1.0 / b.rate > 0.0;
    Waits(log, call);
    HistorySnoc(b, calls, call);
    InWindow(g, to);
    FreeSnoc(log.grants, g, at, next, i);
    hide Track, History, Next, Within, FreeBy;
    TrackSnoc(b, calls, at, call, g, m, to, n);
  }

  lemma CrowdSnoc(i: nat, at: real)
    ensures Crowd(i + 1, at) == Crowd(i, at) + [Call(i, at)] && Crowd(0, at) == []
  {
  }

  /** The first i threads ask while the bucket is empty. */
  lemma {:induction false} CrowdWaits(b: Bucket, calls: seq<Call>, at: real, next: real, i: nat, m: nat, to: real, n: nat)
    requires ValidBucket(b) && i <= m && next == at + 1.0 / b.rate && 0.0 <= at && next <= to
    requires Track(b, calls, at, m, to, n) && Empty(b, calls, at, next, 0)
    ensures Track(b, calls + Crowd(i, at), at, m, to, n + i) && Empty(b, calls + Crowd(i, at), at, next, i)
  {
    hide Track, Empty, Crowd, ValidBucket;
    if i == 0 {
      CrowdSnoc(0, at);
      assert calls + [] == calls;
    } else {
      CrowdWaits(b, calls, at, next, i - 1, m, to, n);
      OneWaits(b, calls + Crowd(i - 1, at), at, next, i - 1, m, to, n + i - 1);
      CrowdSnoc(i - 1, at);
      assert calls + (Crowd(i - 1, at) + [Call(i - 1, at)]) == calls + Crowd(i - 1, at) + [Call(i - 1, at)];
    }
  }

  lemma {:induction false} Wave(b: Bucket, calls: seq<Call>, k: nat, m: nat, to: real, n: nat)
    requires ValidBucket(b) && b.capacity >= 1.0 && m > 0 && At(b.rate, k + 1) <= to
    requires Track(b, calls, At(b.rate, k), m, to, n) && Empty(b, calls, At(b.rate, k), At(b.rate, k + 1), 0)
    ensures var calls' := calls + Crowd(m, At(b.rate, k)) + [Call(0, At(b.rate, k + 1))];
            && Track(b, calls', At(b.rate, k + 1), m, to, n + m + 1)
            && Empty(b, calls', At(b.rate, k + 1), At(b.rate, k + 2), 0)
  {
    AtStep(b.rate, k);
    AtGrows(b.rate, 0, k);
    var at, next := At(b.rate, k), At(b.rate, k + 1);
    CrowdWaits(b, calls, at, next, m, m, to, n);
    var waiting, call := calls + Crowd(m, at), Call(0, next);
    var log, g := History(b, waiting), Grant(0, next, 1.0, 0.0);
    Served(log, call);
    HistorySnoc(b, waiting, call);
    InWindow(g, to);
    TrackThreads(b, waiting, at, m, to, n + m);
    AllFree(log.grants, at, next, m, At(b.rate, k + 2), g);
    hide At, Track, History, Next, Within, Earned, FreeBy, GrantsBy;
    TrackSnoc(b, waiting, at, call, g, m, to, n + m);
  }

  /** All threads are free when the next token has accrued. */
  lemma AllFree(grants: seq<Grant>, at: real, next: real, m: nat, later: real, g: Grant)
    requires FreeBy(grants, at, next, m) && GrantsBy(grants, m, at) && g.at == next && g.wait == 0.0
    ensures FreeBy(grants + [g], next, later, 0)
    ensures forall f <- grants :: f.at + f.wait <= next
  {
  }

  lemma TrackThreads(b: Bucket, calls: seq<Call>, at: real, m: nat, to: real, n: nat)
    requires b.rate > 0.0 && Track(b, calls, at, m, to, n)
    ensures GrantsBy(History(b, calls).grants, m, at)
  {
  }

  /** The grants that Busy gets. */
  function Granted(c: nat, m: nat, k: nat): nat {
    c + k * (m + 1)
  }

  lemma GrantedStep(c: nat, m: nat, k: nat)
    requires k > 0
    ensures Granted(c, m, k) == Granted(c, m, k - 1) + m + 1 && Granted(c, m, 0) == c
  {
    assert k * (m + 1) == (k - 1) * (m + 1) + (m + 1);
  }

  lemma BusyStep(rate: real, c: nat, m: nat, k: nat)
    requires rate > 0.0 && k > 0
    ensures Busy(rate, c, m, k) == Busy(rate, c, m, k - 1) + Crowd(m, At(rate, k - 1)) + [Call(0, At(rate, k))]
  {
    hide At, Crowd;
  }

  ghost predicate BusyTracked(b: Bucket, c: nat, m: nat, k: nat, to: real)
    requires b.rate > 0.0
  {
    && Track(b, Busy(b.rate, c, m, k), At(b.rate, k), m, to, Granted(c, m, k))
    && Empty(b, Busy(b.rate, c, m, k), At(b.rate, k), At(b.rate, k + 1), 0)
  }

  lemma BusyNext(b: Bucket, c: nat, m: nat, k: nat, to: real)
    requires ValidBucket(b) && b.capacity >= 1.0 && m > 0 && At(b.rate, k + 1) <= to && BusyTracked(b, c, m, k, to)
    ensures BusyTracked(b, c, m, k + 1, to)
  {
    BusyStep(b.rate, c, m, k + 1);
    GrantedStep(c, m, k + 1);
    hide Track, Empty, Busy, At, Granted, Crowd, ValidBucket;
    Wave(b, Busy(b.rate, c, m, k), k, m, to, Granted(c, m, k));
  }

  lemma {:induction false} BusyRuns(b: Bucket, c: nat, m: nat, k: nat, to: real)
    requires ValidBucket(b) && b.capacity == b.tokens == c as real && b.capacity >= 1.0 && b.last == 0.0
    requires m > 0 && At(b.rate, k) <= to
    ensures BusyTracked(b, c, m, k, to)
  {
    hide BusyTracked, At;
    if k == 0 {
      Started(b, c, m, to);
    } else {
      AtGrows(b.rate, k - 1, k);
      BusyRuns(b, c, m, k - 1, to);
      BusyNext(b, c, m, k - 1, to);
    }
  }

  lemma Started(b: Bucket, c: nat, m: nat, to: real)
    requires ValidBucket(b) && b.capacity == b.tokens == c as real && b.last == 0.0 && m > 0 && At(b.rate, 0) <= to
    ensures BusyTracked(b, c, m, 0, to)
  {
    AtStep(b.rate, 0);
    GrantedStep(c, m, 1);
    Burst(b, c, c, m, to);
    hide Track, History, At, Granted;
  }

  /** The bound is the least: for every rate, every whole capacity C, every m >= 1 and every whole number k
      of tokens that the window refills, m sequential threads get C + (m+1) k grants within it. */
  lemma BoundAttained(rate: real, c: nat, m: nat, k: nat)
    requires rate > 0.0 && c > 0 && m > 0
    ensures var b, calls, to := Bucket(rate, c as real, c as real, 0.0), Busy(rate, c, m, k), At(rate, k);
            && ValidBucket(b) && Ordered(calls, b.last) && Earned(rate, 0.0, to) == k as real
            && (forall g <- History(b, calls).grants :: g.thread < m) && Sequential(History(b, calls).grants)
            && Count(History(b, calls).grants, 0.0, to) == b.capacity + Times(m + 1, Earned(rate, 0.0, to))
  {
    var b, to := Bucket(rate, c as real, c as real, 0.0), At(rate, k);
    BusyRuns(b, c, m, k, to);
    AtStep(rate, k);
    hide History, Busy, Count, Ordered, Sequential, Earned, Times, At;
    RealProduct(c, m, k);
  }

  lemma RealProduct(c: nat, m: nat, k: nat)
    ensures Granted(c, m, k) as real == c as real + Times(m + 1, k as real)
  {
    assert (k * (m + 1)) as real == k as real * (m + 1) as real;
  }

  lemma UnitNext(log: Log, c: Call)
    requires log.bucket.rate == 1.0 && log.bucket.capacity == 1.0
    ensures var t := Min(1.0, log.bucket.tokens + (c.at - log.bucket.last));
            Next(log, c) == Log(Bucket(1.0, 1.0, Max(0.0, t - 1.0), c.at),
                                log.grants + [Grant(c.thread, c.at, Min(t, 1.0), if t < 1.0 then 1.0 - t else 0.0)])
  {
  }

  const THREE_CALLS := [Call(0, 0.0), Call(0, 0.0), Call(0, 1.0)]

  const THREE_GRANTS := [Grant(0, 0.0, 1.0, 0.0), Grant(0, 0.0, 0.0, 1.0), Grant(0, 1.0, 1.0, 0.0)]

  lemma ThreeGranted()
    ensures History(Bucket(1.0, 1.0, 1.0, 0.0), THREE_CALLS).grants == THREE_GRANTS
  {
    var b, calls, g := Bucket(1.0, 1.0, 1.0, 0.0), THREE_CALLS, THREE_GRANTS;
    var empty := Bucket(1.0, 1.0, 0.0, 0.0);
    var l1, l2 := Log(empty, [g[0]]), Log(empty, [g[0], g[1]]);
    UnitNext(Log(b, []), calls[0]);
    UnitNext(l1, calls[1]);
    UnitNext(l2, calls[2]);
    hide Next, Take, Refill, Earned;
    HistorySnoc(b, [], calls[0]);
    HistorySnoc(b, [calls[0]], calls[1]);
    HistorySnoc(b, [calls[0], calls[1]], calls[2]);
    assert [] + [calls[0]] == [calls[0]];
    assert History(b, [calls[0]]) == l1;
    assert [calls[0]] + [calls[1]] == [calls[0], calls[1]];
    assert History(b, [calls[0], calls[1]]) == l2;
    assert [calls[0], calls[1]] + [calls[2]] == calls;
  }

  lemma CountSnoc(grants: seq<Grant>, g: Grant, from: real, to: real)
    ensures Count(grants + [g], from, to) == Count(grants, from, to) + if Within(g, from, to) then 1.0 else 0.0
  {
    assert (grants + [g])[..|grants|] == grants;
  }

  lemma ThreeCounted()
    ensures Sequential(THREE_GRANTS) && Count(THREE_GRANTS, 0.0, 1.0) == 3.0
  {
    var g := THREE_GRANTS;
    CountSnoc([], g[0], 0.0, 1.0);
    CountSnoc([g[0]], g[1], 0.0, 1.0);
    CountSnoc([g[0], g[1]], g[2], 0.0, 1.0);
    assert Count([], 0.0, 1.0) == 0.0;
    hide Count;
    assert [] + [g[0]] == [g[0]] && [g[0]] + [g[1]] == [g[0], g[1]] && [g[0], g[1]] + [g[2]] == g;
  }

  /** If the calls are made by m threads that sleep out their grants, the window from `from` in which k tokens
      are earned has no more than C + k grants. */
  ghost predicate IdealIn(b: Bucket, calls: seq<Call>, m: nat, from: real, k: nat)
    requires b.rate > 0.0
  {
    b.last <= from && Ordered(calls, b.last) && Sequential(History(b, calls).grants)
    && (forall g <- History(b, calls).grants :: g.thread < m) ==>
      Count(History(b, calls).grants, from, from + At(b.rate, k)) <= b.capacity + k as real
  }

  ghost predicate IdealHolds(b: Bucket, m: nat, k: nat)
    requires b.rate > 0.0
  {
    forall calls, from: real :: IdealIn(b, calls, m, from, k)
  }

  lemma WindowEarns(rate: real, from: real, k: nat)
    requires rate > 0.0
    ensures Earned(rate, from, from + At(rate, k)) == k as real && At(rate, k) >= 0.0 && At(rate, 0) == 0.0
  {
  }

  /** Main result. The classical bound holds of all histories of a full bucket of whole capacity exactly for
      windows in which nothing is earned. */
  lemma IdealOnlyWhenIdle(rate: real, c: nat, m: nat, k: nat)
    requires rate > 0.0 && c > 0 && m > 0
    ensures IdealHolds(Bucket(rate, c as real, c as real, 0.0), m, k) <==> k == 0
  {
    var b := Bucket(rate, c as real, c as real, 0.0);
    hide History, Busy, Count, Ordered, Sequential, Earned, At, Times;
    MoreThanIdeal(m, k);
    if k == 0 {
      forall calls, from: real ensures IdealIn(b, calls, m, from, k) {
        WindowEarns(rate, from, 0);
        if b.last <= from && Ordered(calls, b.last) && Sequential(History(b, calls).grants)
           && (forall g <- History(b, calls).grants :: g.thread < m) {
          GrantsBounded(b, calls, m, from, from + At(rate, 0));
        }
      }
    } else {
      BoundAttained(rate, c, m, k);
      assert 0.0 + At(rate, k) == At(rate, k);
      assert !IdealIn(b, Busy(rate, c, m, k), m, 0.0, k);
    }
  }

  lemma MoreThanIdeal(m: nat, k: nat)
    requires m > 0
    ensures (k > 0 ==> Times(m + 1, k as real) > k as real) && Times(m + 1, 0.0) == 0.0
  {
  }

  /** The bound C + rT of an ideal token bucket is false even for one thread: at one token a second
      and capacity one, three calls are granted within one second. */
  lemma IdealBoundFails()
    ensures var b := Bucket(1.0, 1.0, 1.0, 0.0);
            var grants := History(b, THREE_CALLS).grants;
            && Ordered(THREE_CALLS, 0.0) && Sequential(grants)
            && Count(grants, 0.0, 1.0) > b.capacity + Earned(b.rate, 0.0, 1.0)
  {
    ThreeGranted();
    ThreeCounted();
    assert Earned(1.0, 0.0, 1.0) == 1.0;
    hide History, Count, Sequential, Earned;
  }
}
