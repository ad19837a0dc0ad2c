/** The rate limiter's integer arithmetic, and what the documented token bucket admits. */
module RateLimit {
  import opened Wrappers

  newtype u32 = x: int | 0 <= x < 0x1_0000_0000

  datatype RateLimitConfig = RateLimitConfig(perMinute: u32, burst: u32)

  /** A parsed setting counts only if positive; otherwise the default applies. */
  function PositiveOr(parsed: Option<u32>, default: u32): (v: u32)
    requires default > 0
    ensures v > 0
    ensures parsed.Some? && parsed.value > 0 ==> v == parsed.value
    ensures parsed == None || parsed == Some(0) ==> v == default
  {
    if parsed.Some? && parsed.value > 0 then parsed.value else default
  }

  function FromEnv(perMinute: Option<u32>, burst: Option<u32>): (c: RateLimitConfig)
    ensures c.perMinute > 0 && c.burst > 0
    ensures perMinute == Some(c.perMinute) || (c.perMinute == 10 && (perMinute == None || perMinute == Some(0)))
    ensures burst == Some(c.burst) || (c.burst == 5 && (burst == None || burst == Some(0)))
  {
    RateLimitConfig(PositiveOr(perMinute, 10), PositiveOr(burst, 5))
  }

  const MINUTE := 60_000

  /** Milliseconds until one more request is allowed. */
  function ReplenishInterval(perMinute: u32): (millis: int)
    ensures 1 <= millis <= MINUTE
  {
    if perMinute == 0 then MINUTE
    else
      var millis := MINUTE / (if perMinute > 1 then perMinute else 1) as int;
      if millis > 1 then millis else 1
  }

  /** The requests per minute that the interval really sustains. */
  function Sustained(perMinute: u32): (rate: int) {
    MINUTE / ReplenishInterval(perMinute)
  }

  lemma ProductGrows(x: int, y: int, b: int)
    requires x <= y && b >= 0
    ensures x * b <= y * b
  {
  }

  lemma DivideOnce(a: int, b: int, q: int)
    requires b > 0 && q * b <= a < (q + 1) * b
    ensures a / b == q
  {
    var r := a / b;
    assert r * b <= a < r * b + b;
    if r < q {
      ProductGrows(r + 1, q, b);
    } else if r > q {
      ProductGrows(q + 1, r, b);
    }
  }

  lemma QuotientFalls(a: int, p: int, q: int)
    requires a >= 0 && 1 <= p <= q
    ensures a / q <= a / p
  {
    var x, y := a / p, a / q;
    assert x * p <= a < x * p + p;
    assert y * q <= a;
    ProductGrows(p, q, y);
    if y > x {
      ProductGrows(x + 1, y, p);
      assert false;
    }
  }

  /** The interval is a minute divided by the rate, rounded down; a minute for a rate of zero, and
      never less than a millisecond. */
  lemma IntervalIsQuotient(p: u32)
    ensures p == 0 ==> ReplenishInterval(p) == 60_000
    ensures 1 <= p && p as int <= 60_000 ==>
      ReplenishInterval(p) * p as int <= 60_000 < (ReplenishInterval(p) + 1) * p as int
    ensures p as int > 60_000 ==> ReplenishInterval(p) == 1
  {
    if p >= 1 {
      var i := MINUTE / p as int;
      assert i * p as int <= MINUTE < i * p as int + p as int;
      assert (i + 1) * p as int == i * p as int + p as int;
      if p as int > MINUTE {
        DivideOnce(MINUTE, p as int, 0);
      } else {
        QuotientFalls(MINUTE, p as int, MINUTE);
        DivideOnce(MINUTE, MINUTE, 1);
      }
    }
  }

  /** A higher rate never waits longer. */
  lemma IntervalNeverGrows(p: u32, q: u32)
    requires 1 <= p <= q
    ensures ReplenishInterval(q) <= ReplenishInterval(p)
  {
    QuotientFalls(MINUTE, p as int, q as int);
  }

  /** With i the interval and r the remainder of the first division, the rate is p + r / i. */
  lemma SustainedIsRatePlus(p: u32)
    requires 1 <= p && p as int <= MINUTE
    ensures
      var i, r := MINUTE / p as int, MINUTE % p as int;
      i >= 1 && ReplenishInterval(p) == i && 0 <= r < p as int && Sustained(p) == p as int + r / i
  {
    var i, r := MINUTE / p as int, MINUTE % p as int;
    QuotientFalls(MINUTE, p as int, MINUTE);
    assert MINUTE == i * p as int + r;
    var k := r / i;
    assert k * i <= r < k * i + i;
    assert (p as int + k) * i == i * p as int + k * i;
    assert (p as int + k + 1) * i == i * p as int + k * i + i;
    DivideOnce(MINUTE, i, p as int + k);
  }

  lemma SmallQuotient(r: int, i: int)
    requires r >= 0 && i >= 1
    ensures 0 <= r / i <= r
    ensures r / i == 0 <==> r < i
  {
    var k := r / i;
    assert k * i <= r < k * i + i;
    if r < i {
      DivideOnce(r, i, 0);
    } else {
      QuotientFalls(r, i, r);
      DivideOnce(r, r, 1);
    }
    QuotientFalls(r, 1, i);
    DivideOnce(r, 1, r);
  }

  /** Up to 60000 a minute the limiter sustains the configured rate exactly when the division
      leaves less than one interval over, and otherwise more, but less than twice the rate. */
  lemma SustainedRate(p: u32)
    requires 1 <= p && p as int <= MINUTE
    ensures Sustained(p) == p as int <==> MINUTE % p as int < MINUTE / p as int
    ensures p as int <= Sustained(p) <= 2 * p as int - 1
  {
    SustainedIsRatePlus(p);
    var i, r := MINUTE / p as int, MINUTE % p as int;
    SmallQuotient(r, i);
  }

  /** The rate can exceed the configured one: 249 a minute lets 250 through. */
  lemma SustainedRateCanExceed()
    ensures ReplenishInterval(249) == 240 && Sustained(249) == 250
  {
  }

  /** Every rate up to 244 a minute is sustained exactly; beyond 60000 the rate is 60000. */
  lemma SmallRatesAreExact(p: u32)
    requires 1 <= p
    ensures p <= 244 ==> Sustained(p) == p as int
    ensures p as int > MINUTE ==> ReplenishInterval(p) == 1 && Sustained(p) == MINUTE
  {
    if p <= 244 {
      SustainedRate(p);
      QuotientFalls(MINUTE, p as int, 244);
      assert MINUTE / 244 == 245;
    } else if p as int > MINUTE {
      DivideOnce(MINUTE, p as int, 0);
      DivideOnce(MINUTE, 1, MINUTE);
    }
  }

  // ---- The documented bucket ----

  /** `credit` is in milliseconds of waiting: a request costs one interval, and a full bucket
      holds `burst` of them. */
  datatype Bucket = Bucket(credit: int, at: int)

  function Refilled(b: Bucket, interval: int, burst: int, now: int): (r: Bucket)
    requires b.at <= now
    ensures r.credit <= burst * interval && r.at == now
    ensures r.credit <= b.credit + (now - b.at)
  {
    var credit := b.credit + (now - b.at);
    Bucket(if credit > burst * interval then burst * interval else credit, now)
  }

  /** One request: whether it is admitted, and the bucket after it. */
  function Admit(b: Bucket, interval: int, burst: int, now: int): (r: (bool, Bucket))
    requires b.at <= now
  {
    var full := Refilled(b, interval, burst, now);
    if full.credit >= interval then (true, full.(credit := full.credit - interval)) else (false, full)
  }

  predicate InOrder(times: seq<int>, from: int) {
    times == [] || (from <= times[0] && InOrder(times[1..], times[0]))
  }

  function Admitted(b: Bucket, interval: int, burst: int, times: seq<int>): (n: nat)
    requires InOrder(times, b.at)
    decreases |times|
  {
    if times == [] then 0
    else
      var (ok, next) := Admit(b, interval, burst, times[0]);
      (if ok then 1 else 0) + Admitted(next, interval, burst, times[1..])
  }

  lemma CreditStaysPositive(b: Bucket, interval: int, burst: int, now: int)
    requires interval >= 1 && burst >= 0 && 0 <= b.credit && b.at <= now
    ensures Admit(b, interval, burst, now).1.credit >= 0
  {
    ProductGrows(0, burst, interval);
  }

  /** What is admitted was paid for, from the credit at hand and the time that passed. */
  lemma {:induction false} AdmissionsArePaid(b: Bucket, interval: int, burst: int, times: seq<int>, end: int)
    requires interval >= 1 && burst >= 0 && 0 <= b.credit && b.at <= end && InOrder(times, b.at)
    requires forall k :: 0 <= k < |times| ==> times[k] <= end
    ensures Admitted(b, interval, burst, times) * interval <= b.credit + (end - b.at)
    decreases |times|
  {
    if times != [] {
      var (ok, next) := Admit(b, interval, burst, times[0]);
      CreditStaysPositive(b, interval, burst, times[0]);
      AdmissionsArePaid(next, interval, burst, times[1..], end);
      var rest := Admitted(next, interval, burst, times[1..]);
      assert (1 + rest) * interval == interval + rest * interval;
    }
  }

  /** Refilling early makes no difference to a later request. */
  lemma EarlyRefill(b: Bucket, interval: int, burst: int, early: int, times: seq<int>)
    requires b.at <= early && InOrder(times, early)
    ensures InOrder(times, b.at)
    ensures Admitted(Refilled(b, interval, burst, early), interval, burst, times) == Admitted(b, interval, burst, times)
  {
    if times != [] {
      assert Refilled(Refilled(b, interval, burst, early), interval, burst, times[0])
          == Refilled(b, interval, burst, times[0]);
    }
  }

  lemma FloorIsGreatest(n: int, x: int, t: nat, i: int)
    requires i > 0 && n * i <= x * i + t
    ensures n <= x + t / i
  {
    var q := t / i;
    assert t < q * i + i;
    assert (x + q + 1) * i == x * i + q * i + i;
    if n >= x + q + 1 {
      ProductGrows(x + q + 1, n, i);
      assert false;
    }
  }

  /** Whatever came before, a window of t milliseconds admits at most burst + floor(t / i)
      requests of one key, i being the interval. */
  lemma WindowIsLimited(c: RateLimitConfig, b: Bucket, start: int, t: nat, times: seq<int>)
    requires b.credit >= 0 && b.at <= start && InOrder(times, start)
    requires forall k :: 0 <= k < |times| ==> times[k] <= start + t
    ensures InOrder(times, b.at)
    ensures
      var i := ReplenishInterval(c.perMinute);
      Admitted(b, i, c.burst as int, times) <= c.burst as int + t / i
  {
    var i, burst := ReplenishInterval(c.perMinute), c.burst as int;
    EarlyRefill(b, i, burst, start, times);
    ProductGrows(0, burst, i);
    AdmissionsArePaid(Refilled(b, i, burst, start), i, burst, times, start + t);
    var n := Admitted(b, i, burst, times);
    assert n * i <= burst * i + t;
    FloorIsGreatest(n, burst, t, i);
  }

  // ---- What the bucket does not refuse ----

  /** A bucket left alone for `burst` intervals is full again. */
  lemma QuietRefills(b: Bucket, interval: int, burst: int, now: int)
    requires 0 <= b.credit && b.at + burst * interval <= now && b.at <= now
    ensures Refilled(b, interval, burst, now).credit == burst * interval
  {
  }

  /** Of n requests at one moment, a bucket with credit for c admits c, or all if there are fewer. */
  lemma {:induction false} BurstIsAdmitted(b: Bucket, interval: int, burst: int, c: nat, times: seq<int>)
    requires interval >= 1 && c <= burst && b.credit == c * interval
    requires forall k :: 0 <= k < |times| ==> times[k] == b.at
    ensures InOrder(times, b.at)
    ensures Admitted(b, interval, burst, times) == if |times| <= c then |times| else c
    decreases |times|
  {
    if times != [] {
      ProductGrows(c, burst, interval);
      if c == 0 {
        BurstIsAdmitted(b, interval, burst, 0, times[1..]);
      } else {
        assert (c - 1) * interval == c * interval - interval;
        ProductGrows(1, c, interval);
        BurstIsAdmitted(Bucket((c - 1) * interval, b.at), interval, burst, c - 1, times[1..]);
      }
    }
  }

  /** Whoever leaves one interval before each request is never refused. */
  lemma {:induction false} PacedRequestsAreAdmitted(b: Bucket, interval: int, burst: int, times: seq<int>)
    requires interval >= 1 && burst >= 1 && 0 <= b.credit
    requires times != [] ==> times[0] >= b.at + interval
    requires forall k :: 1 <= k < |times| ==> times[k] >= times[k - 1] + interval
    ensures InOrder(times, b.at)
    ensures Admitted(b, interval, burst, times) == |times|
    decreases |times|
  {
    if times != [] {
      ProductGrows(1, burst, interval);
      var next := Admit(b, interval, burst, times[0]).1;
      PacedRequestsAreAdmitted(next, interval, burst, times[1..]);
    }
  }
}
