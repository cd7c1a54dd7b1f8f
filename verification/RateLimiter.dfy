/** The publish rate limiter: the generic cell rate algorithm in its virtual-scheduling form
    (Annex A of ITU-T I.371), on a clock that counts nanoseconds. */
module RateLimiter {
  import opened Optional

  const SECOND := 1_000_000_000

  /** `interval` is the time between grants, `tau` the burst tolerance. */
  datatype Config = Config(perSec: int, interval: int, tau: int)

  predicate ValidConfig(c: Config)
  {
    c.perSec >= 1 && c.interval >= 1 && c.tau == (c.perSec - 1) * c.interval && c.tau >= 0
  }

  /** No limiter for a rate that is not positive. */
  function NewConfig(perSec: int): (c: Option<Config>)
    ensures c.Some? <==> perSec > 0
    ensures c.Some? ==> ValidConfig(c.value) && c.value.perSec == perSec
  {
    if perSec <= 0 then None
    else
      var interval := if SECOND / perSec <= 0 then 1 else SECOND / perSec;
      MulNonNegative(perSec - 1, interval);
      Some(Config(perSec, interval, (perSec - 1) * interval))
  }

  lemma MulNonNegative(a: int, b: int)
    requires a >= 0 && b >= 0
    ensures a * b >= 0
  {
  }

  function Max(a: int, b: int): int
  {
    if a < b then b else a
  }

  /** The cursor, moved up to the clock if it fell behind: when this grant is due. */
  function Due(tat: int, now: int): int
  {
    Max(tat, now)
  }

  /** How long the caller waits. */
  function WaitFor(c: Config, tat: int, now: int): int
  {
    Max(0, Due(tat, now) - c.tau - now)
  }

  class Limiter {
    const config: Config
    var tat: int

    constructor (config: Config, zero: int)
      ensures this.config == config && tat == zero
    {
      this.config := config;
      tat := zero;
    }

    method Reserve(now: int) returns (wait: int)
      modifies this
      ensures wait == WaitFor(config, old(tat), now)
      ensures tat == Due(old(tat), now) + config.interval
    {
      if tat < now {
        tat := now;
      }
      var allowAt := tat - config.tau;
      tat := tat + config.interval;
      if now < allowAt {
        return allowAt - now;
      }
      return 0;
    }
  }

  /** The cursor after reservations made at the clock samples `nows`, in any order. */
  function Cursor(c: Config, zero: int, nows: seq<int>): int
  {
    if nows == [] then zero
    else Due(Cursor(c, zero, nows[..|nows| - 1]), nows[|nows| - 1]) + c.interval
  }

  /** When reservation `i` is due, and when it is released. */
  function DueAt(c: Config, zero: int, nows: seq<int>, i: nat): int
    requires i < |nows|
  {
    Due(Cursor(c, zero, nows[..i]), nows[i])
  }

  function ReleaseAt(c: Config, zero: int, nows: seq<int>, i: nat): int
    requires i < |nows|
  {
    nows[i] + WaitFor(c, Cursor(c, zero, nows[..i]), nows[i])
  }

  /** How many of the first `n` reservations are released in [from, upto], not counting
      those whose caller gave up while waiting. */
  function Released(c: Config, zero: int, nows: seq<int>, gaveUp: set<nat>, n: nat, from: int, upto: int): nat
    requires n <= |nows|
  {
    if n == 0 then 0
    else Released(c, zero, nows, gaveUp, n - 1, from, upto)
         + if n - 1 !in gaveUp && from <= ReleaseAt(c, zero, nows, n - 1) <= upto then 1 else 0
  }

  /** A limiter asked at `nows` makes the waits that ReleaseAt adds to each clock sample. */
  method Pace(c: Config, zero: int, nows: seq<int>) returns (waits: seq<int>)
    ensures |waits| == |nows|
    ensures forall i :: 0 <= i < |nows| ==> waits[i] >= 0 && nows[i] + waits[i] == ReleaseAt(c, zero, nows, i)
  {
    var limiter := new Limiter(c, zero);
    waits := [];
    for n := 0 to |nows|
      invariant limiter.config == c && limiter.tat == Cursor(c, zero, nows[..n])
      invariant |waits| == n
      invariant forall i :: 0 <= i < n ==> waits[i] >= 0 && nows[i] + waits[i] == ReleaseAt(c, zero, nows, i)
    {
      var wait := limiter.Reserve(nows[n]);
      CursorAfter(c, zero, nows, n);
      waits := waits + [wait];
    }
  }

  lemma CursorAfter(c: Config, zero: int, nows: seq<int>, n: nat)
    requires n < |nows|
    ensures Cursor(c, zero, nows[..n + 1]) == DueAt(c, zero, nows, n) + c.interval
  {
    assert nows[..n + 1][..n] == nows[..n];
  }

  /** The releases counted so far, less one, are an interval apart within the time from `from`
      to the cursor. */
  lemma {:induction false} ReleasedSpread(c: Config, zero: int, nows: seq<int>, gaveUp: set<nat>, n: nat, from: int, upto: int)
    requires ValidConfig(c) && n <= |nows|
    ensures var k := Released(c, zero, nows, gaveUp, n, from, upto);
            k > 0 ==> k * c.interval <= Cursor(c, zero, nows[..n]) - from
                      && (k - 1) * c.interval <= upto + c.tau - from
  {
    if n > 0 {
      ReleasedSpread(c, zero, nows, gaveUp, n - 1, from, upto);
      CursorAfter(c, zero, nows, n - 1);
      Neighbours(Released(c, zero, nows, gaveUp, n - 1, from, upto), c.interval);
    }
  }

  lemma Neighbours(k: int, i: int)
    ensures (k + 1) * i == k * i + i && (k - 1) * i == k * i - i
  {
  }

  lemma DivBound(k: int, i: int, x: int)
    requires i > 0 && k * i <= x
    ensures k <= x / i
  {
    if k > x / i {
      assert k * i >= (x / i + 1) * i by { MulNonNegative(k - (x / i + 1), i); }
    }
  }

  lemma DivOfSum(perSec: int, i: int, length: int)
    requires i > 0 && length >= 0
    ensures (length + (perSec - 1) * i) / i == length / i + perSec - 1
  {
    var q, r := length / i, length % i;
    assert length + (perSec - 1) * i == (q + perSec - 1) * i + r;
    DivUnique(length + (perSec - 1) * i, i, q + perSec - 1, r);
  }

  lemma DivUnique(x: int, i: int, q: int, r: int)
    requires i > 0 && x == q * i + r && 0 <= r < i
    ensures x / i == q
  {
    var p := x / i - q;
    assert p * i == r - x % i;
    if p > 0 {
      MulNonNegative(p - 1, i);
    } else if p < 0 {
      MulNonNegative(-p - 1, i);
    }
  }

  /** Whatever the clock samples, and whichever callers give up while they wait, at most
      perSec + length / interval grants are released in any span of `length`. */
  lemma WindowBound(c: Config, zero: int, nows: seq<int>, gaveUp: set<nat>, from: int, length: nat)
    requires ValidConfig(c)
    ensures Released(c, zero, nows, gaveUp, |nows|, from, from + length) <= c.perSec + length / c.interval
  {
    var k := Released(c, zero, nows, gaveUp, |nows|, from, from + length);
    if k > 0 {
      ReleasedSpread(c, zero, nows, gaveUp, |nows|, from, from + length);
      DivBound(k - 1, c.interval, length + c.tau);
      DivOfSum(c.perSec, c.interval, length);
    }
  }

  function Repeat(t: int, n: nat): (r: seq<int>)
    ensures |r| == n && forall i :: 0 <= i < n ==> r[i] == t
  {
    seq(n, _ => t)
  }

  lemma {:induction false} SaturatedCursor(c: Config, zero: int, t: int, nows: seq<int>, n: nat)
    requires ValidConfig(c) && zero <= t && n <= |nows|
    requires forall i :: 0 <= i < |nows| ==> nows[i] == t
    ensures n > 0 ==> Cursor(c, zero, nows[..n]) == t + n * c.interval
  {
    if n > 0 {
      SaturatedCursor(c, zero, t, nows, n - 1);
      CursorAfter(c, zero, nows, n - 1);
      MulNonNegative(n - 1, c.interval);
      assert n * c.interval == (n - 1) * c.interval + c.interval;
    }
  }

  lemma SaturatedRelease(c: Config, zero: int, t: int, nows: seq<int>, i: nat, length: nat)
    requires ValidConfig(c) && zero <= t && i < |nows| && i < c.perSec + length / c.interval
    requires forall j :: 0 <= j < |nows| ==> nows[j] == t
    ensures t <= ReleaseAt(c, zero, nows, i) <= t + length
  {
    SaturatedCursor(c, zero, t, nows, i);
    ProductBound(i, c.interval, c.perSec, length);
  }

  lemma ProductBound(i: nat, interval: int, perSec: int, length: nat)
    requires interval > 0 && i < perSec + length / interval
    ensures i * interval <= length + (perSec - 1) * interval
  {
    var q := length / interval;
    MulNonNegative(q + perSec - 1 - i, interval);
    assert (q + perSec - 1) * interval == q * interval + (perSec - 1) * interval;
  }

  lemma {:induction false} SaturatedReleases(c: Config, zero: int, t: int, nows: seq<int>, n: nat, length: nat)
    requires ValidConfig(c) && zero <= t && n <= |nows| && n <= c.perSec + length / c.interval
    requires forall i :: 0 <= i < |nows| ==> nows[i] == t
    ensures Released(c, zero, nows, {}, n, t, t + length) == n
  {
    if n > 0 {
      SaturatedReleases(c, zero, t, nows, n - 1, length);
      SaturatedRelease(c, zero, t, nows, n - 1, length);
    }
  }

  /** The bound is met: that many reservations at one instant are all released in the span. */
  lemma WindowBoundIsTight(c: Config, zero: int, t: int, length: nat)
    requires ValidConfig(c) && zero <= t
    ensures var n := c.perSec + length / c.interval;
            n >= 0 && Released(c, zero, Repeat(t, n), {}, n, t, t + length) == n
  {
    var n := c.perSec + length / c.interval;
    SaturatedReleases(c, zero, t, Repeat(t, n), n, length);
  }

  /** In the `k` seconds from `from` at most one burst more than the configured rate. */
  predicate RateKeptIn(c: Config, zero: int, nows: seq<int>, from: int, k: nat)
  {
    Released(c, zero, nows, {}, |nows|, from, from + k * SECOND) <= c.perSec + k * c.perSec
  }

  ghost predicate KeepsRate(c: Config)
  {
    forall zero, nows, from, k: nat :: RateKeptIn(c, zero, nows, from, k)
  }

  lemma RateKept(c: Config)
    requires ValidConfig(c) && c.interval * c.perSec >= SECOND
    ensures KeepsRate(c)
  {
    forall zero, nows, from, k: nat ensures RateKeptIn(c, zero, nows, from, k) {
      WindowBound(c, zero, nows, {}, from, k * SECOND);
      RateInSpan(k, c.interval, c.perSec);
    }
  }

  /** With a shorter interval the excess adds up: after `interval` seconds it is a whole grant. */
  lemma RateExceeded(c: Config)
    requires ValidConfig(c) && c.interval * c.perSec < SECOND
    ensures !KeepsRate(c)
  {
    DivUnique(c.interval * SECOND, c.interval, SECOND, 0);
    WindowBoundIsTight(c, 0, 0, c.interval * SECOND);
    assert !RateKeptIn(c, 0, Repeat(0, c.perSec + SECOND), 0, c.interval);
  }

  lemma RoundedInterval(perSec: int)
    requires perSec > 0
    ensures NewConfig(perSec).value.interval * perSec >= SECOND <==> SECOND % perSec == 0 || perSec > SECOND
  {
  }

  /** The interval is rounded down to whole nanoseconds, so the limiter keeps the configured
      rate exactly when the rate divides a second or exceeds one grant per nanosecond. */
  lemma RateKeptIff(perSec: int)
    requires perSec > 0
    ensures KeepsRate(NewConfig(perSec).value) <==> SECOND % perSec == 0 || perSec > SECOND
  {
    RoundedInterval(perSec);
    var c := NewConfig(perSec).value;
    if c.interval * perSec >= SECOND {
      RateKept(c);
    } else {
      RateExceeded(c);
    }
  }

  lemma RateInSpan(k: nat, interval: int, perSec: int)
    requires interval > 0 && perSec > 0 && interval * perSec >= SECOND
    ensures k * SECOND / interval <= k * perSec
  {
  }

  /** The same algorithm as a leaky bucket: a level that drains with time and rises by one
      interval per grant. */
  datatype Bucket = Bucket(level: int, last: int)

  function Drained(b: Bucket, now: int): int
  {
    Max(0, b.level - (now - b.last))
  }

  function Leaky(c: Config, zero: int, nows: seq<int>): Bucket
  {
    if nows == [] then Bucket(0, zero)
    else
      var now := nows[|nows| - 1];
      Bucket(Drained(Leaky(c, zero, nows[..|nows| - 1]), now) + c.interval, now)
  }

  predicate NonDecreasing(zero: int, nows: seq<int>)
  {
    nows == [] || (NonDecreasing(zero, nows[..|nows| - 1]) && Last(zero, nows[..|nows| - 1]) <= nows[|nows| - 1])
  }

  function Last(zero: int, nows: seq<int>): int
  {
    if nows == [] then zero else nows[|nows| - 1]
  }

  lemma {:induction false} CursorIsLevel(c: Config, zero: int, nows: seq<int>)
    requires ValidConfig(c) && NonDecreasing(zero, nows)
    ensures var b := Leaky(c, zero, nows);
            && Cursor(c, zero, nows) == b.last + b.level
            && b.last == Last(zero, nows)
  {
    if nows != [] {
      CursorIsLevel(c, zero, nows[..|nows| - 1]);
    }
  }

  /** On a clock that never goes back, the cursor makes every caller wait exactly as long as
      the leaky bucket does: for the level above the burst tolerance. */
  lemma WaitIsLeaky(c: Config, zero: int, nows: seq<int>, now: int)
    requires ValidConfig(c) && NonDecreasing(zero, nows + [now])
    ensures WaitFor(c, Cursor(c, zero, nows), now) == Max(0, Drained(Leaky(c, zero, nows), now) - c.tau)
  {
    assert (nows + [now])[..|nows|] == nows;
    CursorIsLevel(c, zero, nows);
  }
}
