/**
 * Exponential backoff with full jitter. Durations are whole nanoseconds; the delay under
 * computation is a real, and the random draw is a parameter in [0, 1).
 */
module Retry {

  const SECOND: int := 1_000_000_000

  datatype Backoff = Backoff(initial: int, max: int, factor: real)

  /** The conventional platform curve. */
  const NEW := Backoff(SECOND, 120 * SECOND, 2.0)

  function Power(f: real, n: nat): real { if n == 0 then 1.0 else Power(f, n - 1) * f }

  /** The delay after `n` multiplications, with no cap. */
  function Grown(b: Backoff, n: nat): real { b.initial as real * Power(b.factor, n) }

  lemma GrownNext(b: Backoff, n: nat)
    ensures Grown(b, n + 1) == Grown(b, n) * b.factor
  {
  }

  /** Some multiplication among the first `n` reaches the cap. */
  ghost predicate Capped(b: Backoff, n: int) {
    exists k: nat :: 1 <= k <= n && Grown(b, k) >= b.max as real
  }

  function Trials(attempt: int): nat { if attempt < 0 then 0 else attempt }

  /** What Delay computes before the draw. */
  ghost function Computed(b: Backoff, attempt: int): real {
    if Capped(b, attempt) then b.max as real else Grown(b, Trials(attempt))
  }

  /** The loop of Delay: it stops at the first multiplication that reaches the cap. */
  method Grow(b: Backoff, attempt: int) returns (d: real, steps: nat)
    ensures d == Computed(b, attempt)
    ensures steps <= Trials(attempt) && forall k: nat :: 1 <= k < steps ==> Grown(b, k) < b.max as real
    ensures steps < Trials(attempt) ==> steps >= 1 && Grown(b, steps) >= b.max as real
  {
    d, steps := b.initial as real, 0;
    while steps < attempt
      invariant 0 <= steps <= Trials(attempt)
      invariant d == Grown(b, steps)
      invariant forall k: nat :: 1 <= k <= steps ==> Grown(b, k) < b.max as real
    {
      GrownNext(b, steps);
      d, steps := d * b.factor, steps + 1;
      if d >= b.max as real {
        d := b.max as real;
        return;
      }
    }
  }

  /** time.Duration of a float: towards zero. */
  function Truncate(x: real): int { if x >= 0.0 then x.Floor else -((-x).Floor) }

  /** A share `draw` of the delay `d`, in whole nanoseconds. */
  function Share(draw: real, d: real): int { Truncate(draw * d) }

  // ---- The closed form ----

  /** A Backoff as New or a caller filling every field makes it. */
  predicate Growing(b: Backoff) { 0 < b.initial && b.factor >= 1.0 }

  lemma Scaled(x: real, f: real)
    requires 0.0 < x && 1.0 <= f
    ensures x <= x * f
  {
  }

  lemma {:induction false} GrownGrows(b: Backoff, m: nat, n: nat)
    requires Growing(b) && m <= n
    ensures 0.0 < Grown(b, m) <= Grown(b, n)
    decreases n
  {
    if n == 0 {
      assert Grown(b, 0) == b.initial as real;
    } else {
      GrownGrows(b, if m < n then m else m - 1, n - 1);
      hide Grown;
      GrownNext(b, n - 1);
      Scaled(Grown(b, n - 1), b.factor);
    }
  }

  function Min(x: real, y: real): real { if x <= y then x else y }

  /**
   * The loop computes min(Max, Initial * Factor^attempt) exactly after at least one trial or from an initial
   * delay within the cap: without a trial it never looks at the cap.
   */
  lemma ClosedForm(b: Backoff, attempt: int)
    requires Growing(b)
    ensures Computed(b, attempt) == Min(b.max as real, Grown(b, Trials(attempt)))
            <==> b.initial <= b.max || attempt >= 1
  {
    var n := Trials(attempt);
    if Capped(b, attempt) {
      var k: nat :| 1 <= k <= attempt && Grown(b, k) >= b.max as real;
      GrownGrows(b, k, n);
    } else if n == 0 {
      assert Grown(b, 0) == b.initial as real;
    } else {
      assert Grown(b, n) < b.max as real;
    }
  }

  /** Max bounds the computed delay exactly when the initial delay is within it or a trial has passed. */
  lemma CapHoldsExactly(b: Backoff, attempt: int)
    requires Growing(b)
    ensures Computed(b, attempt) <= b.max as real <==> b.initial <= b.max || attempt >= 1
  {
    if b.initial <= b.max || attempt >= 1 {
      ClosedForm(b, attempt);
    } else {
      assert Computed(b, attempt) == Grown(b, 0) == b.initial as real;
    }
  }

  /** Later attempts never wait less, before the draw, exactly if the initial delay is within the cap. */
  lemma DelaysGrow(b: Backoff)
    requires Growing(b)
    ensures (forall earlier, later :: earlier <= later ==> Computed(b, earlier) <= Computed(b, later))
            <==> b.initial <= b.max
  {
    if b.initial <= b.max {
      forall earlier, later | earlier <= later ensures Computed(b, earlier) <= Computed(b, later) {
        ClosedForm(b, earlier);
        ClosedForm(b, later);
        GrownGrows(b, Trials(earlier), Trials(later));
      }
    } else {
      CapHoldsExactly(b, 0);
      CapHoldsExactly(b, 1);
      assert Computed(b, 1) < Computed(b, 0);
    }
  }

  lemma ScaleBounds(draw: real, c: real)
    requires 0.0 <= draw < 1.0 && 0.0 < c
    ensures 0.0 <= draw * c < c
  {
  }

  lemma TruncateBounds(x: real, c: real)
    requires 0.0 <= x < c
    ensures 0 <= Truncate(x) && Truncate(x) as real <= x < c
  {
  }

  /** Less than a nanosecond. */
  predicate BelowOne(draw: real, d: real) { draw * d < 1.0 }

  lemma ShareBounds(draw: real, c: real)
    requires 0.0 <= draw < 1.0 && 0.0 < c
    ensures 0 <= Share(draw, c) && Share(draw, c) as real < c && (Share(draw, c) == 0 <==> BelowOne(draw, c))
  {
    var x := draw * c;
    ScaleBounds(draw, c);
    TruncateBounds(x, c);
  }

  /** `n` is `x` in whole numbers, rounded towards zero. */
  predicate RoundsTo(x: real, n: int) {
    if x >= 0.0 then n as real <= x < (n + 1) as real else (n - 1) as real < x <= n as real
  }

  /** `n` is the share `draw` of `c`, in whole nanoseconds rounded towards zero. */
  predicate SharesTo(draw: real, c: real, n: int) { RoundsTo(draw * c, n) }

  lemma TruncateExactly(x: real, n: int)
    ensures Truncate(x) == n <==> RoundsTo(x, n) && (n == 0 || (n > 0 <==> x > 0.0))
  {
  }

  lemma ShareExactly(draw: real, c: real)
    ensures SharesTo(draw, c, Share(draw, c))
  {
    TruncateExactly(draw * c, Share(draw, c));
  }

  lemma ShareOfNegative(draw: real, c: real)
    requires 0.0 <= draw < 1.0 && c <= 0.0
    ensures c <= Share(draw, c) as real && Share(draw, c) <= 0
  {
    var x := draw * -c;
    if c < 0.0 { ScaleBounds(draw, -c); }
    assert draw * c == -x && 0.0 <= x <= -c;
  }

  /** The computed delay is positive exactly if Max is, or Max is never looked at. */
  lemma PositiveExactly(b: Backoff, attempt: int)
    requires Growing(b)
    ensures Computed(b, attempt) > 0.0 <==> b.max > 0 || attempt <= 0
  {
    hide Grown;
    var n := Trials(attempt);
    GrownGrows(b, n, n);
    if !Capped(b, attempt) && attempt > 0 { assert Grown(b, n) < b.max as real; }
  }

  /**
   * The draw is from [0, computed), in whole nanoseconds: it is zero exactly where the share is below one, and
   * Max bounds it wherever Max bounds the computed delay. With a Max that is not positive, which nothing
   * forbids, delays turn negative instead.
   */
  lemma DrawBounds(b: Backoff, attempt: int, draw: real)
    requires Growing(b) && 0.0 <= draw < 1.0
    ensures var c, delay := Computed(b, attempt), Share(draw, Computed(b, attempt));
      if b.max > 0 || attempt <= 0 then
        && 0 <= delay && delay as real < c && (delay == 0 <==> BelowOne(draw, c))
        && (b.initial <= b.max || attempt >= 1 ==> delay <= b.max)
      else c <= delay as real && delay <= 0
  {
    hide Computed, Share, BelowOne;
    var c := Computed(b, attempt);
    PositiveExactly(b, attempt);
    if c > 0.0 {
      ShareBounds(draw, c);
      CapHoldsExactly(b, attempt);
    } else {
      ShareOfNegative(draw, c);
    }
  }

  /** Delay. */
  method Delay(b: Backoff, attempt: int, draw: real) returns (delay: int)
    requires 0.0 <= draw < 1.0
    ensures SharesTo(draw, Computed(b, attempt), delay)
    ensures Growing(b) && b.initial <= b.max ==> 0 <= delay <= b.max && delay as real < Computed(b, attempt)
  {
    hide Share, SharesTo, Computed;
    var d, steps := Grow(b, attempt);
    delay := Share(draw, d);
    ShareExactly(draw, d);
    if Growing(b) && b.initial <= b.max { DrawBounds(b, attempt, draw); }
  }

  // ---- The platform curve ----

  lemma NewCurve()
    ensures Grown(NEW, 7) >= NEW.max as real && Grown(NEW, 6) < NEW.max as real
  {
    assert Power(2.0, 1) == 2.0;
    assert Power(2.0, 2) == 4.0;
    assert Power(2.0, 3) == 8.0;
    assert Power(2.0, 4) == 16.0;
    assert Power(2.0, 5) == 32.0;
    assert Power(2.0, 6) == 64.0;
    assert Power(2.0, 7) == 128.0;
  }

  /** The curve in nanoseconds: one second, doubled with every attempt, and two minutes from the seventh on. */
  lemma NewDelays(attempt: int)
    ensures Computed(NEW, attempt) ==
      if attempt <= 0 then 1_000_000_000.0
      else if attempt < 7 then 1_000_000_000.0 * Power(2.0, attempt) else 120_000_000_000.0
    ensures Computed(NEW, 3) == 8_000_000_000.0 && Computed(NEW, 6) == 64_000_000_000.0
  {
    NewDelay(attempt);
    NewDelay(3);
    NewDelay(6);
    assert Power(2.0, 1) == 2.0 && Power(2.0, 2) == 4.0 && Power(2.0, 3) == 8.0;
    assert Power(2.0, 4) == 16.0 && Power(2.0, 5) == 32.0 && Power(2.0, 6) == 64.0;
  }

  lemma NewDelay(attempt: int)
    ensures Computed(NEW, attempt) ==
      if attempt <= 0 then 1_000_000_000.0
      else if attempt < 7 then 1_000_000_000.0 * Power(2.0, attempt) else 120_000_000_000.0
  {
    NewCurve();
    hide Computed;
    ClosedForm(NEW, attempt);
    assert Power(2.0, 0) == 1.0;
    if attempt >= 7 { GrownGrows(NEW, 7, attempt); } else { GrownGrows(NEW, Trials(attempt), 6); }
  }

  /** Under New the loop runs at most seven times, and from the seventh attempt on the cap is reached. */
  method NewStopsEarly(attempt: int) returns (d: real, steps: nat)
    ensures steps <= 7 && d == Computed(NEW, attempt)
    ensures d == NEW.max as real <==> attempt >= 7
  {
    d, steps := Grow(NEW, attempt);
    NewCurve();
    ClosedForm(NEW, attempt);
    if attempt >= 7 {
      GrownGrows(NEW, 7, attempt);
    } else {
      GrownGrows(NEW, Trials(attempt), 6);
    }
  }
}
