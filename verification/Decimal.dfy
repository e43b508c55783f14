/** Decimal text: what fmt's %d prints and strconv.ParseUint reads, and the platform package's own itoa. */
module Decimal {
  import opened Common

  predicate IsDigit(c: char) { '0' <= c <= '9' }

  predicate AllDigits(s: string) { forall i :: 0 <= i < |s| ==> IsDigit(s[i]) }

  function DigitChar(d: nat): (c: char)
    requires d < 10
    ensures IsDigit(c) && DigitValue(c) == d
  {
    ('0' as int + d) as char
  }

  function DigitValue(c: char): (d: nat)
    requires IsDigit(c)
    ensures d < 10
  {
    c as int - '0' as int
  }

  /** Most significant digit first, no leading zero. */
  function Print(v: nat): string {
    if v < 10 then [DigitChar(v)] else Print(v / 10) + [DigitChar(v % 10)]
  }

  function ValueOf(s: string): nat
    requires AllDigits(s)
  {
    if s == "" then 0 else ValueOf(s[..|s| - 1]) * 10 + DigitValue(s[|s| - 1])
  }

  /** strconv.ParseUint in base 10 for values below `limit`: digits only, leading zeros allowed. */
  function ParseUint(s: string, limit: nat): Option<nat> {
    if s == "" || !AllDigits(s) || ValueOf(s) >= limit then None else Some(ValueOf(s))
  }

  predicate NoLeadingZero(s: string) { s == "0" || (s != "" && s[0] != '0') }

  /** Printed numbers are digits without a leading zero, and read back as themselves. */
  lemma {:induction false} PrintReads(v: nat)
    ensures Print(v) != "" && AllDigits(Print(v)) && ValueOf(Print(v)) == v
    ensures NoLeadingZero(Print(v)) && (v > 0 ==> Print(v)[0] != '0')
  {
    if v < 10 {
      assert Print(v)[..0] == "";
    } else {
      PrintReads(v / 10);
      assert Print(v)[..|Print(v)| - 1] == Print(v / 10);
    }
  }

  /** And every digit string without a leading zero is what its value prints as. */
  lemma {:induction false} ReadPrints(s: string)
    requires AllDigits(s) && NoLeadingZero(s)
    ensures Print(ValueOf(s)) == s
  {
    var n := |s| - 1;
    if n == 0 {
      assert s[..0] == "" && ValueOf(s) == DigitValue(s[0]);
      assert s == [s[0]];
    } else {
      ReadPrints(s[..n]);
      PositiveValue(s[..n]);
      assert s == s[..n] + [s[n]];
    }
  }

  lemma {:induction false} PositiveValue(s: string)
    requires AllDigits(s) && s != "" && s[0] != '0'
    ensures ValueOf(s) > 0
  {
    if |s| > 1 { PositiveValue(s[..|s| - 1]); } else { assert s[..0] == ""; }
  }

  lemma ParsePrinted(v: nat, limit: nat)
    ensures ParseUint(Print(v), limit) == if v < limit then Some(v) else None
  {
    PrintReads(v);
  }

  lemma PrintInjective(v: nat, w: nat)
    requires Print(v) == Print(w)
    ensures v == w
  {
    PrintReads(v);
    PrintReads(w);
  }

  // ---- platform.itoa ----

  function Power10(n: nat): nat { if n == 0 then 1 else 10 * Power10(n - 1) }

  lemma Power10Add(m: nat, n: nat)
    ensures Power10(m + n) == Power10(m) * Power10(n)
  {
    if m > 0 { Power10Add(m - 1, n); }
  }

  /** 20 digits hold any uint64. */
  lemma TwentyDigits()
    ensures TWO_64 < Power10(20)
  {
    assert Power10(5) == 100000;
    Power10Add(5, 5);
    Power10Add(10, 10);
  }

  /** The digits of `v` that itoa has still to write; none for zero. */
  function Unwritten(v: nat): string { if v == 0 then "" else Print(v) }

  lemma UnwrittenStep(v: nat)
    requires v > 0
    ensures Unwritten(v / 10) + [DigitChar(v % 10)] == Unwritten(v)
  {
  }

  /** A positive number below 10^i leaves room for its last digit. */
  lemma RoomForDigit(n: nat, i: nat)
    requires 0 < n < Power10(i)
    ensures i > 0 && n / 10 < Power10(i - 1)
  {
  }

  /** Fills a 20-byte buffer from its end; every uint64 fits. */
  method Itoa(v: uint64) returns (s: string)
    ensures s == Print(v) && |s| <= 20
    ensures AllDigits(s) && NoLeadingZero(s) && ValueOf(s) == v
  {
    if v == 0 {
      PrintReads(0);
      return "0";
    }
    s := WriteDigits(v);
    PrintReads(v);
  }

  /** itoa's loop for a positive number. */
  method WriteDigits(v: uint64) returns (s: string)
    requires v > 0
    ensures s == Print(v) && |s| <= 20
  {
    var buf := new char[20];
    var i, n: nat := buf.Length, v;
    TwentyDigits();
    assert Unwritten(v) + buf[20..] == Print(v);
    assert Unwritten(0) == "" && Power10(0) == 1;
    hide Unwritten, Print, Power10, DigitChar;
    while n > 0
      invariant 0 <= i <= buf.Length
      invariant n < Power10(i)
      invariant Unwritten(n) + buf[i..] == Print(v)
    {
      UnwrittenStep(n);
      RoomForDigit(n, i);
      ghost var tail := buf[i..];
      i := i - 1;
      buf[i] := DigitChar(n % 10);
      assert buf[i..] == [DigitChar(n % 10)] + tail;
      assert Unwritten(n / 10) + buf[i..] == Unwritten(n / 10) + [DigitChar(n % 10)] + tail;
      n := n / 10;
    }
    s := buf[i..];
  }
}
