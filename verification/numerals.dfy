/** Decimal numerals: how Python prints and reads integers. */
module Numerals {

  predicate IsDigit(c: char) {
    '0' <= c <= '9'
  }

  predicate AllDigits(s: string) {
    forall i :: 0 <= i < |s| ==> IsDigit(s[i])
  }

  function DigitChar(d: nat): (c: char)
    requires d < 10
    ensures IsDigit(c)
  {
    ('0' as int + d) as char
  }

  function DigitOf(c: char): nat
    requires IsDigit(c)
  {
    c as int - '0' as int
  }

  function NatText(n: nat): (s: string)
    ensures s != "" && AllDigits(s)
  {
    if n < 10 then [DigitChar(n)] else NatText(n / 10) + [DigitChar(n % 10)]
  }

  function IntText(i: int): string {
    if i < 0 then "-" + NatText(-i) else NatText(i)
  }

  function NatValue(s: string): nat
    requires AllDigits(s)
  {
    if s == "" then 0 else NatValue(s[..|s| - 1]) * 10 + DigitOf(s[|s| - 1])
  }

  /** Reading back a printed number gives the number. */
  lemma {:induction false} NatRoundTrip(n: nat)
    ensures NatValue(NatText(n)) == n
  {
    if n < 10 {
    } else {
      NatRoundTrip(n / 10);
      assert NatText(n)[..|NatText(n)| - 1] == NatText(n / 10);
    }
  }

  /** Printed numbers have no leading zero. */
  lemma {:induction false} NoLeadingZero(n: nat)
    ensures NatText(n)[0] == '0' ==> NatText(n) == "0"
  {
    if n < 10 {
    } else {
      NoLeadingZero(n / 10);
      NatRoundTrip(n / 10);
    }
  }

  /** The length of the longest run of digits that `s` starts with. */
  function DigitRun(s: string): (k: nat)
    ensures k <= |s| && AllDigits(s[..k])
    ensures k < |s| ==> !IsDigit(s[k])
  {
    if s == "" || !IsDigit(s[0]) then 0 else
      var k := 1 + DigitRun(s[1..]);
      assert forall i :: 0 < i < k ==> s[i] == s[1..][i - 1];
      k
  }

  lemma {:induction false} DigitRunExact(ds: string, rest: string)
    requires AllDigits(ds) && (rest == "" || !IsDigit(rest[0]))
    ensures DigitRun(ds + rest) == |ds|
  {
    if ds == "" {
      assert ds + rest == rest;
    } else {
      assert IsDigit(ds[0]) && (ds + rest)[1..] == ds[1..] + rest;
      DigitRunExact(ds[1..], rest);
    }
  }

  // ----- The ledger suffix "-> +n" of a risk reason -----

  /** The length of the longest run of digits that `s` ends with. */
  function TrailingDigits(s: string): (k: nat)
    ensures k <= |s| && AllDigits(s[|s| - k..])
    ensures k < |s| ==> !IsDigit(s[|s| - k - 1])
  {
    if s == "" || !IsDigit(s[|s| - 1]) then 0 else
      var t := s[..|s| - 1];
      var k := TrailingDigits(t);
      assert s[|s| - 1 - k..] == t[|t| - k..] + [s[|s| - 1]];
      k + 1
  }

  /** The points a reason charges: the number after its final "-> +". */
  function ChargedPoints(reason: string): nat {
    var k := TrailingDigits(reason);
    var head := reason[..|reason| - k];
    if k > 0 && |head| >= 4 && head[|head| - 4..] == "-> +" then NatValue(reason[|reason| - k..]) else 0
  }

  function Charge(text: string, points: nat): string {
    text + "-> +" + NatText(points)
  }

  lemma {:induction false} TrailingDigitsExact(head: string, ds: string)
    requires AllDigits(ds) && (head == "" || !IsDigit(head[|head| - 1]))
    ensures TrailingDigits(head + ds) == |ds|
  {
    if ds == "" {
      assert head + ds == head;
    } else {
      assert (head + ds)[..|head + ds| - 1] == head + ds[..|ds| - 1];
      TrailingDigitsExact(head, ds[..|ds| - 1]);
    }
  }

  /** Reading the points off a reason gives the points that were charged. */
  lemma ChargeReadsBack(text: string, points: nat)
    ensures ChargedPoints(Charge(text, points)) == points
  {
    var head := text + "-> +";
    TrailingDigitsExact(head, NatText(points));
    assert Charge(text, points)[..|head|] == head;
    assert Charge(text, points)[|head|..] == NatText(points);
    NatRoundTrip(points);
  }

  // ----- Powers of ten and truncation -----

  function Pow10(e: nat): (p: nat)
    ensures p >= 1
  {
    if e == 0 then 1 else 10 * Pow10(e - 1)
  }

  /** Division that truncates toward zero, as `int()` does on a float. */
  function TruncDiv(m: int, d: nat): int
    requires d >= 1
  {
    if m >= 0 then m / d else -(-m / d)
  }

  lemma DivExceeds(m: nat, d: nat, k: nat)
    requires d >= 1
    ensures m / d > k <==> m >= (k + 1) * d
  {
    var q, r := m / d, m % d;
    assert m == q * d + r;
    if q > k {
      MulMonotone(k + 1, q, d);
    } else {
      MulMonotone(q + 1, k + 1, d);
    }
  }

  lemma MulMonotone(a: int, b: int, d: nat)
    requires a <= b
    ensures a * d <= b * d
  {
  }

  /** For a bound k >= 0, truncation toward zero exceeds k exactly from k + 1 on. */
  lemma TruncDivBound(m: int, d: nat, k: nat)
    requires d >= 1
    ensures TruncDiv(m, d) > k <==> m >= (k + 1) * d
  {
    if m >= 0 {
      DivExceeds(m, d, k);
    } else {
      assert -m / d >= 0;
      MulMonotone(0, k + 1, d);
    }
  }

  lemma QuotientLeaves(n: nat, d: nat)
    requires d >= 1
    ensures var q := n / d; q >= 0 && 0 <= n - q * d < d
  {
    assert n == n / d * d + n % d;
  }

  /** Truncation is towards zero, and leaves less than d. */
  lemma TruncatesTowardZero(m: int, d: nat)
    requires d >= 1
    ensures var q, r := TruncDiv(m, d), m - TruncDiv(m, d) * d;
            (m >= 0 ==> 0 <= q && 0 <= r < d) && (m <= 0 ==> q <= 0 && 0 <= 0 - r < d)
  {
    if m >= 0 {
      QuotientLeaves(m, d);
      assert m == 0 ==> m / d == 0;
    } else {
      QuotientLeaves(-m, d);
      var q := -m / d;
      assert TruncDiv(m, d) == -q && -q * d == -(q * d);
    }
  }
}
