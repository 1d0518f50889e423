/** Deterministic ids: a pure function of seed, kind and an index derived from state. */
module Ids {

  function Digit(d: nat): (c: char)
    requires d < 10
    ensures '0' <= c <= '9'
  {
    "0123456789"[d]
  }

  /** Python's `str(n)` of a non-negative integer. */
  function Decimal(n: nat): (s: string)
    ensures s != [] && forall k :: 0 <= k < |s| ==> '0' <= s[k] <= '9'
  {
    if n < 10 then [Digit(n)] else Decimal(n / 10) + [Digit(n % 10)]
  }

  /** Python's `str(n)` of an integer. */
  function Signed(n: int): string {
    if n < 0 then "-" + Decimal(-n) else Decimal(n)
  }

  /** DeterministicIds.make */
  function Make(seed: string, kind: string, index: nat): string {
    seed + "-" + kind + "-" + Decimal(index)
  }

  lemma DigitInjective(c: nat, d: nat)
    requires c < 10 && d < 10 && Digit(c) == Digit(d)
    ensures c == d
  {
  }

  lemma {:induction false} DecimalInjective(m: nat, n: nat)
    requires Decimal(m) == Decimal(n)
    ensures m == n
  {
    hide Digit;
    assert |Decimal(m)| >= 2 <==> m >= 10;
    assert |Decimal(n)| >= 2 <==> n >= 10;
    if m < 10 {
      assert Decimal(m)[0] == Digit(m) && Decimal(n)[0] == Digit(n);
      DigitInjective(m, n);
    } else {
      var a, b := Decimal(m), Decimal(n);
      assert a[..|a| - 1] == Decimal(m / 10) && b[..|b| - 1] == Decimal(n / 10);
      DecimalInjective(m / 10, n / 10);
      assert a[|a| - 1] == Digit(m % 10) && b[|b| - 1] == Digit(n % 10);
      DigitInjective(m % 10, n % 10);
    }
  }

  lemma SignedInjective(m: int, n: int)
    requires Signed(m) == Signed(n)
    ensures m == n
  {
    assert Signed(m)[0] == '-' <==> m < 0;
    assert Signed(n)[0] == '-' <==> n < 0;
    if m < 0 {
      assert Signed(m)[1..] == Decimal(-m) && Signed(n)[1..] == Decimal(-n);
      DecimalInjective(-m, -n);
    } else {
      DecimalInjective(m, n);
    }
  }

  /** The tail after the last dash is no longer than any other dash-free tail. */
  lemma LastDash(a: string, x: string, b: string, y: string)
    requires a + "-" + x == b + "-" + y
    requires '-' !in x
    ensures |x| <= |y|
  {
    var s, t := a + "-" + x, b + "-" + y;
    assert t[|b|] == '-';
    assert forall k :: |a| < k < |s| ==> s[k] == x[k - |a| - 1];
  }

  /** A text ending in a dash and a dash-free tail splits in only one way. */
  lemma LastDashSplits(a: string, x: string, b: string, y: string)
    requires a + "-" + x == b + "-" + y
    requires '-' !in x && '-' !in y
    ensures a == b && x == y
  {
    var s, t := a + "-" + x, b + "-" + y;
    LastDash(a, x, b, y);
    LastDash(b, y, a, x);
    assert s[..|a|] == a && t[..|b|] == b;
    assert s[|a| + 1..] == x && t[|b| + 1..] == y;
  }

  /** Within one run an id names one kind and one index. */
  lemma MakeInjective(seed: string, kind: string, i: nat, kind': string, j: nat)
    requires Make(seed, kind, i) == Make(seed, kind', j)
    ensures kind == kind' && i == j
  {
    var a, b := seed + "-" + kind, seed + "-" + kind';
    LastDashSplits(a, Decimal(i), b, Decimal(j));
    DecimalInjective(i, j);
    assert a[|seed| + 1..] == kind && b[|seed| + 1..] == kind';
  }
}
