/** Decimal numbers as 64-bit floating point: which of them round to infinity. */
module ConfigNumbers {
  function DigitValue(c: char): nat {
    if '0' <= c <= '9' then (c - '0') as nat else 0
  }

  function Decimal(s: string): nat {
    if s == "" then 0 else 10 * Decimal(s[..|s| - 1]) + DigitValue(s[|s| - 1])
  }

  /** Where the first of the marks is, or the end. */
  function Until(s: string, marks: set<char>): (k: nat)
    ensures k <= |s| && forall i | 0 <= i < k :: s[i] !in marks
    ensures k < |s| ==> s[k] in marks
  {
    if s == "" || s[0] in marks then 0 else 1 + Until(s[1..], marks)
  }

  /** `digits` times ten to the `exponent`. */
  datatype Scaled = Scaled(digits: nat, exponent: int)

  /** From the exponent mark on. */
  function Exponent(s: string): int {
    if |s| < 2 then 0
    else if s[1] == '-' then 0 - Decimal(s[2..])
    else if s[1] == '+' then Decimal(s[2..])
    else Decimal(s[1..])
  }

  /** The magnitude a decimal number stands for. */
  function Magnitude(s: string): Scaled {
    var u := if s != "" && s[0] == '-' then s[1..] else s;
    var e := Until(u, {'e', 'E'});
    var p := Until(u[..e], {'.'});
    var fraction := if p < e then u[p + 1..e] else "";
    Scaled(Decimal(u[..p] + fraction), Exponent(u[e..]) - |fraction|)
  }

  function Pow10(n: nat): (p: nat)
    ensures p > 0
  {
    if n == 0 then 1 else 10 * Pow10(n - 1)
  }

  const TWO_97: nat := 0x2_0000_0000_0000_0000_0000_0000
  const TWO_485: nat := TWO_97 * TWO_97 * TWO_97 * TWO_97 * TWO_97

  /** Half a unit beyond the greatest finite number: fifty-four one bits and 970 zeros. From here on
      rounding to even gives infinity. */
  const LIMIT: nat := 0x3F_FFFF_FFFF_FFFF * TWO_485 * TWO_485

  predicate Overflows(x: Scaled) {
    if x.exponent >= 0 then x.digits * Pow10(x.exponent) >= LIMIT else x.digits >= LIMIT * Pow10(-x.exponent)
  }

  /** A number with a point or an exponent becomes a floating point number, any other an integer,
      which is cut off at the range of integers. */
  predicate FloatLike(s: string) {
    exists i :: 0 <= i < |s| && s[i] in {'.', 'e', 'E'}
  }

  /** The number can be written as JSON again, which has no infinity. */
  predicate Marshals(s: string) {
    FloatLike(s) ==> !Overflows(Magnitude(s))
  }

  method CanMarshal(s: string) returns (ok: bool)
    ensures ok == Marshals(s)
  {
    var mark := Until(s, {'.', 'e', 'E'});
    return mark == |s| || !Overflows(Magnitude(s));
  }

  // What overflows ------------------------------------------------------------------------------

  lemma {:induction false} PowAdd(m: nat, n: nat)
    ensures Pow10(m + n) == Pow10(m) * Pow10(n)
  {
    if m > 0 {
      PowAdd(m - 1, n);
      assert 10 * (Pow10(m - 1) * Pow10(n)) == (10 * Pow10(m - 1)) * Pow10(n);
    }
  }

  lemma Ten77()
    ensures Pow10(77) == 100000000000000000000000000000000000000000000000000000000000000000000000000000
  {
    assert Pow10(11) == 100000000000;
    PowAdd(11, 11);
    PowAdd(22, 11);
    PowAdd(33, 11);
    PowAdd(44, 11);
    PowAdd(55, 11);
    PowAdd(66, 11);
  }

  /** The limit lies between two powers of ten. */
  lemma LimitBetween()
    ensures Pow10(308) < LIMIT <= Pow10(309)
  {
    Ten77();
    PowAdd(77, 77);
    PowAdd(154, 154);
    PowAdd(308, 1);
  }

  lemma {:induction false} PowGrows(m: nat, n: nat)
    requires m <= n
    ensures Pow10(m) <= Pow10(n)
  {
    if m < n {
      PowGrows(m, n - 1);
    }
  }

  /** Whatever the digits, a number of at least ten to the 309 overflows, and one below ten to the
      308 does not. */
  lemma {:induction false} OverflowsBySize(x: Scaled, n: nat)
    requires Pow10(n) <= x.digits < Pow10(n + 1)
    ensures n + x.exponent >= 309 ==> Overflows(x)
    ensures n + x.exponent < 308 ==> !Overflows(x)
  {
    LimitBetween();
    if x.exponent >= 0 {
      var e: nat := x.exponent;
      var p := Pow10(e);
      PowAdd(n, e);
      PowAdd(n + 1, e);
      Scales(Pow10(n), x.digits, Pow10(n + 1), p);
      if n + e >= 309 {
        PowGrows(309, n + e);
      } else if n + e < 308 {
        PowGrows(n + 1 + e, 308);
      }
    } else {
      var e: nat := -x.exponent;
      PowAdd(309, e);
      PowAdd(308, e);
      Scales(Pow10(308), LIMIT, Pow10(309), Pow10(e));
      if n >= 309 + e {
        PowGrows(309 + e, n);
      } else if n < 308 + e {
        PowGrows(n + 1, 308 + e);
      }
    }
  }

  lemma Scales(a: nat, x: nat, b: nat, p: nat)
    requires a <= x <= b && p > 0
    ensures a * p <= x * p <= b * p && (a < x ==> a * p < x * p) && (x < b ==> x * p < b * p)
  {
    ScalesUp(a, x, p);
    ScalesUp(x, b, p);
  }

  lemma ScalesUp(a: nat, x: nat, p: nat)
    requires a <= x && p > 0
    ensures a * p <= x * p && (a < x ==> a * p < x * p)
  {
    var d: nat := x - a;
    assert x * p == a * p + d * p;
    if d > 0 {
      assert d * p == p + (d - 1) * p;
    }
  }

  /** One such number. */
  lemma HugeOverflows()
    ensures Magnitude("1e999") == Scaled(1, 999) && !Marshals("1e999")
  {
    var s := "1e999";
    assert s[1] == 'e' && s[1] in {'.', 'e', 'E'};
    assert s[0] == '1' && s[1..][0] == 'e' && Until(s[1..], {'e', 'E'}) == 0 && Until(s, {'e', 'E'}) == 1;
    assert s[..1] == "1" && Until("1", {'.'}) == 1 && s[..1] + "" == "1" && s[1..] == "e999";
    assert Decimal("1") == 1 && "e999"[1..] == "999" && Decimal("999") == 999 by {
      assert "999"[..2] == "99" && "99"[..1] == "9" && "9"[..0] == "";
    }
    assert Pow10(0) == 1 && Pow10(1) == 10;
    OverflowsBySize(Scaled(1, 999), 0);
  }
}
