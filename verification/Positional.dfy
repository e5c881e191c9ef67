// Numbers written to a base, most significant digit first. Base 256 gives the binary
// formats, base 10 the digit reversal of the Mirror code.
module Positional {
  datatype Base = Decimal | Octets {
    // One more digit place, with digit d in it. Spelled out by cases to stay linear.
    function Place(v: int, d: int): int {
      match this
      case Decimal => v * 10 + d
      case Octets => v * 0x100 + d
    }

    function Upper(v: int): int {
      match this
      case Decimal => v / 10
      case Octets => v / 0x100
    }

    function Last(v: int): int {
      match this
      case Decimal => v % 10
      case Octets => v % 0x100
    }

    predicate IsDigit(d: int) {
      0 <= d && match this
                case Decimal => d < 10
                case Octets => d < 0x100
    }
  }

  function Pow(b: Base, n: nat): (p: nat)
    ensures 0 < p
  {
    if n == 0 then 1 else b.Place(Pow(b, n - 1), 0)
  }

  function Value(s: seq<int>, b: Base): int {
    if s == [] then 0 else b.Place(Value(s[..|s| - 1], b), s[|s| - 1])
  }

  // The last n digits of v; for a negative v, those of its complement.
  function Digits(v: int, n: nat, b: Base): (s: seq<int>)
    ensures |s| == n && forall i :: 0 <= i < n ==> b.IsDigit(s[i])
    decreases n
  {
    if n == 0 then [] else Digits(b.Upper(v), n - 1, b) + [b.Last(v)]
  }

  ghost predicate AreDigits(s: seq<int>, b: Base) {
    forall i :: 0 <= i < |s| ==> b.IsDigit(s[i])
  }

  lemma {:induction false} ValueBound(s: seq<int>, b: Base)
    requires AreDigits(s, b)
    ensures 0 <= Value(s, b) < Pow(b, |s|)
  {
    if s != [] {
      ValueBound(s[..|s| - 1], b);
    }
  }

  lemma {:induction false} DigitsOfValue(s: seq<int>, b: Base)
    requires AreDigits(s, b)
    ensures Digits(Value(s, b), |s|, b) == s
  {
    if s != [] {
      var v := Value(s, b);
      assert b.Upper(v) == Value(s[..|s| - 1], b) && b.Last(v) == s[|s| - 1];
      DigitsOfValue(s[..|s| - 1], b);
      assert s == s[..|s| - 1] + [s[|s| - 1]];
    }
  }

  // A number splits into its last digit and the rest.
  lemma SplitLast(v: nat, n: nat, b: Base)
    requires 0 < n && v < Pow(b, n)
    ensures 0 <= b.Upper(v) < Pow(b, n - 1) && b.Place(b.Upper(v), b.Last(v)) == v
  {
    match b
    case Decimal =>
    case Octets =>
  }

  lemma {:induction false} ValueOfDigits(v: nat, n: nat, b: Base)
    requires v < Pow(b, n)
    ensures Value(Digits(v, n, b), b) == v
    decreases n
  {
    hide Pow, Base.Place, Base.Upper, Base.Last;
    if n > 0 {
      SplitLast(v, n, b);
      ValueOfDigits(b.Upper(v), n - 1, b);
      assert Digits(v, n, b)[..n - 1] == Digits(b.Upper(v), n - 1, b);
    } else {
      PowZero(b);
    }
  }

  lemma PowZero(b: Base)
    ensures Pow(b, 0) == 1
  {
  }

  lemma {:induction false} PowMonotone(b: Base, m: nat, n: nat)
    requires m <= n
    ensures Pow(b, m) <= Pow(b, n)
  {
    if m < n {
      PowMonotone(b, m, n - 1);
    }
  }

  // ----- the digits, place by place -----

  // Digit i of n is the one at the place of base to the n - 1 - i.
  lemma {:induction false} DigitAt(v: nat, n: nat, b: Base, i: nat)
    requires i < n
    ensures Digits(v, n, b)[i] == v / Pow(b, n - 1 - i) % if b == Decimal then 10 else 0x100
    decreases n
  {
    if i == n - 1 {
      PowZero(b);
    } else {
      DigitAt(b.Upper(v), n - 1, b, i);
      assert Digits(v, n, b)[i] == Digits(b.Upper(v), n - 1, b)[i];
      var p := Pow(b, n - 2 - i);
      assert Pow(b, n - 1 - i) == (if b == Decimal then 10 else 0x100) * p;
      DividedTwice(v, if b == Decimal then 10 else 0x100, p);
    }
  }

  lemma DividedTwice(v: nat, q: nat, p: nat)
    requires 0 < q && 0 < p
    ensures 0 < q * p && v / (q * p) == v / q / p
  {
    var a, x := v / q, v / q / p;
    var r := q * (a % p) + v % q;
    Remainder(v, q);
    Remainder(a, p);
    hide *;
    Distributed(q, p, x, a % p);
    BelowProduct(q, p, a % p, v % q);
    QuotientUnique(v, q * p, x, r);
  }

  lemma Remainder(v: nat, d: nat)
    requires 0 < d
    ensures v == d * (v / d) + v % d && 0 <= v % d < d
  {
  }

  lemma Distributed(q: nat, p: nat, x: nat, r: nat)
    ensures q * (p * x + r) == q * p * x + q * r
  {
  }

  lemma BelowProduct(q: nat, p: nat, r: nat, s: nat)
    requires r < p && s < q
    ensures 0 < q * p && q * r + s < q * p
  {
    assert q * (r + 1) <= q * p;
  }

  lemma QuotientUnique(v: nat, d: nat, x: nat, r: nat)
    requires 0 < d && v == d * x + r && r < d
    ensures v / d == x
  {
    var y := v / d;
    if y < x {
      Monotone(d, y + 1, x);
      assert false;
    } else if x < y {
      Monotone(d, x + 1, y);
      assert false;
    }
  }

  lemma Monotone(d: nat, x: nat, y: nat)
    requires x <= y
    ensures d * x <= d * y
  {
  }

  function Reverse(s: seq<int>): (r: seq<int>)
    ensures |r| == |s|
    ensures forall i :: 0 <= i < |s| ==> r[i] == s[|s| - 1 - i]
  {
    if s == [] then [] else [s[|s| - 1]] + Reverse(s[..|s| - 1])
  }

  // v with its last n digits written backwards.
  function Mirrored(v: int, n: nat, b: Base): int {
    Value(Reverse(Digits(v, n, b)), b)
  }

  lemma MirroredInvolution(v: nat, n: nat, b: Base)
    requires v < Pow(b, n)
    ensures 0 <= Mirrored(v, n, b) < Pow(b, n)
    ensures Mirrored(Mirrored(v, n, b), n, b) == v
  {
    var s := Digits(v, n, b);
    ValueBound(Reverse(s), b);
    DigitsOfValue(Reverse(s), b);
    assert Reverse(Reverse(s)) == s;
    ValueOfDigits(v, n, b);
  }

  // The mirrored number has n digits at most, and digit i of them is digit n - 1 - i of the last n of v.
  lemma MirroredDigits(v: int, n: nat, b: Base, i: nat)
    requires i < n
    ensures 0 <= Mirrored(v, n, b) < Pow(b, n) && Digits(Mirrored(v, n, b), n, b)[i] == Digits(v, n, b)[n - 1 - i]
  {
    var s := Digits(v, n, b);
    ValueBound(Reverse(s), b);
    DigitsOfValue(Reverse(s), b);
  }
}
