/** Numbers written in a base, most significant digit first. */
module Numerals {

  function Pow(base: nat, n: nat): nat {
    if n == 0 then 1 else base * Pow(base, n - 1)
  }

  ghost predicate InBase(base: nat, ds: seq<nat>) {
    forall i :: 0 <= i < |ds| ==> ds[i] < base
  }

  function Num(base: nat, ds: seq<nat>): nat {
    if ds == [] then 0 else Num(base, ds[..|ds| - 1]) * base + ds[|ds| - 1]
  }

  function Rem(v: nat, base: nat): (r: nat)
    requires base > 0
    ensures r < base
  {
    v % base
  }

  function Quot(v: nat, base: nat): (q: nat)
    requires base > 0
    ensures base > 1 && v > 0 ==> q < v
  {
    QuotientLess(v, base);
    v / base
  }

  /** The last len digits of a number. */
  function Digits(base: nat, v: nat, len: nat): (ds: seq<nat>)
    requires base > 0
    ensures |ds| == len
    decreases len
  {
    if len == 0 then [] else Digits(base, Quot(v, base), len - 1) + [Rem(v, base)]
  }

  /** All the digits of a number, and none before the first that counts. */
  function Shortest(base: nat, v: nat): (ds: seq<nat>)
    requires base > 1
    ensures ds != []
    decreases v
  {
    if v < base then [v] else Shortest(base, Quot(v, base)) + [Rem(v, base)]
  }

  /** The digits without leading zeros, but never none. */
  function Stripped(ds: seq<nat>): seq<nat> {
    if |ds| > 1 && ds[0] == 0 then Stripped(ds[1..]) else ds
  }

  lemma Times(a: int, b: int, c: int)
    requires a >= 0 && b <= c
    ensures b * a <= c * a
  {
    assert (c - b) * a == c * a - b * a;
  }

  lemma QuotientLess(v: nat, base: nat)
    requires base > 0
    ensures base > 1 && v > 0 ==> v / base < v
  {
    if base > 1 && v > 0 && v / base >= v {
      Times(base, v, v / base);
      Times(v, 2, base);
      assert false;
    }
  }

  lemma QuotRem(v: nat, base: nat)
    requires base > 0
    ensures v == Quot(v, base) * base + Rem(v, base)
  {
  }

  lemma QuotIs(v: nat, base: nat, q: nat, r: nat)
    requires r < base && v == q * base + r
    ensures Quot(v, base) == q && Rem(v, base) == r
  {
    hide Quot, Rem;
    QuotRem(v, base);
    var q2, r2 := Quot(v, base), Rem(v, base);
    if q > q2 { Times(base, q2 + 1, q); }
    if q < q2 { Times(base, q + 1, q2); }
  }

  lemma QuotBelow(base: nat, v: nat, n: nat)
    requires base > 0 && v < base * n
    ensures Quot(v, base) < n
  {
    hide Quot, Rem;
    QuotRem(v, base);
    if Quot(v, base) >= n { Times(base, n, Quot(v, base)); }
  }

  lemma {:induction false} NumOfDigits(base: nat, v: nat, len: nat)
    requires base > 0 && v < Pow(base, len)
    ensures Num(base, Digits(base, v, len)) == v && InBase(base, Digits(base, v, len))
    decreases len
  {
    hide Quot, Rem;
    if len > 0 {
      QuotBelow(base, v, Pow(base, len - 1));
      NumOfDigits(base, Quot(v, base), len - 1);
      QuotRem(v, base);
      assert Digits(base, v, len)[..len - 1] == Digits(base, Quot(v, base), len - 1);
    }
  }

  lemma {:induction false} DigitsOfNum(base: nat, ds: seq<nat>)
    requires base > 0 && InBase(base, ds)
    ensures Digits(base, Num(base, ds), |ds|) == ds
  {
    hide Quot, Rem;
    if ds != [] {
      var n := |ds| - 1;
      DigitsOfNum(base, ds[..n]);
      QuotIs(Num(base, ds), base, Num(base, ds[..n]), ds[n]);
    }
  }

  lemma {:induction false} NumBelow(base: nat, ds: seq<nat>)
    requires InBase(base, ds)
    ensures Num(base, ds) < Pow(base, |ds|)
  {
    if ds != [] {
      var n := |ds| - 1;
      NumBelow(base, ds[..n]);
      Times(base, Num(base, ds[..n]) + 1, Pow(base, n));
    }
  }

  lemma {:induction false} NumConcat(base: nat, a: seq<nat>, b: seq<nat>)
    ensures Num(base, a + b) == Num(base, a) * Pow(base, |b|) + Num(base, b)
  {
    if b == [] {
      assert a + b == a;
    } else {
      var n := |b| - 1;
      NumConcat(base, a, b[..n]);
      assert (a + b)[..|a + b| - 1] == a + b[..n];
      Distribute(Num(base, a), Pow(base, n), Num(base, b[..n]), base);
    }
  }

  lemma Distribute(x: int, p: int, y: int, base: int)
    ensures (x * p + y) * base == x * (base * p) + y * base
  {
  }

  lemma {:induction false} NumOfShortest(base: nat, v: nat)
    requires base > 1
    ensures Num(base, Shortest(base, v)) == v && InBase(base, Shortest(base, v))
    ensures v > 0 ==> Shortest(base, v)[0] != 0
    ensures |Shortest(base, v)| > 1 ==> v >= base
    decreases v
  {
    hide Quot, Rem;
    if v >= base {
      NumOfShortest(base, Quot(v, base));
      QuotRem(v, base);
      assert Shortest(base, v)[..|Shortest(base, v)| - 1] == Shortest(base, Quot(v, base));
      assert Quot(v, base) > 0 by {
        if Quot(v, base) == 0 { assert false; }
      }
    } else {
      assert [v][..0] == [];
    }
  }

  lemma {:induction false} LeadingZero(base: nat, ds: seq<nat>)
    requires ds != [] && ds[0] == 0
    ensures Num(base, ds) == Num(base, ds[1..])
  {
    assert ds == [0] + ds[1..];
    NumConcat(base, [0], ds[1..]);
    assert [0 as nat][..0] == [];
    assert Num(base, [0]) == 0;
  }

  /** Writing the value of some digits again only strips their leading zeros. */
  lemma {:induction false} ShortestOfNum(base: nat, ds: seq<nat>)
    requires base > 1 && InBase(base, ds) && ds != []
    ensures Shortest(base, Num(base, ds)) == Stripped(ds)
  {
    if |ds| > 1 && ds[0] == 0 {
      LeadingZero(base, ds);
      ShortestOfNum(base, ds[1..]);
    } else {
      ShortestOfLead(base, ds);
    }
  }

  lemma {:induction false} ShortestOfLead(base: nat, ds: seq<nat>)
    requires base > 1 && InBase(base, ds) && ds != [] && (|ds| > 1 ==> ds[0] != 0)
    ensures Shortest(base, Num(base, ds)) == ds
    ensures ds[0] != 0 ==> Num(base, ds) > 0
  {
    hide Quot, Rem;
    var n := |ds| - 1;
    QuotIs(Num(base, ds), base, Num(base, ds[..n]), ds[n]);
    if n > 0 {
      ShortestOfLead(base, ds[..n]);
      Times(base, 1, Num(base, ds[..n]));
      assert ds == ds[..n] + [ds[n]];
    } else {
      assert ds[..0] == [];
    }
  }
}
