/** The canonical encodings of field elements and ballot proofs: printing is a right inverse of parsing,
    and parsing then printing gives one text per value. */
module Encodings {
  import opened Types
  import opened Numerals

  // ---- decimal coordinates ----

  predicate IsDigit(c: char) { '0' <= c <= '9' }

  function DigitOf(c: char): (d: nat)
    requires IsDigit(c)
    ensures d < 10
  {
    (c - '0') as nat
  }

  function DigitChar(d: nat): (c: char)
    requires d < 10
    ensures IsDigit(c) && DigitOf(c) == d
  {
    '0' + d as char
  }

  ghost predicate Decimal(s: string) { s != "" && forall i :: 0 <= i < |s| ==> IsDigit(s[i]) }

  function DigitsOf(s: string): (ds: seq<nat>)
    requires forall i :: 0 <= i < |s| ==> IsDigit(s[i])
    ensures InBase(10, ds)
  {
    seq(|s|, i requires 0 <= i < |s| => DigitOf(s[i]))
  }

  function Text(ds: seq<nat>): (s: string)
    requires InBase(10, ds)
    ensures |s| == |ds|
    ensures forall i :: 0 <= i < |s| ==> IsDigit(s[i]) && DigitOf(s[i]) == ds[i]
  {
    seq(|ds|, i requires 0 <= i < |ds| => DigitChar(ds[i]))
  }

  /** The number a text of digits denotes, below max. */
  ghost function Denotes(s: string, max: nat): Option<nat> {
    if Decimal(s) && Num(10, DigitsOf(s)) < max then Some(Num(10, DigitsOf(s))) else None
  }

  /** Parses a non-negative decimal integer below max. */
  method ParseDecimal(s: string, max: nat) returns (r: Option<nat>)
    ensures r == Denotes(s, max)
  {
    if s == "" { return None; }
    for i := 0 to |s|
      invariant forall j :: 0 <= j < i ==> IsDigit(s[j])
    {
      if !IsDigit(s[i]) { return None; }
    }
    var v := Num(10, DigitsOf(s));
    r := if v >= max then None else Some(v);
  }

  function Print(v: nat): (s: string)
    ensures Decimal(s)
  {
    NumOfShortest(10, v);
    Text(Shortest(10, v))
  }

  /** A text without leading zeros, but at least one digit. */
  function WithoutZeros(s: string): string {
    if |s| > 1 && s[0] == '0' then WithoutZeros(s[1..]) else s
  }

  lemma DigitsOfText(ds: seq<nat>)
    requires InBase(10, ds)
    ensures DigitsOf(Text(ds)) == ds
  {
  }

  lemma TextOfDigits(s: string)
    requires forall i :: 0 <= i < |s| ==> IsDigit(s[i])
    ensures Text(DigitsOf(s)) == s
  {
    forall i | 0 <= i < |s| ensures Text(DigitsOf(s))[i] == s[i] {
      assert DigitOf(Text(DigitsOf(s))[i]) == DigitOf(s[i]);
    }
  }

  lemma {:induction false} StrippedText(s: string)
    requires forall i :: 0 <= i < |s| ==> IsDigit(s[i])
    ensures forall i :: 0 <= i < |WithoutZeros(s)| ==> IsDigit(WithoutZeros(s)[i])
    ensures Stripped(DigitsOf(s)) == DigitsOf(WithoutZeros(s))
  {
    if |s| > 1 && s[0] == '0' {
      assert DigitsOf(s)[1..] == DigitsOf(s[1..]);
      StrippedText(s[1..]);
    } else if |s| > 1 {
      assert DigitsOf(s)[0] != 0;
    }
  }

  /** Printing a number below max and parsing it back is the identity. */
  lemma PrintThenParse(v: nat, max: nat)
    ensures Denotes(Print(v), max) == if v < max then Some(v) else None
  {
    NumOfShortest(10, v);
    DigitsOfText(Shortest(10, v));
  }

  /** Parsing a text and printing the value only drops the text's leading zeros. */
  lemma ParseThenPrint(s: string, max: nat)
    requires Denotes(s, max).Some?
    ensures Print(Denotes(s, max).value) == WithoutZeros(s)
  {
    ShortestOfNum(10, DigitsOf(s));
    StrippedText(s);
    TextOfDigits(WithoutZeros(s));
  }

  // ---- points and proofs ----

  /** The base field's size, and the curve, whose membership the library checks: the points on the curve
      (in the subgroup, for G2), without the identity. */
  datatype Curve = Curve(
    modulus: nat, onG1: (nat, nat) -> bool, onG2: (nat, nat, nat, nat) -> bool)

  datatype G1 = G1(x: nat, y: nat)
  datatype G2 = G2(x0: nat, x1: nat, y0: nat, y1: nat)
  datatype Proof = Proof(a: G1, b: G2, c: G1)

  /** A proof as snarkjs writes it, its coordinates as texts. */
  datatype ProofText = ProofText(
    a: seq<string>, b: seq<seq<string>>, c: seq<string>, protocol: string, curve: string)

  predicate ValidG1(k: Curve, p: G1) { p.x < k.modulus && p.y < k.modulus && k.onG1(p.x, p.y) }

  predicate ValidG2(k: Curve, p: G2) {
    && p.x0 < k.modulus && p.x1 < k.modulus && p.y0 < k.modulus && p.y1 < k.modulus
    && k.onG2(p.x0, p.x1, p.y0, p.y1)
  }

  ghost function ParseG1(k: Curve, v: seq<string>): Option<G1> {
    if |v| != 3 || v[2] != "1" then None else
    var x, y := Denotes(v[0], k.modulus), Denotes(v[1], k.modulus);
    if x.None? || y.None? || !k.onG1(x.value, y.value) then None else Some(G1(x.value, y.value))
  }

  ghost function ParseG2(k: Curve, v: seq<seq<string>>): Option<G2> {
    if |v| != 3 || |v[0]| != 2 || |v[1]| != 2 || |v[2]| != 2 || v[2][0] != "1" || v[2][1] != "0" then None else
    var x0, x1 := Denotes(v[0][0], k.modulus), Denotes(v[0][1], k.modulus);
    var y0, y1 := Denotes(v[1][0], k.modulus), Denotes(v[1][1], k.modulus);
    if x0.None? || x1.None? || y0.None? || y1.None? then None
    else if !k.onG2(x0.value, x1.value, y0.value, y1.value) then None
    else Some(G2(x0.value, x1.value, y0.value, y1.value))
  }

  function G1Text(p: G1): seq<string> { [Print(p.x), Print(p.y), "1"] }

  function G2Text(p: G2): seq<seq<string>> {
    [[Print(p.x0), Print(p.x1)], [Print(p.y0), Print(p.y1)], ["1", "0"]]
  }

  /** A proof's points and its canonical text. */
  ghost function ParseProof(k: Curve, t: ProofText): Option<(Proof, ProofText)> {
    var a, b, c := ParseG1(k, t.a), ParseG2(k, t.b), ParseG1(k, t.c);
    if a.None? || b.None? || c.None? then None
    else Some((Proof(a.value, b.value, c.value),
               ProofText(G1Text(a.value), G2Text(b.value), G1Text(c.value), "groth16", "bn128")))
  }

  lemma PointsRoundTrip(k: Curve, p: G1, q: G2)
    ensures ParseG1(k, G1Text(p)) == if ValidG1(k, p) then Some(p) else None
    ensures ParseG2(k, G2Text(q)) == if ValidG2(k, q) then Some(q) else None
  {
    hide Print, Denotes;
    PrintThenParse(p.x, k.modulus);
    PrintThenParse(p.y, k.modulus);
    PrintThenParse(q.x0, k.modulus);
    PrintThenParse(q.x1, k.modulus);
    PrintThenParse(q.y0, k.modulus);
    PrintThenParse(q.y1, k.modulus);
  }

  /** Parsing a canonical text again gives the same points and the same text; and a text that parses
      differs from its canonical one by leading zeros of coordinates and the two names only. */
  lemma CanonicalIsFixed(k: Curve, t: ProofText)
    requires ParseProof(k, t).Some?
    ensures ParseProof(k, ParseProof(k, t).value.1) == ParseProof(k, t)
    ensures var c := ParseProof(k, t).value.1;
            && |t.a| == 3 && c.a == [WithoutZeros(t.a[0]), WithoutZeros(t.a[1]), t.a[2]]
            && |t.c| == 3 && c.c == [WithoutZeros(t.c[0]), WithoutZeros(t.c[1]), t.c[2]]
            && |t.b| == 3 && |t.b[0]| == 2 && |t.b[1]| == 2
            && c.b == [[WithoutZeros(t.b[0][0]), WithoutZeros(t.b[0][1])],
                       [WithoutZeros(t.b[1][0]), WithoutZeros(t.b[1][1])], t.b[2]]
  {
    hide Print, Denotes;
    var p := ParseProof(k, t).value.0;
    assert t.b[2] == ["1", "0"];
    PointsRoundTrip(k, p.a, p.b);
    PointsRoundTrip(k, p.c, p.b);
    DenotesBelow(t.a[0], k.modulus); DenotesBelow(t.a[1], k.modulus);
    DenotesBelow(t.c[0], k.modulus); DenotesBelow(t.c[1], k.modulus);
    DenotesBelow(t.b[0][0], k.modulus); DenotesBelow(t.b[0][1], k.modulus);
    DenotesBelow(t.b[1][0], k.modulus); DenotesBelow(t.b[1][1], k.modulus);
  }

  lemma DenotesBelow(s: string, max: nat)
    requires Denotes(s, max).Some?
    ensures Denotes(s, max).value < max && Print(Denotes(s, max).value) == WithoutZeros(s)
  {
    ParseThenPrint(s, max);
  }

  // ---- 32-byte hex ----

  predicate IsHex(c: char) { IsDigit(c) || 'a' <= c <= 'f' || 'A' <= c <= 'F' }

  function HexOf(c: char): (d: nat)
    requires IsHex(c)
    ensures d < 16
  {
    if IsDigit(c) then (c - '0') as nat else if c >= 'a' then 10 + (c - 'a') as nat else 10 + (c - 'A') as nat
  }

  function HexChar(d: nat): (c: char)
    requires d < 16
    ensures IsHex(c) && HexOf(c) == d && Lower(c) == c
  {
    if d < 10 then '0' + d as char else 'a' + (d - 10) as char
  }

  function Lower(c: char): char {
    if 'A' <= c <= 'Z' then 'a' + (c - 'A') else c
  }

  function LowerAll(s: string): string {
    seq(|s|, i requires 0 <= i < |s| => Lower(s[i]))
  }

  /** Two hex digits a byte, in either case; none if there is another character or one is left over. */
  function DecodeHex(s: string): (r: Option<seq<nat>>)
    ensures r.Some? ==> |s| == 2 * |r.value| && InBase(256, r.value)
  {
    if s == "" then Some([])
    else if |s| == 1 || !IsHex(s[0]) || !IsHex(s[1]) then None
    else
      var rest := DecodeHex(s[2..]);
      if rest.None? then None else Some([16 * HexOf(s[0]) + HexOf(s[1])] + rest.value)
  }

  function EncodeHex(b: seq<nat>): (s: string)
    requires InBase(256, b)
    ensures |s| == 2 * |b|
  {
    if b == [] then "" else [HexChar(b[0] / 16), HexChar(b[0] % 16)] + EncodeHex(b[1..])
  }

  function TrimPrefix(s: string): string {
    if |s| >= 2 && s[..2] == "0x" then s[2..] else s
  }

  /** Parses 32 bytes of hex, 0x optional, that are a field element. */
  function ParseFr(modulus: nat, s: string): Option<nat> {
    var b := DecodeHex(TrimPrefix(s));
    if b.None? || |b.value| != 32 then None
    else if Num(256, b.value) >= modulus then None
    else Some(Num(256, b.value))
  }

  /** 32 bytes, most significant first; the value must fit. */
  function FillBytes(v: nat): (b: seq<nat>)
    requires v < Pow(256, 32)
    ensures |b| == 32 && InBase(256, b)
  {
    NumOfDigits(256, v, 32);
    Digits(256, v, 32)
  }

  function FrHex(v: nat): string
    requires v < Pow(256, 32)
  {
    "0x" + EncodeHex(FillBytes(v))
  }

  lemma {:induction false} DecodeOfEncode(b: seq<nat>)
    requires InBase(256, b)
    ensures DecodeHex(EncodeHex(b)) == Some(b)
  {
    if b != [] {
      var s := EncodeHex(b);
      assert s[2..] == EncodeHex(b[1..]);
      DecodeOfEncode(b[1..]);
      Halves(b[0]);
      assert s[0] == HexChar(b[0] / 16) && s[1] == HexChar(b[0] % 16);
      assert [b[0]] + b[1..] == b;
    }
  }

  lemma Halves(b: nat)
    requires b < 256
    ensures b / 16 < 16 && b % 16 < 16 && 16 * (b / 16) + b % 16 == b
  {
  }

  lemma {:induction false} EncodeOfDecode(s: string)
    requires DecodeHex(s).Some?
    ensures EncodeHex(DecodeHex(s).value) == LowerAll(s)
  {
    hide HexOf, HexChar, Lower, IsHex;
    if s != "" {
      EncodeOfDecode(s[2..]);
      var b := DecodeHex(s).value;
      assert b[1..] == DecodeHex(s[2..]).value;
      SameByte(HexOf(s[0]), HexOf(s[1]));
      LowerHex(s[0]);
      LowerHex(s[1]);
      assert LowerAll(s) == [Lower(s[0]), Lower(s[1])] + LowerAll(s[2..]);
    }
  }

  lemma SameByte(hi: nat, lo: nat)
    requires hi < 16 && lo < 16
    ensures (16 * hi + lo) / 16 == hi && (16 * hi + lo) % 16 == lo
  {
  }

  lemma LowerHex(c: char)
    requires IsHex(c)
    ensures HexChar(HexOf(c)) == Lower(c)
  {
  }

  /** Printing a field element as hex and parsing it back is the identity. */
  lemma HexThenParse(modulus: nat, v: nat)
    requires modulus <= Pow(256, 32) && v < modulus
    ensures ParseFr(modulus, FrHex(v)) == Some(v)
  {
    hide Pow;
    NumOfDigits(256, v, 32);
    DecodeOfEncode(FillBytes(v));
    var s := FrHex(v);
    assert s[..2] == "0x" && s[2..] == EncodeHex(FillBytes(v));
  }

  /** Parsing hex and printing the value gives the text in lower case, with its prefix. */
  lemma ParseThenHex(modulus: nat, s: string)
    requires modulus <= Pow(256, 32) && ParseFr(modulus, s).Some?
    ensures FrHex(ParseFr(modulus, s).value) == "0x" + LowerAll(TrimPrefix(s))
  {
    hide Pow;
    var b := DecodeHex(TrimPrefix(s)).value;
    DigitsOfNum(256, b);
    EncodeOfDecode(TrimPrefix(s));
  }

  // ---- limbs ----

  /** The four 64-bit limbs of a field element, the least significant first: eight bytes each. */
  method FrLimbs(v: nat) returns (l: seq<nat>)
    requires v < Pow(256, 32)
    ensures l == Limbs(v)
  {
    var b := FillBytes(v);
    l := [];
    for i := 0 to 4
      invariant l == seq(i, j requires 0 <= j < i => Num(256, b[24 - 8 * j..32 - 8 * j]))
    {
      l := l + [Num(256, b[24 - 8 * i..32 - 8 * i])];
    }
  }

  function Limbs(v: nat): (l: seq<nat>)
    requires v < Pow(256, 32)
    ensures |l| == 4
  {
    var b := FillBytes(v);
    seq(4, j requires 0 <= j < 4 => Num(256, b[24 - 8 * j..32 - 8 * j]))
  }

  /** The limbs fit 64 bits and make up the value. */
  lemma LimbsRecombine(v: nat)
    requires v < Pow(256, 32)
    ensures var l, word := Limbs(v), Pow(256, 8);
            && InBase(word, l)
            && v == l[0] + word * (l[1] + word * (l[2] + word * l[3]))
  {
    hide Pow, Num, FillBytes;
    var b, word := FillBytes(v), Pow(256, 8);
    NumOfDigits(256, v, 32);
    forall j | 0 <= j < 4 ensures Limbs(v)[j] < word {
      NumBelow(256, b[24 - 8 * j..32 - 8 * j]);
    }
    FilledWith(v);
    NextWord(b[..24], b[24..32], b);
    NextWord(b[..16], b[16..24], b[..24]);
    NextWord(b[0..8], b[8..16], b[..16]);
  }

  lemma FilledWith(v: nat)
    requires v < Pow(256, 32)
    ensures Num(256, FillBytes(v)) == v
  {
    NumOfDigits(256, v, 32);
  }

  lemma NextWord(a: seq<nat>, w: seq<nat>, b: seq<nat>)
    requires |w| == 8 && b == a + w
    ensures Num(256, b) == Num(256, w) + Pow(256, 8) * Num(256, a)
  {
    hide Num, Pow;
    NumConcat(256, a, w);
    Commute(Num(256, a), Pow(256, 8));
  }

  lemma Commute(a: nat, b: nat)
    ensures a * b == b * a
  {
  }
}
