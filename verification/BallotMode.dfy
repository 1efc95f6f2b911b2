/** The packed ballot mode: eight fields side by side in one integer. */
module BallotMode {
  import opened Types
  import opened Powers

  const NUM_FIELDS := 16

  datatype Mode = Mode(
    numFields: nat, groupSize: nat, uniqueValues: bool, costExponent: nat,
    maxValue: nat, minValue: nat, maxValueSum: nat, minValueSum: nat)

  /** The widths of the fields, the lowest one first. */
  const WIDTHS: seq<nat> := [8, 8, 1, 8, 48, 48, 63, 63]

  /** The lowest bits of an integer of either sign, and what an arithmetic shift leaves of it. */
  function Low(p: int, width: nat): (r: nat)
    ensures r < Pow2(width)
  {
    p % Pow2(width)
  }

  function High(p: int, shift: nat): int { p / Pow2(shift) }

  function Bits(packed: int, shift: nat, width: nat): (f: nat) {
    Low(High(packed, shift), width)
  }

  /** The fields of a mode, in the order of the layout. */
  function Fields(m: Mode): (f: seq<nat>)
    ensures |f| == 8
  {
    [m.numFields, m.groupSize, if m.uniqueValues then 1 else 0, m.costExponent,
     m.maxValue, m.minValue, m.maxValueSum, m.minValueSum]
  }

  ghost predicate Fit(f: seq<nat>, widths: seq<nat>) {
    |f| == |widths| && forall i :: 0 <= i < |f| ==> f[i] < Pow2(widths[i])
  }

  /** The library's packing: what it refuses is its own business (`accepts`), but it never takes a field
      that does not fit, and what it takes it lays out side by side. */
  function Pack(accepts: Mode -> bool, m: Mode): Option<int> {
    if accepts(m) then Some(Join(Fields(m), WIDTHS)) else None
  }

  /** Numbers side by side, the first one lowest. */
  function Join(f: seq<nat>, widths: seq<nat>): nat
    requires |f| == |widths|
  {
    if f == [] then 0 else f[0] + Pow2(widths[0]) * Join(f[1..], widths[1..])
  }

  function Split(packed: int, widths: seq<nat>): (f: seq<nat>)
    ensures |f| == |widths|
    decreases widths
  {
    if widths == [] then []
    else [Low(packed, widths[0])] + Split(High(packed, widths[0]), widths[1..])
  }

  function Total(widths: seq<nat>): nat {
    if widths == [] then 0 else widths[0] + Total(widths[1..])
  }

  /** The fields at their places in the layout. */
  function Unpacked(packed: int): Mode {
    Mode(Bits(packed, 0, 8), Bits(packed, 8, 8), Bits(packed, 16, 1) == 1, Bits(packed, 17, 8),
         Bits(packed, 25, 48), Bits(packed, 73, 48), Bits(packed, 121, 63), Bits(packed, 184, 63))
  }

  /** Splits a packed mode into its fields; it fails unless they pack back to it and there are 1 to
      NUM_FIELDS active fields. */
  function Unpack(accepts: Mode -> bool, packed: int): Option<Mode> {
    var m := Unpacked(packed);
    var repacked := Pack(accepts, m);
    if repacked.None? || repacked.value != packed then None
    else if m.numFields < 1 || m.numFields > NUM_FIELDS then None
    else Some(m)
  }

  lemma {:induction false} Product(a: int, b: int, c: int)
    requires a >= 0 && b <= c
    ensures a * b <= a * c
  {
    assert a * (c - b) >= 0;
    assert a * (c - b) == a * c - a * b;
  }

  lemma Quotient(p: int, d: int, q: int, r: int)
    requires d > 0 && p == d * q + r && 0 <= r < d
    ensures p / d == q && p % d == r
  {
    var q2, r2 := p / d, p % d;
    assert d * (q - q2) == r2 - r by {
      assert d * (q - q2) == d * q - d * q2;
    }
    if q > q2 { Product(d, 1, q - q2); }
    if q < q2 { Product(d, q - q2, -1); }
  }

  lemma HighLow(p: int, shift: nat)
    ensures p == Pow2(shift) * High(p, shift) + Low(p, shift)
  {
  }

  lemma HighIs(p: int, shift: nat, q: int, r: int)
    requires p == Pow2(shift) * q + r && 0 <= r < Pow2(shift)
    ensures High(p, shift) == q && Low(p, shift) == r
  {
    hide Pow2;
    Quotient(p, Pow2(shift), q, r);
  }

  /** Two shifts make one. */
  lemma HighHigh(p: int, a: nat, b: nat)
    ensures High(High(p, a), b) == High(p, a + b)
  {
    hide Pow2, Low, High;
    Pow2Adds(a, b);
    HighLow(p, a);
    HighLow(High(p, a), b);
    var x, y, q, r := Pow2(a), Pow2(b), High(p, a), Low(p, a);
    var q2, r2 := High(q, b), Low(q, b);
    Product(x, r2 + 1, y);
    Product(x, 0, r2);
    Spread(x, r2);
    assert x * (y * q2 + r2) == (x * y) * q2 + x * r2;
    HighIs(p, a + b, q2, x * r2 + r);
  }

  lemma {:induction false} JoinFits(f: seq<nat>, widths: seq<nat>)
    requires Fit(f, widths)
    ensures Join(f, widths) < Pow2(Total(widths))
  {
    hide Pow2;
    if f != [] {
      assert Fit(f[1..], widths[1..]);
      JoinFits(f[1..], widths[1..]);
      Pow2Adds(widths[0], Total(widths[1..]));
      Product(Pow2(widths[0]), Join(f[1..], widths[1..]) + 1, Pow2(Total(widths[1..])));
      Spread(Pow2(widths[0]), Join(f[1..], widths[1..]));
    } else {
      assert Total(widths) == 0;
    }
  }

  lemma Spread(a: int, b: int)
    ensures a * (b + 1) == a * b + a
  {
  }

  lemma {:induction false} SplitOfJoin(f: seq<nat>, widths: seq<nat>)
    requires Fit(f, widths)
    ensures Split(Join(f, widths), widths) == f
  {
    hide Pow2, Low, High;
    if f != [] {
      assert Fit(f[1..], widths[1..]);
      SplitOfJoin(f[1..], widths[1..]);
      HighIs(Join(f, widths), widths[0], Join(f[1..], widths[1..]), f[0]);
    }
  }

  lemma {:induction false} JoinOfSplit(packed: int, widths: seq<nat>)
    requires 0 <= packed < Pow2(Total(widths))
    ensures Join(Split(packed, widths), widths) == packed
  {
    hide High, Low;
    if widths != [] {
      HighLow(packed, widths[0]);
      HighFits(packed, widths[0], Total(widths[1..]));
      JoinOfSplit(High(packed, widths[0]), widths[1..]);
      assert Split(packed, widths)[1..] == Split(High(packed, widths[0]), widths[1..]);
    }
  }

  lemma HighFits(packed: int, w: nat, t: nat)
    requires 0 <= packed < Pow2(w + t)
    ensures 0 <= High(packed, w) < Pow2(t)
  {
    hide Pow2, High, Low;
    Pow2Adds(w, t);
    HighLow(packed, w);
    var d, q := Pow2(w), High(packed, w);
    if q >= Pow2(t) { Product(d, Pow2(t), q); }
    if q < 0 { Product(d, q, -1); }
  }

  lemma {:induction false} SplitFits(packed: int, widths: seq<nat>)
    ensures Fit(Split(packed, widths), widths)
    decreases widths
  {
    hide Low, High, Pow2;
    if widths != [] {
      SplitFits(High(packed, widths[0]), widths[1..]);
    }
  }

  lemma {:induction false} SplitIsBits(packed: int, widths: seq<nat>, i: nat)
    requires i < |widths|
    ensures Split(packed, widths)[i] == Bits(packed, Total(widths[..i]), widths[i])
    decreases widths
  {
    hide Low, High, Pow2;
    if i > 0 {
      var t := Total(widths[1..][..i - 1]);
      SplitIsBits(High(packed, widths[0]), widths[1..], i - 1);
      assert widths[..i][1..] == widths[1..][..i - 1];
      HighHigh(packed, widths[0], t);
    } else {
      NoShift(packed);
    }
  }

  lemma NoShift(packed: int)
    ensures High(packed, 0) == packed
  {
  }

  /** The shifts of the layout are the running totals of its widths. */
  lemma UnpackedIsSplit(packed: int)
    ensures Fields(Unpacked(packed)) == Split(packed, WIDTHS)
  {
    hide Bits, Split;
    forall i: nat | i < 8 ensures Split(packed, WIDTHS)[i] == Bits(packed, Shift(i), WIDTHS[i]) {
      AtShift(packed, i);
    }
    OneBit(packed, 16);
    forall i: nat | i < 8 ensures Fields(Unpacked(packed))[i] == Split(packed, WIDTHS)[i] {}
  }

  lemma AtShift(packed: int, i: nat)
    requires i < 8
    ensures Split(packed, WIDTHS)[i] == Bits(packed, Shift(i), WIDTHS[i])
  {
    hide Bits, Split, Shift;
    SplitIsBits(packed, WIDTHS, i);
    ShiftIsTotal(i);
  }

  lemma OneBit(packed: int, shift: nat)
    ensures Bits(packed, shift, 1) < 2
  {
    assert Pow2(1) == 2;
  }

  function Shift(i: nat): nat
    requires i < 8
  {
    [0, 8, 16, 17, 25, 73, 121, 184][i]
  }

  lemma ShiftIsTotal(i: nat)
    requires i < 8
    ensures Total(WIDTHS[..i]) == Shift(i)
  {
    if i > 0 {
      ShiftIsTotal(i - 1);
      TotalExtends(WIDTHS[..i - 1], WIDTHS[i - 1]);
      assert WIDTHS[..i] == WIDTHS[..i - 1] + [WIDTHS[i - 1]];
    }
  }

  lemma {:induction false} TotalExtends(widths: seq<nat>, w: nat)
    ensures Total(widths + [w]) == Total(widths) + w
  {
    if widths != [] {
      assert (widths + [w])[1..] == widths[1..] + [w];
      TotalExtends(widths[1..], w);
    }
  }

  lemma TotalWidth()
    ensures Total(WIDTHS) == 247
  {
    ShiftIsTotal(7);
    TotalExtends(WIDTHS[..7], 63);
    assert WIDTHS == WIDTHS[..7] + [63];
  }

  /** Unpacking a packed mode gives it back. */
  lemma PackThenUnpack(accepts: Mode -> bool, m: Mode)
    requires accepts(m) && Fit(Fields(m), WIDTHS) && 1 <= m.numFields <= NUM_FIELDS
    ensures Unpack(accepts, Pack(accepts, m).value) == Some(m)
  {
    var packed := Pack(accepts, m).value;
    SplitOfJoin(Fields(m), WIDTHS);
    UnpackedIsSplit(packed);
    SameFields(Unpacked(packed), m);
  }

  lemma SameFields(a: Mode, b: Mode)
    requires Fields(a) == Fields(b)
    ensures a == b
  {
    assert Fields(a)[0] == Fields(b)[0] && Fields(a)[1] == Fields(b)[1];
    assert Fields(a)[2] == Fields(b)[2] && Fields(a)[3] == Fields(b)[3];
    assert Fields(a)[4] == Fields(b)[4] && Fields(a)[5] == Fields(b)[5];
    assert Fields(a)[6] == Fields(b)[6] && Fields(a)[7] == Fields(b)[7];
  }

  /** An integer of either sign unpacks exactly if no bit is set outside the 247 of the layout, the
      library takes the fields, and there are 1 to NUM_FIELDS active ones; and then it is what they pack to. */
  lemma UnpacksExactly(accepts: Mode -> bool, packed: int)
    ensures Unpack(accepts, packed).Some? <==>
            && 0 <= packed < Pow2(247) && accepts(Unpacked(packed))
            && 1 <= packed % 256 <= NUM_FIELDS
    ensures Unpack(accepts, packed).Some? ==>
              && Pack(accepts, Unpack(accepts, packed).value) == Some(packed)
              && Fit(Fields(Unpack(accepts, packed).value), WIDTHS)
  {
    hide Pow2, Low, High, Bits, Split, Join, Fit;
    TotalWidth();
    UnpackedIsSplit(packed);
    SplitFits(packed, WIDTHS);
    JoinFits(Split(packed, WIDTHS), WIDTHS);
    if 0 <= packed < Pow2(247) { JoinOfSplit(packed, WIDTHS); }
    LowByte(packed);
  }

  lemma LowByte(packed: int)
    ensures Unpacked(packed).numFields == packed % 256
  {
    assert Pow2(0) == 1;
    assert Pow2(8) == 256;
  }
}
