/** Address layout: the order of the six fields is read from a string, and addresses are packed and
    unpacked accordingly. */
module AddressMappings {
  import opened Bits
  import opened Commands

  /** Repeated halving gives the binary logarithm, rounded down. */
  method LogBase2(powerOfTwo: int) returns (i: nat)
    ensures powerOfTwo >= 1 ==> Pow2(i) <= powerOfTwo < Pow2(i + 1)
    ensures powerOfTwo < 1 ==> i == 0
  {
    i := 0;
    var p := powerOfTwo;
    while p > 1
      invariant p > 1 || i > 0 ==> p * Pow2(i) <= powerOfTwo < (p + 1) * Pow2(i)
      invariant i == 0 ==> p == powerOfTwo
      invariant i > 0 ==> p >= 1
      decreases p
    {
      Halve(p, Pow2(i), powerOfTwo);
      p := p / 2;
      i := i + 1;
    }
  }

  lemma {:induction false} Halve(p: int, q: int, x: int)
    requires q >= 1 && p * q <= x < (p + 1) * q
    ensures (p / 2) * (2 * q) <= x < (p / 2 + 1) * (2 * q)
  {
    var h := p / 2;
    assert h * (2 * q) == (2 * h) * q && (h + 1) * (2 * q) == (2 * h + 2) * q;
    assert 2 * h <= p <= 2 * h + 1;
    assert (2 * h) * q <= p * q;
    assert (p + 1) * q <= (2 * h + 2) * q;
  }

  /** Field numbers, in the fixed order channel, rank, bank group, bank, row, column; 6 for no field. */
  function FieldNo(token: string): (n: int)
    ensures 0 <= n <= 6
  {
    if token == "ch" then 0 else if token == "ra" then 1 else if token == "bg" then 2
    else if token == "ba" then 3 else if token == "ro" then 4 else if token == "co" then 5 else 6
  }

  /** The six two-letter tokens as field numbers, most significant first. */
  function Order(mapping: string): (x: seq<int>)
    requires |mapping| == 12
    ensures |x| == 6
  {
    seq(6, i requires 0 <= i < 6 => FieldNo(mapping[2 * i..2 * i + 2]))
  }

  /** Every field is named, and nothing else is. */
  ghost predicate Complete(x: seq<int>) {
    && |x| == 6 && (forall i :: 0 <= i < 6 ==> 0 <= x[i] < 6)
    && forall f :: 0 <= f < 6 ==> f in x
  }

  /** Bits taken by the fields from place i on. */
  function Below(x: seq<int>, w: seq<nat>, i: nat): nat
    decreases |x| - i
  {
    if i >= |x| then 0 else (if 0 <= x[i] < |w| then w[x[i]] else 0) + Below(x, w, i + 1)
  }

  ghost predicate Covered(w: seq<nat>, p: seq<nat>, b: int)
    requires |w| == |p| == 6
  {
    exists f :: 0 <= f < 6 && p[f] <= b < p[f] + w[f]
  }

  /** The fields lie side by side: none overlaps another, and together they fill the low total bits. */
  ghost predicate Tiling(w: seq<nat>, p: seq<nat>, total: nat) {
    && |w| == |p| == 6
    && (forall f, g :: 0 <= f < 6 && 0 <= g < 6 && f != g ==> p[f] + w[f] <= p[g] || p[g] + w[g] <= p[f])
    && (forall f :: 0 <= f < 6 ==> p[f] + w[f] <= total)
    && (forall b :: 0 <= b < total ==> Covered(w, p, b))
  }

  /** A field named earlier lies above every field named later: the first is the most significant. */
  ghost predicate Descending(x: seq<int>, w: seq<nat>, p: seq<nat>) {
    && Complete(x) && |w| == |p| == 6
    && forall i, j :: 0 <= i < j < 6 ==> p[x[j]] + w[x[j]] <= p[x[i]]
  }

  /** Reading the field order: it succeeds exactly for the orders that name every field once, and then
      the fields tile the address. */
  method SetAddressMapping(mapping: string, w: seq<nat>) returns (r: Option<seq<nat>>)
    requires |w| == 6
    ensures r.Some? <==> |mapping| == 12 && Complete(Order(mapping))
    ensures r.Some? ==> Tiling(w, r.value, w[0] + w[1] + w[2] + w[3] + w[4] + w[5])
    ensures r.Some? ==> Descending(Order(mapping), w, r.value)
  {
    hide FieldNo, Tiling, Holds, Descending;
    if |mapping| != 12 {
      return None;
    }
    ghost var x := Order(mapping);
    var fields: seq<string> := [];
    var i := 0;
    while i < |mapping|
      invariant 0 <= i <= 12 && i % 2 == 0 && |fields| == i / 2
      invariant forall j :: 0 <= j < |fields| ==> FieldNo(fields[j]) == x[j]
    {
      fields := fields + [mapping[i..i + 2]];
      i := i + 2;
    }
    var ps, ok := Positions(fields, w, x);
    if !ok {
      return None;
    }
    NamedIffHeld(ps, x, w);
    if !(0 in ps && 1 in ps && 2 in ps && 3 in ps && 4 in ps && 5 in ps) {
      return None;
    }
    var p: seq<nat> := [ps[0], ps[1], ps[2], ps[3], ps[4], ps[5]];
    Placed(x, w, p, ps);
    return Some(p);
  }

  lemma {:induction false} NamedIffHeld(ps: map<int, nat>, x: seq<int>, w: seq<nat>)
    requires |x| == 6 && Holds(ps, x, w, 0)
    ensures forall f :: f in ps <==> f in x
  {
    forall f
      ensures f in ps <==> f in x
    {
      AmongAll(x, 0, f);
    }
  }

  /** Field f is named from place k on; place j names its field first from place k on. */
  ghost predicate Among(x: seq<int>, k: nat, f: int)
    decreases |x| - k
  {
    k < |x| && (x[k] == f || Among(x, k + 1, f))
  }

  ghost predicate First(x: seq<int>, k: int, j: int)
    requires 0 <= k && j < |x|
  {
    forall i :: k <= i < j ==> x[i] != x[j]
  }

  /** What the position table holds when the tokens from place k on have been popped. */
  ghost predicate Holds(ps: map<int, nat>, x: seq<int>, w: seq<nat>, k: nat) {
    && (forall f :: f in ps <==> Among(x, k, f))
    && (forall j :: k <= j < |x| && First(x, k, j) ==> x[j] in ps && ps[x[j]] == Below(x, w, j + 1))
  }

  lemma {:induction false} HoldsMore(ps: map<int, nat>, x: seq<int>, w: seq<nat>, k: nat)
    requires k < |x| && Holds(ps, x, w, k + 1)
    ensures Holds(ps[x[k] := Below(x, w, k + 1)], x, w, k)
  {
    forall j | k < j < |x| && First(x, k, j)
      ensures First(x, k + 1, j) && x[j] != x[k]
    {
    }
  }

  lemma {:induction false} AmongAll(x: seq<int>, k: nat, f: int)
    ensures Among(x, k, f) <==> exists i :: k <= i < |x| && x[i] == f
    decreases |x| - k
  {
    if k < |x| {
      AmongAll(x, k + 1, f);
    }
  }

  /** The popping loop: the last token gets the lowest position. */
  method Positions(tokens: seq<string>, w: seq<nat>, ghost x: seq<int>) returns (ps: map<int, nat>, ok: bool)
    requires |w| == |x| == |tokens| == 6 && forall j :: 0 <= j < 6 ==> FieldNo(tokens[j]) == x[j]
    ensures ok <==> forall j :: 0 <= j < 6 ==> x[j] < 6
    ensures ok ==> Holds(ps, x, w, 0)
  {
    ps := map[];
    assert Holds(ps, x, w, 6);
    hide FieldNo, Holds;
    var fields := tokens;
    var pos := 0;
    while fields != []
      invariant fields == tokens[..|fields|] && |fields| <= 6 && pos == Below(x, w, |fields|)
      invariant forall j :: |fields| <= j < 6 ==> x[j] < 6
      invariant Holds(ps, x, w, |fields|)
      decreases |fields|
    {
      var k := |fields| - 1;
      var field := FieldNo(fields[k]);
      assert field == x[k];
      if field == 6 {
        return ps, false;
      }
      HoldsMore(ps, x, w, k);
      fields := fields[..k];
      ps := ps[field := pos];
      pos := pos + w[field];
    }
    ok := true;
  }

  function Elements(s: seq<int>): set<int> { set f | f in s }

  lemma {:induction false} ElementsBound(s: seq<int>)
    ensures |Elements(s)| <= |s|
    decreases |s|
  {
    if s == [] {
      assert Elements(s) == {};
    } else {
      var init, last := s[..|s| - 1], s[|s| - 1];
      ElementsBound(init);
      assert s == init + [last];
      assert Elements(s) == Elements(init) + {last};
    }
  }

  /** Leaving out one of two equal entries keeps the elements. */
  lemma {:induction false} LeaveOut(x: seq<int>, i: int, j: int)
    requires 0 <= i < j < |x| && x[i] == x[j]
    ensures Elements(x[..j] + x[j + 1..]) == Elements(x)
  {
    var y := x[..j] + x[j + 1..];
    assert x == x[..j] + [x[j]] + x[j + 1..];
    assert y[i] == x[j];
  }

  lemma {:induction false} AllSix(x: seq<int>)
    requires Complete(x)
    ensures |Elements(x)| == 6
  {
    assert Elements(x) == {0, 1, 2, 3, 4, 5};
  }

  /** Six places that hold all six fields hold each once. */
  lemma {:induction false} EachOnce(x: seq<int>, i: int, j: int)
    requires Complete(x) && 0 <= i < j < 6
    ensures x[i] != x[j]
  {
    hide Elements;
    AllSix(x);
    if x[i] == x[j] {
      LeaveOut(x, i, j);
      ElementsBound(x[..j] + x[j + 1..]);
    }
  }

  lemma {:induction false} BelowFalls(x: seq<int>, w: seq<nat>, i: nat, j: nat)
    requires i <= j
    ensures Below(x, w, j) <= Below(x, w, i)
    decreases j - i
  {
    if i < j {
      BelowFalls(x, w, i + 1, j);
    }
  }

  /** Every bit below the top belongs to one of the places. */
  lemma {:induction false} SlotOf(x: seq<int>, w: seq<nat>, b: int, i: nat) returns (k: nat)
    requires 0 <= b < Below(x, w, i)
    ensures i <= k < |x| && Below(x, w, k + 1) <= b < Below(x, w, k)
    decreases |x| - i
  {
    if b >= Below(x, w, i + 1) {
      k := i;
    } else {
      k := SlotOf(x, w, b, i + 1);
    }
  }

  function Weight(x: seq<int>, w: seq<nat>, f: int, i: int): nat
    requires 0 <= f < |w| && 0 <= i < |x|
  {
    if x[i] == f then w[f] else 0
  }

  lemma {:induction false} OnePlace(x: seq<int>, w: seq<nat>, f: int)
    requires Complete(x) && |w| == 6 && 0 <= f < 6
    ensures Weight(x, w, f, 0) + Weight(x, w, f, 1) + Weight(x, w, f, 2) + Weight(x, w, f, 3) + Weight(x, w, f,
      4) + Weight(x, w, f, 5) == w[f]
  {
    assert f in x;
    var k :| 0 <= k < 6 && x[k] == f;
    forall i | 0 <= i < 6 && i != k
      ensures x[i] != f
    {
      EachOnce(x, if i < k then i else k, if i < k then k else i);
    }
  }

  /** Whatever the order, the fields take the sum of their widths. */
  lemma {:induction false} BelowAll(x: seq<int>, w: seq<nat>)
    requires Complete(x) && |w| == 6
    ensures Below(x, w, 0) == w[0] + w[1] + w[2] + w[3] + w[4] + w[5]
  {
    forall f | 0 <= f < 6
      ensures Weight(x, w, f, 0) + Weight(x, w, f, 1) + Weight(x, w, f, 2) + Weight(x, w, f, 3) + Weight(x, w, f,
        4) + Weight(x, w, f, 5) == w[f]
    {
      OnePlace(x, w, f);
    }
    forall i | 0 <= i < 6
      ensures w[x[i]] == Weight(x, w, 0, i) + Weight(x, w, 1, i) + Weight(x, w, 2, i) + Weight(x, w, 3, i) + Weight(x,
        w, 4, i) + Weight(x, w, 5, i)
    {
    }
    assert Below(x, w, 6) == 0;
    assert Below(x, w, 4) == w[x[4]] + w[x[5]];
    assert Below(x, w, 2) == w[x[2]] + w[x[3]] + Below(x, w, 4);
    assert Below(x, w, 0) == w[x[0]] + w[x[1]] + Below(x, w, 2);
    assert Weight(x, w, 0, 0) + Weight(x, w, 0, 1) + Weight(x, w, 0, 2) + Weight(x, w, 0, 3) + Weight(x, w, 0,
      4) + Weight(x, w, 0, 5) == w[0];
  }

  /** Each field's position is the room taken by the fields after it. */
  ghost predicate InPlace(x: seq<int>, w: seq<nat>, p: seq<nat>) {
    Complete(x) && |w| == |p| == 6 && forall j :: 0 <= j < 6 ==> p[x[j]] == Below(x, w, j + 1)
  }

  lemma {:induction false} PlaceOf(x: seq<int>, w: seq<nat>, p: seq<nat>, f: int) returns (i: nat)
    requires InPlace(x, w, p) && 0 <= f < 6
    ensures i < 6 && x[i] == f && p[f] == Below(x, w, i + 1) && p[f] + w[f] == Below(x, w, i)
  {
    assert f in x;
    i :| 0 <= i < 6 && x[i] == f;
  }

  lemma {:induction false} FieldsApart(x: seq<int>, w: seq<nat>, p: seq<nat>, f: int, g: int)
    requires InPlace(x, w, p) && 0 <= f < 6 && 0 <= g < 6 && f != g
    ensures p[f] + w[f] <= p[g] || p[g] + w[g] <= p[f]
  {
    var i := PlaceOf(x, w, p, f);
    var j := PlaceOf(x, w, p, g);
    if i < j {
      BelowFalls(x, w, i + 1, j);
    } else {
      BelowFalls(x, w, j + 1, i);
    }
  }

  lemma {:induction false} BitCovered(x: seq<int>, w: seq<nat>, p: seq<nat>, b: int)
    requires InPlace(x, w, p) && 0 <= b < Below(x, w, 0)
    ensures Covered(w, p, b)
  {
    var k := SlotOf(x, w, b, 0);
    assert 0 <= x[k] < 6 && p[x[k]] <= b < p[x[k]] + w[x[k]];
  }

  lemma {:induction false} Placed(x: seq<int>, w: seq<nat>, p: seq<nat>, ps: map<int, nat>)
    requires Complete(x) && |w| == |p| == 6 && Holds(ps, x, w, 0)
    requires forall f :: 0 <= f < 6 ==> f in ps && ps[f] == p[f]
    ensures Tiling(w, p, w[0] + w[1] + w[2] + w[3] + w[4] + w[5]) && Descending(x, w, p)
  {
    BelowAll(x, w);
    HeldInPlace(x, w, p, ps);
    Stacked(x, w, p);
    hide InPlace, Holds, Below, Covered, Complete, Descending;
    forall f, g | 0 <= f < 6 && 0 <= g < 6 && f != g
      ensures p[f] + w[f] <= p[g] || p[g] + w[g] <= p[f]
    {
      FieldsApart(x, w, p, f, g);
    }
    forall f | 0 <= f < 6
      ensures p[f] + w[f] <= Below(x, w, 0)
    {
      var i := PlaceOf(x, w, p, f);
      BelowFalls(x, w, 0, i);
    }
    forall b | 0 <= b < Below(x, w, 0)
      ensures Covered(w, p, b)
    {
      BitCovered(x, w, p, b);
    }
  }

  lemma {:induction false} Stacked(x: seq<int>, w: seq<nat>, p: seq<nat>)
    requires InPlace(x, w, p)
    ensures Descending(x, w, p)
  {
    hide Below;
    forall i, j | 0 <= i < j < 6
      ensures p[x[j]] + w[x[j]] <= p[x[i]]
    {
      BelowFalls(x, w, i + 1, j);
      BelowStep(x, w, j);
    }
  }

  lemma {:induction false} BelowStep(x: seq<int>, w: seq<nat>, j: nat)
    requires j < |x| && 0 <= x[j] < |w|
    ensures Below(x, w, j) == w[x[j]] + Below(x, w, j + 1)
  {
  }

  lemma {:induction false} HeldInPlace(x: seq<int>, w: seq<nat>, p: seq<nat>, ps: map<int, nat>)
    requires Complete(x) && |w| == |p| == 6 && Holds(ps, x, w, 0)
    requires forall f :: 0 <= f < 6 ==> f in ps && ps[f] == p[f]
    ensures InPlace(x, w, p)
  {
    hide Below;
    forall j | 0 <= j < 6
      ensures p[x[j]] == Below(x, w, j + 1)
    {
      forall i | 0 <= i < j
        ensures x[i] != x[j]
      {
        EachOnce(x, i, j);
      }
      assert First(x, 0, j);
    }
  }

  /** Widths and positions of the six fields, and the number of byte bits below them. */
  datatype Layout = Layout(w: seq<nat>, p: seq<nat>, shift: nat) {
    function Total(): nat requires |w| == 6 { w[0] + w[1] + w[2] + w[3] + w[4] + w[5] }

    /** The fields tile the address, and neither the 32-bit shifts of the fields nor the 64-bit shift of
        the whole lose bits. */
    ghost predicate Good() { |w| == 6 && Tiling(w, p, Total()) && Total() <= 31 && shift + Total() <= 64 }
  }

  function Extract(l: Layout, h: nat, f: int): nat
    requires |l.w| == |l.p| == 6 && 0 <= f < 6
  {
    And(Shr(h, l.p[f]), Pow2(l.w[f]) - 1)
  }

  /** From a byte address to the six coordinates. */
  function AddressMapping(l: Layout, hex: nat): Address
    requires |l.w| == |l.p| == 6
  {
    var h := Shr(hex, l.shift);
    Address(Extract(l, h, 0), Extract(l, h, 1), Extract(l, h, 2), Extract(l, h, 3), Extract(l, h, 4), Extract(l, h, 5))
  }

  function Coordinate(a: Address, f: int): int {
    match f
    case 0 => a.channel
    case 1 => a.rank
    case 2 => a.bankgroup
    case 3 => a.bank
    case 4 => a.row
    case _ => a.column
  }

  predicate NonNegative(a: Address) {
    a.channel >= 0 && a.rank >= 0 && a.bankgroup >= 0 && a.bank >= 0 && a.row >= 0 && a.column >= 0
  }

  ghost predicate InRange(l: Layout, a: Address)
    requires |l.w| == 6
  {
    NonNegative(a) && forall f :: 0 <= f < 6 ==> 0 <= Coordinate(a, f) < Pow2(l.w[f])
  }

  function Pack(l: Layout, a: Address): nat
    requires |l.p| == 6 && NonNegative(a)
  {
    Or(Or(Or(Or(Or(Shl(a.column, l.p[5]), Shl(a.row, l.p[4])), Shl(a.bank, l.p[3])), Shl(a.bankgroup, l.p[2])),
          Shl(a.rank, l.p[1])), Shl(a.channel, l.p[0]))
  }

  /** From the six coordinates back to a byte address. */
  function AddressUnmapping(l: Layout, a: Address): nat
    requires |l.p| == 6 && NonNegative(a)
  {
    Shl(Pack(l, a), l.shift)
  }

  /** Coordinate f puts a one at bit b. */
  ghost predicate Puts(l: Layout, a: Address, f: int, b: nat)
    requires |l.p| == 6 && 0 <= f < 6 && 0 <= Coordinate(a, f)
  {
    l.p[f] <= b && Bit(Coordinate(a, f), b - l.p[f]) == 1
  }

  lemma {:induction false} PackBit(l: Layout, a: Address, b: nat)
    requires |l.p| == 6 && NonNegative(a)
    ensures Bit(Pack(l, a), b) == 1 <==> exists f :: 0 <= f < 6 && Puts(l, a, f, b)
  {
    var c5, c4, c3, c2, c1, c0 := Shl(a.column, l.p[5]), Shl(a.row, l.p[4]), Shl(a.bank, l.p[3]),
      Shl(a.bankgroup, l.p[2]), Shl(a.rank, l.p[1]), Shl(a.channel, l.p[0]);
    BitShl(a.column, l.p[5], b);
    BitShl(a.row, l.p[4], b);
    BitShl(a.bank, l.p[3], b);
    BitShl(a.bankgroup, l.p[2], b);
    BitShl(a.rank, l.p[1], b);
    BitShl(a.channel, l.p[0], b);
    hide Bit, Shl, Or;
    BitOr(c5, c4, b);
    BitOr(Or(c5, c4), c3, b);
    BitOr(Or(Or(c5, c4), c3), c2, b);
    BitOr(Or(Or(Or(c5, c4), c3), c2), c1, b);
    BitOr(Or(Or(Or(Or(c5, c4), c3), c2), c1), c0, b);
    assert Puts(l, a, 5, b) <==> Bit(c5, b) == 1;
    assert Puts(l, a, 4, b) <==> Bit(c4, b) == 1;
    assert Puts(l, a, 3, b) <==> Bit(c3, b) == 1;
    assert Puts(l, a, 2, b) <==> Bit(c2, b) == 1;
    assert Puts(l, a, 1, b) <==> Bit(c1, b) == 1;
    assert Puts(l, a, 0, b) <==> Bit(c0, b) == 1;
  }

  /** A coordinate in range only puts ones into its own field. */
  lemma {:induction false} PutsInside(l: Layout, a: Address, f: int, b: nat)
    requires l.Good() && InRange(l, a) && 0 <= f < 6 && Puts(l, a, f, b)
    ensures l.p[f] <= b < l.p[f] + l.w[f]
  {
    if b >= l.p[f] + l.w[f] {
      BitAbove(Coordinate(a, f), l.w[f], b - l.p[f]);
    }
  }

  /** The bits of a field of the packed address are those of its coordinate. */
  lemma {:induction false} OwnBit(l: Layout, a: Address, f: int, j: nat)
    requires l.Good() && InRange(l, a) && 0 <= f < 6 && j < l.w[f]
    ensures Bit(Pack(l, a), l.p[f] + j) == Bit(Coordinate(a, f), j)
  {
    hide Bit, Pack;
    var b := l.p[f] + j;
    PackBit(l, a, b);
    if g :| 0 <= g < 6 && Puts(l, a, g, b) {
      PutsInside(l, a, g, b);
      assert g == f;
    } else {
      assert !Puts(l, a, f, b);
    }
  }

  lemma {:induction false} ShrShl(x: nat, n: nat)
    ensures Shr(Shl(x, n), n) == x
    decreases n
  {
    if n > 0 {
      ShrShl(x, n - 1);
      assert Shl(x, n) / 2 == Shl(x, n - 1);
    }
  }

  lemma {:induction false} ExtractBit(l: Layout, h: nat, f: int, j: nat)
    requires |l.w| == |l.p| == 6 && 0 <= f < 6
    ensures Bit(Extract(l, h, f), j) == if j < l.w[f] then Bit(h, l.p[f] + j) else 0
  {
    BitAnd(Shr(h, l.p[f]), Pow2(l.w[f]) - 1, j);
    BitMask(l.w[f], j);
    BitShr(h, l.p[f], j);
  }

  /** Coordinates survive the way to a byte address and back. */
  lemma {:induction false} MapAfterUnmap(l: Layout, a: Address)
    requires l.Good() && InRange(l, a)
    ensures AddressMapping(l, AddressUnmapping(l, a)) == a
  {
    hide Bit, Shl, Shr, Pack, Extract;
    ShrShl(Pack(l, a), l.shift);
    forall f | 0 <= f < 6
      ensures Extract(l, Pack(l, a), f) == Coordinate(a, f)
    {
      ExtractIs(l, a, f);
    }
    assert Extract(l, Pack(l, a), 0) == Coordinate(a, 0) && Extract(l, Pack(l, a), 1) == Coordinate(a, 1);
    assert Extract(l, Pack(l, a), 2) == Coordinate(a, 2) && Extract(l, Pack(l, a), 3) == Coordinate(a, 3);
    assert Extract(l, Pack(l, a), 4) == Coordinate(a, 4) && Extract(l, Pack(l, a), 5) == Coordinate(a, 5);
  }

  lemma {:induction false} ExtractIs(l: Layout, a: Address, f: int)
    requires l.Good() && InRange(l, a) && 0 <= f < 6
    ensures Extract(l, Pack(l, a), f) == Coordinate(a, f)
  {
    hide Bit, Shr, Pack, And, Pow2, Coordinate;
    MaskBelow(Shr(Pack(l, a), l.p[f]), l.w[f]);
    forall j: nat | j < l.w[f]
      ensures Bit(Extract(l, Pack(l, a), f), j) == Bit(Coordinate(a, f), j)
    {
      ExtractBit(l, Pack(l, a), f, j);
      OwnBit(l, a, f, j);
    }
    SameBits(Extract(l, Pack(l, a), f), Coordinate(a, f), l.w[f]);
  }

  lemma {:induction false} MappedInRange(l: Layout, hex: nat)
    requires |l.w| == |l.p| == 6
    ensures InRange(l, AddressMapping(l, hex))
    ensures forall f :: 0 <= f < 6 ==> Coordinate(AddressMapping(l, hex), f) == Extract(l, Shr(hex, l.shift), f)
  {
    hide Shr, And, Pow2;
    forall f | 0 <= f < 6
      ensures Extract(l, Shr(hex, l.shift), f) < Pow2(l.w[f])
    {
      MaskBelow(Shr(Shr(hex, l.shift), l.p[f]), l.w[f]);
    }
  }

  /** The other way round, only the byte bits and the bits above the fields are lost. */
  lemma {:induction false} UnmapAfterMap(l: Layout, hex: nat)
    requires l.Good()
    ensures InRange(l, AddressMapping(l, hex))
    ensures AddressUnmapping(l, AddressMapping(l, hex)) == Shl(And(Shr(hex, l.shift), Pow2(l.Total()) - 1), l.shift)
  {
    MappedInRange(l, hex);
    hide *;
    PackMapped(l, hex);
    UnmapIsShifted(l, AddressMapping(l, hex));
  }

  lemma {:induction false} UnmapIsShifted(l: Layout, a: Address)
    requires |l.p| == 6 && NonNegative(a)
    ensures AddressUnmapping(l, a) == Shl(Pack(l, a), l.shift)
  {
  }

  lemma {:induction false} PackMapped(l: Layout, hex: nat)
    requires l.Good() && InRange(l, AddressMapping(l, hex))
    ensures Pack(l, AddressMapping(l, hex)) == And(Shr(hex, l.shift), Pow2(l.Total()) - 1)
  {
    hide Bit, Shl, Shr, Pack, Extract, AddressMapping, And, Pow2, Coordinate;
    var a, h, n := AddressMapping(l, hex), Shr(hex, l.shift), l.Total();
    PackBelow(l, a);
    MaskBelow(h, n);
    forall b: nat | b < n
      ensures Bit(Pack(l, a), b) == Bit(And(h, Pow2(n) - 1), b)
    {
      MappedBit(l, hex, b);
    }
    SameBits(Pack(l, a), And(h, Pow2(n) - 1), n);
  }

  lemma {:induction false} FieldOfBit(l: Layout, b: nat) returns (f: int)
    requires l.Good() && b < l.Total()
    ensures |l.w| == |l.p| == 6 && 0 <= f < 6 && l.p[f] <= b < l.p[f] + l.w[f]
  {
    assert Covered(l.w, l.p, b);
    f := Owner(l.w, l.p, b);
  }

  lemma {:induction false} Owner(w: seq<nat>, p: seq<nat>, b: int) returns (f: int)
    requires |w| == |p| == 6 && Covered(w, p, b)
    ensures 0 <= f < 6 && p[f] <= b < p[f] + w[f]
  {
    f :| 0 <= f < 6 && p[f] <= b < p[f] + w[f];
  }

  lemma {:induction false} MappedBit(l: Layout, hex: nat, b: nat)
    requires l.Good() && InRange(l, AddressMapping(l, hex)) && b < l.Total()
    ensures Bit(Pack(l, AddressMapping(l, hex)), b) == Bit(And(Shr(hex, l.shift), Pow2(l.Total()) - 1), b)
  {
    hide Bit, Shl, Shr, Pack, Extract, AddressMapping, And, Pow2, Coordinate, Tiling;
    var f := FieldOfBit(l, b);
    var h, n := Shr(hex, l.shift), l.Total();
    MappedInRange(l, hex);
    OwnBit(l, AddressMapping(l, hex), f, b - l.p[f]);
    ExtractBit(l, h, f, b - l.p[f]);
    BitAnd(h, Pow2(n) - 1, b);
    BitMask(n, b);
  }

  lemma {:induction false} PackBelow(l: Layout, a: Address)
    requires l.Good() && InRange(l, a)
    ensures Pack(l, a) < Pow2(l.Total())
  {
    hide Bit, Pack, Pow2, Coordinate;
    forall b: nat | l.Total() <= b
      ensures Bit(Pack(l, a), b) == 0
    {
      PackBit(l, a, b);
      if f :| 0 <= f < 6 && Puts(l, a, f, b) {
        PutsInside(l, a, f, b);
        assert false;
      }
    }
    BelowPower(Pack(l, a), l.Total());
  }
}
