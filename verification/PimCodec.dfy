/** PIM transactions are packed into addresses by the trace generator and unpacked by the memory system. */
module PimCodec {
  import opened Arithmetic
  import opened Bits
  import opened Commands

  /** What a dataflow word configures. */
  datatype Shape = Shape(vcuts: nat, hcuts: nat, mcf: nat, ucf: nat, df: nat, mTile: nat,
                         vcutsNext: nat, hcutsNext: nat, kernel: nat, stride: nat)

  /** The three classes of transaction. */
  datatype Transaction =
    | Launch(parts: nat)
    | Dataflow(shape: Shape)
    | Load(part: nat, kind: nat, dim: nat, base: nat)

  function Take(x: nat, n: nat): nat { And(x, Pow2(n) - 1) }

  function Unpack(address: nat): Transaction {
    if Bit(address, 0) == 1 then Launch(Shr(address, 1))
    else if Bit(address, 6) == 1 && Bit(address, 5) == 1 then
      var a := Shr(Shr(Shr(address, 1), 4), 2);
      var b := Shr(a, 3);
      var c := Shr(b, 1);
      var d := Shr(c, 3);
      var e := Shr(d, 3);
      var f := Shr(e, 1);
      var g := Shr(f, 4);
      var h := Shr(g, 3);
      var k := Shr(h, 1);
      Dataflow(Shape(Pow2(Take(a, 3)), Pow2(Take(b, 1)), Pow2(Take(c, 3)), Pow2(Take(d, 3)), Take(e, 1),
        Pow2(Take(f, 4)),
                     Pow2(Take(g, 3)), Pow2(Take(h, 1)), Take(k, 5), Take(Shr(k, 5), 5)))
    else
      var a := Shr(address, 1);
      var b := Shr(a, 4);
      var c := Shr(b, 2);
      var d := Shr(c, 32);
      Load(Take(a, 4), Take(b, 2), Take(c, 32), Take(d, 22))
  }

  /** The fields of a dataflow word: most are the logarithms of what they configure. */
  datatype Fields = Fields(v: nat, h: nat, m: nat, u: nat, df: nat, t: nat, vn: nat, hn: nat, kernel: nat, stride: nat)
  {
    predicate Fit() {
      v < 8 && h < 2 && m < 8 && u < 8 && df < 2 && t < 16 && vn < 8 && hn < 2 && kernel < 32 && stride < 32
    }

    function Meant(): Shape {
      Shape(Pow2(v), Pow2(h), Pow2(m), Pow2(u), df, Pow2(t), Pow2(vn), Pow2(hn), kernel, stride)
    }
  }

  /** The words, as sums of fields times powers of two. */
  function DataflowWord(f: Fields): nat {
    3 * 32 + f.v * 128 + f.h * 1024 + f.m * 2048 + f.u * 16384 + f.df * 131072 + f.t * 262144
    + f.vn * 4194304 + f.hn * 33554432 + f.kernel * 67108864 + f.stride * 2147483648
  }

  function LoadWord(part: nat, kind: nat, dim: nat, base: nat): nat {
    part * 2 + kind * 32 + dim * 128 + base * 549755813888
  }

  function LaunchWord(cuts: nat): nat { 1 + (Pow2(cuts) - 1) * 2 }

  /** The low bits that tell the classes apart. */
  lemma {:induction false} ClassBits(part: nat, kind: nat, hi: nat)
    requires part < 16 && kind < 4
    ensures var x := 2 * (part + 16 * (kind + 4 * hi));
      Bit(x, 0) == 0 && (Bit(x, 6) == 1 && Bit(x, 5) == 1 <==> kind == 3)
  {
    var y := part + 16 * (kind + 4 * hi);
    var x := 2 * y;
    assert x / 2 == y;
    assert y / 2 / 2 / 2 / 2 == kind + 4 * hi;
    assert Bit(x, 5) == Bit(y, 4) == Bit(y / 2, 3) == Bit(y / 2 / 2, 2) == Bit(y / 2 / 2 / 2, 1) == (kind + 4 * hi) % 2;
    assert Bit(x, 6) == Bit(y, 5) == Bit(y / 2, 4) == Bit(y / 2 / 2, 3) == Bit(y / 2 / 2 / 2, 2) ==
      Bit(kind + 4 * hi, 1);
    assert Bit(kind + 4 * hi, 1) == (kind + 4 * hi) / 2 % 2;
  }

  /** A packed load is unpacked to its fields. */
  lemma {:induction false} LoadRoundTrip(part: nat, kind: nat, dim: nat, base: nat)
    requires part < 16 && kind < 3 && dim < 4294967296 && base < 4194304
    ensures Unpack(LoadWord(part, kind, dim, base)) == Load(part, kind, dim, base)
  {
    PowerValues();
    hide And, Shr, Bit, Pow2;
    var d := base;
    var c := dim + 4294967296 * d;
    var b := kind + 4 * c;
    var a := part + 16 * b;
    assert LoadWord(part, kind, dim, base) == 0 + 2 * a;
    ClassBits(part, kind, c);
    TakeDrop(0, a, 1);
    TakeDrop(part, b, 4);
    TakeDrop(kind, c, 2);
    TakeDrop(dim, d, 32);
    TakeDrop(base, 0, 22);
  }

  /** The upper fields of a dataflow word. */
  function Upper(x: Fields): nat { x.t + 16 * (x.vn + 8 * (x.hn + 2 * (x.kernel + 32 * x.stride))) }

  lemma {:induction false} UpperFields(x: Fields)
    requires x.Fit()
    ensures var f := Upper(x);
      var g := Shr(f, 4);
      var h := Shr(g, 3);
      var k := Shr(h, 1);
      Take(f, 4) == x.t && Take(g, 3) == x.vn && Take(h, 1) == x.hn && Take(k, 5) == x.kernel &&
        Take(Shr(k, 5), 5) == x.stride
  {
    PowerValues();
    hide And, Shr, Pow2;
    var k := x.kernel + 32 * x.stride;
    var h := x.hn + 2 * k;
    var g := x.vn + 8 * h;
    TakeDrop(x.t, g, 4);
    TakeDrop(x.vn, h, 3);
    TakeDrop(x.hn, k, 1);
    TakeDrop(x.kernel, x.stride, 5);
    TakeDrop(x.stride, 0, 5);
  }

  function Lower(x: Fields, f: nat): nat { x.v + 8 * (x.h + 2 * (x.m + 8 * (x.u + 8 * (x.df + 2 * f)))) }

  lemma {:induction false} LowerFields(x: Fields, f: nat)
    requires x.Fit()
    ensures var a := Lower(x, f);
      var b := Shr(a, 3);
      var c := Shr(b, 1);
      var d := Shr(c, 3);
      var e := Shr(d, 3);
      Take(a, 3) == x.v && Take(b, 1) == x.h && Take(c, 3) == x.m && Take(d, 3) == x.u && Take(e, 1) == x.df &&
        Shr(e, 1) == f
  {
    PowerValues();
    hide And, Shr, Pow2;
    var e := x.df + 2 * f;
    var d := x.u + 8 * e;
    var c := x.m + 8 * d;
    var b := x.h + 2 * c;
    TakeDrop(x.v, b, 3);
    TakeDrop(x.h, c, 1);
    TakeDrop(x.m, d, 3);
    TakeDrop(x.u, e, 3);
    TakeDrop(x.df, f, 1);
  }

  /** A packed dataflow configuration is unpacked to what it was made from. */
  lemma {:induction false} DataflowRoundTrip(x: Fields)
    requires x.Fit()
    ensures Unpack(DataflowWord(x)) == Dataflow(x.Meant())
  {
    hide And, Shr, Bit, Pow2, Take, Upper, Lower, DataflowWord;
    PowerValues();
    var a := Lower(x, Upper(x));
    UpperFields(x);
    LowerFields(x, Upper(x));
    WordParts(x);
    ClassBits(0, 3, a);
    TakeDrop(0, 16 * (3 + 4 * a), 1);
    TakeDrop(0, 3 + 4 * a, 4);
    TakeDrop(3, a, 2);
  }

  lemma {:induction false} WordParts(x: Fields)
    ensures DataflowWord(x) == 2 * (16 * (3 + 4 * Lower(x, Upper(x))))
  {
  }

  /** A launch names exactly the first cuts partitions. */
  lemma {:induction false} LaunchRoundTrip(cuts: nat, i: nat)
    ensures Unpack(LaunchWord(cuts)) == Launch(Pow2(cuts) - 1)
    ensures Bit(Pow2(cuts) - 1, i) == if i < cuts then 1 else 0
  {
    var x := LaunchWord(cuts);
    assert x % 2 == 1 && x / 2 == Pow2(cuts) - 1;
    assert Shr(x, 1) == Shr(x / 2, 0);
    BitMask(cuts, i);
  }

  /** The configuration registers of the PIM front end, one entry per partition. */
  datatype Registers = Registers(shape: Shape,
                                 M: seq<int>, K: seq<int>, N: seq<int>,
                                 baseW: seq<int>, baseOut: seq<int>, baseIn: seq<int>, running: seq<bool>)
  {
    predicate Sized(cuts: int) {
      |M| == |K| == |N| == |baseW| == |baseOut| == |baseIn| == |running| == cuts
    }
  }

  function Fill<T>(n: nat, x: T): seq<T> { seq(n, _ => x) }

  /** A 32-bit field read into a signed integer. */
  function ToInt(x: nat): int { if x < 2147483648 then x else x - 4294967296 }

  /** Every partition is named by the launch and has all its dimensions. */
  predicate AllReady(M: seq<int>, K: seq<int>, N: seq<int>, parts: nat)
    requires |M| == |K| == |N|
  {
    forall i :: 0 <= i < |M| ==> PartReady(M, K, N, parts, i)
  }

  predicate PartReady(M: seq<int>, K: seq<int>, N: seq<int>, parts: nat, i: int)
    requires |M| == |K| == |N| && 0 <= i < |M|
  {
    Bit(parts, i) == 1 && M[i] != 0 && N[i] != 0 && K[i] != 0
  }

  /** Registers after a dataflow configuration: everything is reset. */
  function Reset(s: Shape): Registers {
    var zeros := Fill(s.vcuts * s.hcuts, 0);
    Registers(s, zeros, zeros, zeros, zeros, zeros, zeros, Fill(s.vcuts * s.hcuts, false))
  }

  function Loaded(r: Registers, part: nat, kind: nat, dim: int, base: int): Registers
    requires r.Sized(|r.M|) && part < |r.M|
  {
    if kind == 0 then r.(baseW := r.baseW[part := base], M := r.M[part := dim])
    else if kind == 1 then r.(baseOut := r.baseOut[part := base], K := r.K[part := dim])
    else r.(baseIn := r.baseIn[part := base], N := r.N[part := dim])
  }

  /** A transaction that the front end can carry out: a load names an existing partition. */
  predicate Applicable(r: Registers, t: Transaction) {
    && r.Sized(|r.M|)
    && match t
       case Launch(_) => r.shape.vcuts * r.shape.hcuts == |r.M|
       case Load(part, kind, _, _) => part < |r.M| && kind < 3
       case Dataflow(_) => true
  }

  /** Registers after a transaction, and whether it leaves the queue: a launch waits until all is ready. */
  function Apply(r: Registers, t: Transaction): (Registers, bool)
    requires Applicable(r, t)
  {
    match t
    case Launch(parts) =>
      if AllReady(r.M, r.K, r.N, parts) then (r.(running := Fill(|r.M|, true)), true) else (r, false)
    case Dataflow(shape) => (Reset(shape), true)
    case Load(part, kind, dim, base) => (Loaded(r, part, kind, ToInt(dim), base), true)
  }

  class FrontEnd {
    var vcuts: nat
    var hcuts: nat
    var mcf: nat
    var ucf: nat
    var df: nat
    var mTile: nat
    var vcutsNext: nat
    var hcutsNext: nat
    var kernel: nat
    var stride: nat
    var M: seq<int>
    var K: seq<int>
    var N: seq<int>
    var baseW: seq<int>
    var baseOut: seq<int>
    var baseIn: seq<int>
    var running: seq<bool>

    ghost function View(): Registers
      reads this
    {
      Registers(Shape(vcuts, hcuts, mcf, ucf, df, mTile, vcutsNext, hcutsNext, kernel, stride), M, K, N, baseW,
        baseOut, baseIn, running)
    }

    /** The transaction at the head of the queue is carried out. */
    method Execute(address: nat) returns (erased: bool)
      requires Applicable(View(), Unpack(address))
      modifies this
      ensures (View(), erased) == Apply(old(View()), Unpack(address)) && View().Sized(|M|)
    {
      hide Unpack, AllReady;
      match Unpack(address)
      case Launch(parts) =>
        erased := Start(parts);
      case Dataflow(shape) =>
        Configure(shape);
        erased := true;
      case Load(part, kind, dim, base) =>
        Dimension(part, kind, ToInt(dim), base);
        erased := true;
    }

    method Configure(s: Shape)
      modifies this
      ensures View() == Reset(s)
    {
      Clear(s.vcuts * s.hcuts);
      SetShape(s);
    }

    method Clear(cuts: nat)
      modifies this`M, this`K, this`N, this`baseW, this`baseOut, this`baseIn, this`running
      ensures M == K == N == baseW == baseOut == baseIn == Fill(cuts, 0) && running == Fill(cuts, false)
    {
      var zeros := Fill(cuts, 0);
      M, K, N := zeros, zeros, zeros;
      baseW, baseOut, baseIn := zeros, zeros, zeros;
      running := Fill(cuts, false);
    }

    method SetShape(s: Shape)
      modifies this`vcuts, this`hcuts, this`mcf, this`ucf, this`df, this`mTile, this`vcutsNext, this`hcutsNext,
               this`kernel, this`stride
      ensures View().shape == s
    {
      vcuts, hcuts, mcf, ucf, df := s.vcuts, s.hcuts, s.mcf, s.ucf, s.df;
      mTile, vcutsNext, hcutsNext, kernel, stride := s.mTile, s.vcutsNext, s.hcutsNext, s.kernel, s.stride;
    }

    method Dimension(part: nat, kind: nat, dim: int, base: int)
      requires View().Sized(|M|) && part < |M| && kind < 3
      modifies this`M, this`K, this`N, this`baseW, this`baseOut, this`baseIn
      ensures View() == Loaded(old(View()), part, kind, dim, base)
    {
      if kind == 0 {
        baseW, M := baseW[part := base], M[part := dim];
      } else if kind == 1 {
        baseOut, K := baseOut[part := base], K[part := dim];
      } else {
        baseIn, N := baseIn[part := base], N[part := dim];
      }
    }

    method Start(parts: nat) returns (configured: bool)
      requires View().Sized(|M|) && vcuts * hcuts == |M|
      modifies this`running
      ensures configured <==> AllReady(M, K, N, parts)
      ensures running == if configured then Fill(|M|, true) else old(running)
    {
      configured := true;
      for i := 0 to |M|
        invariant running == old(running)
        invariant configured <==> forall j :: 0 <= j < i ==> PartReady(M, K, N, parts, j)
      {
        assert PartReady(M, K, N, parts, i) <==> Bit(parts, i) == 1 && M[i] != 0 && N[i] != 0 && K[i] != 0;
        if !(Bit(parts, i) == 1 && M[i] != 0 && N[i] != 0 && K[i] != 0) {
          configured := false;
        }
      }
      if configured {
        for i := 0 to |M|
          invariant |running| == |M| && forall j :: 0 <= j < i ==> running[j]
        {
          assert PartReady(M, K, N, parts, i);
          if Bit(parts, i) == 1 {
            running := running[i := true];
          }
        }
        assert running == Fill(|M|, true);
      }
    }
  }

  /** One partition's matrix sizes, and a workload of one size triple per partition.  The dataflow is
      given by the logarithms of its parameters: matrices (dataflow 0) or vectors (dataflow 1). */
  datatype Sizes = Sizes(m: nat, k: nat, n: nat)

  datatype Workload = Workload(v: nat, h: nat, mcf: nat, ucf: nat, df: nat, tile: nat, parts: seq<Sizes>)
  {
    ghost predicate Good() {
      && v < 8 && h < 2 && mcf < 8 && ucf < 8 && df < 2 && tile < 16
      && |parts| == Pow2(v) * Pow2(h) && |parts| <= 16
      && forall i :: 0 <= i < |parts| ==> Fits(this, parts[i])
    }
  }

  /** What load j of a partition puts into the registers: a size and a base row.  Matrices are
      interleaved in pairs of rows and keep their weights first; vectors are replicated. */
  datatype Slot = Slot(dim: nat, base: nat)

  function BaseRow(w: Workload, s: Sizes): nat { (if w.df == 0 then s.k * s.n else s.m * s.k) / 1024 + 1 }

  function SlotOf(w: Workload, s: Sizes, j: int): Slot {
    if w.df == 0 then
      if j == 0 then Slot(s.m / 2, 0) else if j == 1 then Slot(s.k, BaseRow(w, s)) else Slot(s.n, BaseRow(w, s))
    else
      if j == 0 then Slot(Max(1, s.m / Pow2(w.mcf)), BaseRow(w, s))
      else if j == 1 then Slot(Max(1, s.k / Pow2(w.ucf)), BaseRow(w, s))
      else Slot(s.n * Pow2(w.ucf), 0)
  }

  /** The sizes fit their fields, and the vectors' sizes can be divided as the generator divides them. */
  predicate Fits(w: Workload, s: Sizes) {
    && (forall j :: 0 <= j < 3 ==> SlotOf(w, s, j).dim < 2147483648) && BaseRow(w, s) < 4194304
    && (w.df != 0 ==> Divides(s.m, w.mcf) && Divides(s.k, w.ucf))
  }

  predicate Divides(dim: nat, f: nat) { dim < Pow2(f) || dim % Pow2(f) == 0 }

  /** The generated words: the dataflow, three loads per partition, and the launch. */
  function Word(w: Workload, i: nat, s: Sizes, j: nat): nat
    requires w.mcf < 8 && w.ucf < 8
  {
    var x := SlotOf(w, s, j);
    if w.df != 0 && j == 0 then DividedWord(i, 0, s.m, w.mcf, x.base)
    else if w.df != 0 && j == 1 then DividedWord(i, 1, s.k, w.ucf, x.base)
    else LoadWord(i, j, x.dim, x.base)
  }

  function Loads(w: Workload, n: nat): seq<nat>
    requires w.mcf < 8 && w.ucf < 8 && n <= |w.parts|
  {
    if n == 0 then []
    else
      var s := w.parts[n - 1];
      Loads(w, n - 1) + [Word(w, n - 1, s, 0), Word(w, n - 1, s, 1), Word(w, n - 1, s, 2)]
  }

  function First(w: Workload): Fields { Fields(w.v, w.h, w.mcf, w.ucf, w.df, w.tile, 0, 0, 0, 0) }

  function Trace(w: Workload): seq<nat>
    requires w.mcf < 8 && w.ucf < 8
  {
    [DataflowWord(First(w))] + Loads(w, |w.parts|) + [LaunchWord(|w.parts|)]
  }

  /** Registers after the first n partitions of the workload have been loaded. */
  function Progress(w: Workload, n: nat): Registers
    requires n <= |w.parts|
  {
    Registers(First(w).Meant(), Dims(w, n, 0), Dims(w, n, 1), Dims(w, n, 2), Bases(w, n, 0), Bases(w, n, 1),
      Bases(w, n, 2),
              Fill(|w.parts|, false))
  }

  function Dims(w: Workload, n: nat, j: int): seq<int> {
    seq(|w.parts|, i requires 0 <= i < |w.parts| => if i < n then SlotOf(w, w.parts[i], j).dim else 0)
  }

  function Bases(w: Workload, n: nat, j: int): seq<int> {
    seq(|w.parts|, i requires 0 <= i < |w.parts| => if i < n then SlotOf(w, w.parts[i], j).base else 0)
  }

  /** Carrying out a list of words in order. */
  function Replay(r: Registers, words: seq<nat>): Option<Registers> {
    if words == [] then Some(r)
    else
      match Replay(r, words[..|words| - 1])
      case None => None
      case Some(q) =>
        var t := Unpack(words[|words| - 1]);
        if Applicable(q, t) then var (p, erased) := Apply(q, t); if erased then Some(p) else None
        else None
  }

  lemma {:induction false} ReplayMore(r: Registers, words: seq<nat>, word: nat)
    requires Replay(r, words).Some? && Applicable(Replay(r, words).value, Unpack(word))
    requires Apply(Replay(r, words).value, Unpack(word)).1
    ensures Replay(r, words + [word]) == Some(Apply(Replay(r, words).value, Unpack(word)).0)
  {
    assert (words + [word])[..|words|] == words;
  }

  /** The words up to partition n leave exactly the registers of the workload up to partition n. */
  lemma {:induction false} LoadsReplay(w: Workload, r: Registers, n: nat)
    requires w.Good() && r.Sized(|r.M|) && n <= |w.parts|
    ensures Replay(r, [DataflowWord(First(w))] + Loads(w, n)) == Some(Progress(w, n))
    decreases n
  {
    hide Unpack, DataflowWord, Word, SlotOf, Progress, Replay, Fits;
    var first := DataflowWord(First(w));
    if n == 0 {
      FirstReplay(w, r);
      assert [first] + Loads(w, 0) == [first];
    } else {
      LoadsReplay(w, r, n - 1);
      var s, q := w.parts[n - 1], [first] + Loads(w, n - 1);
      var a, b, c := Word(w, n - 1, s, 0), Word(w, n - 1, s, 1), Word(w, n - 1, s, 2);
      ThreeMore(w, r, q, n - 1);
      assert Loads(w, n) == Loads(w, n - 1) + [a, b, c];
      assert [first] + Loads(w, n) == q + [a] + [b] + [c];
    }
  }

  lemma {:induction false} FirstReplay(w: Workload, r: Registers)
    requires w.Good() && r.Sized(|r.M|)
    ensures Replay(r, [DataflowWord(First(w))]) == Some(Progress(w, 0))
  {
    hide Unpack, DataflowWord, SlotOf, Fits;
    DataflowRoundTrip(First(w));
    assert Replay(r, []) == Some(r);
    ReplayMore(r, [], DataflowWord(First(w)));
    assert [] + [DataflowWord(First(w))] == [DataflowWord(First(w))];
    assert Reset(First(w).Meant()) == Progress(w, 0);
  }

  lemma {:induction false} ThreeMore(w: Workload, r: Registers, q: seq<nat>, n: nat)
    requires w.Good() && n < |w.parts| && Replay(r, q) == Some(Progress(w, n))
    ensures var s := w.parts[n];
      Replay(r, q + [Word(w, n, s, 0)] + [Word(w, n, s, 1)] + [Word(w, n, s, 2)]) == Some(Progress(w, n + 1))
  {
    OnePart(w, n);
    hide Unpack, Word, SlotOf, Replay, Progress;
    var s := w.parts[n];
    var a, b, c := Word(w, n, s, 0), Word(w, n, s, 1), Word(w, n, s, 2);
    ReplayMore(r, q, a);
    ReplayMore(r, q + [a], b);
    ReplayMore(r, q + [a] + [b], c);
  }

  function Meaning(w: Workload, n: nat, j: nat): Transaction
    requires n < |w.parts|
  {
    Load(n, j, SlotOf(w, w.parts[n], j).dim, SlotOf(w, w.parts[n], j).base)
  }

  /** Each word is unpacked to the slot it was made for. */
  lemma {:induction false} OneWord(w: Workload, n: nat, j: nat)
    requires w.Good() && n < |w.parts| && j < 3
    ensures Unpack(Word(w, n, w.parts[n], j)) == Meaning(w, n, j) && SlotOf(w, w.parts[n], j).dim < 2147483648
  {
    hide Unpack, LoadWord, DividedWord, Pow2;
    var s := w.parts[n];
    assert Fits(w, s);
    var x := SlotOf(w, s, j);
    if w.df != 0 && j == 0 {
      DividedRoundTrip(n, 0, s.m, w.mcf, x.base);
    } else if w.df != 0 && j == 1 {
      DividedRoundTrip(n, 1, s.k, w.ucf, x.base);
    } else {
      LoadRoundTrip(n, j, x.dim, x.base);
    }
  }

  /** Three loads set one partition. */
  lemma {:induction false} OnePart(w: Workload, n: nat)
    requires w.Good() && n < |w.parts|
    ensures forall j: nat :: j < 3 ==>
      Unpack(Word(w, n, w.parts[n], j)) == Meaning(w, n, j) && SlotOf(w, w.parts[n], j).dim < 2147483648
    ensures Progress(w, n).Sized(|w.parts|) && Progress(w, n + 1) == Loaded3(w, n)
  {
    hide Unpack, Word, SlotOf, Fill;
    forall j: nat | j < 3
      ensures Unpack(Word(w, n, w.parts[n], j)) == Meaning(w, n, j) && SlotOf(w, w.parts[n], j).dim < 2147483648
    {
      OneWord(w, n, j);
    }
    assert |Fill(|w.parts|, false)| == |w.parts| by { FillLength(|w.parts|); }
    forall j | 0 <= j < 3
      ensures Dims(w, n + 1, j) == Dims(w, n, j)[n := SlotOf(w, w.parts[n], j).dim]
      ensures Bases(w, n + 1, j) == Bases(w, n, j)[n := SlotOf(w, w.parts[n], j).base]
    {
    }
  }

  lemma {:induction false} FillLength(n: nat)
    ensures |Fill(n, false)| == n
  {
  }

  function Loaded3(w: Workload, n: nat): Registers
    requires n < |w.parts| && Progress(w, n).Sized(|w.parts|)
  {
    var a, b, c := SlotOf(w, w.parts[n], 0), SlotOf(w, w.parts[n], 1), SlotOf(w, w.parts[n], 2);
    Loaded(Loaded(Loaded(Progress(w, n), n, 0, a.dim, a.base), n, 1, b.dim, b.base), n, 2, c.dim, c.base)
  }

  /** A workload the front end will start: no size vanishes.  A halved row count vanishes below 2; a
      replicated size never does. */
  ghost predicate Startable(w: Workload) {
    forall i :: 0 <= i < |w.parts| ==> NoneVanishes(w, w.parts[i])
  }

  predicate NoneVanishes(w: Workload, s: Sizes) {
    if w.df == 0 then s.m >= 2 && s.k >= 1 && s.n >= 1 else s.n >= 1
  }

  /** A generated trace configures and starts every partition, if no size vanishes; otherwise the launch
      stays in the queue for ever. */
  lemma {:induction false} TraceReplay(w: Workload, r: Registers)
    requires w.Good() && r.Sized(|r.M|)
    ensures Replay(r, Trace(w)) ==
      if Startable(w) then Some(Progress(w, |w.parts|).(running := Fill(|w.parts|, true))) else None
  {
    hide Unpack, DataflowWord, Word, LaunchWord, Loads, SlotOf;
    var c := |w.parts|;
    var q, last := [DataflowWord(First(w))] + Loads(w, c), LaunchWord(c);
    LoadsReplay(w, r, c);
    LaunchRoundTrip(c, 0);
    assert Trace(w) == q + [last] && Trace(w)[..|Trace(w)| - 1] == q;
    ReadyIffStartable(w);
  }

  lemma {:induction false} PartStarts(w: Workload, i: int)
    requires 0 <= i < |w.parts|
    ensures var p := Progress(w, |w.parts|);
      PartReady(p.M, p.K, p.N, Pow2(|w.parts|) - 1, i) <==> NoneVanishes(w, w.parts[i])
  {
    BitMask(|w.parts|, i);
    hide Pow2;
    var n, f := w.parts[i].n, Pow2(w.ucf);
    assert n * f == 0 <==> n == 0;
  }

  lemma {:induction false} ReadyIffStartable(w: Workload)
    ensures var p := Progress(w, |w.parts|); AllReady(p.M, p.K, p.N, Pow2(|w.parts|) - 1) <==> Startable(w)
  {
    hide PartReady, NoneVanishes, Pow2;
    var c, p := |w.parts|, Progress(w, |w.parts|);
    var mask := Pow2(c) - 1;
    if Startable(w) {
      forall i | 0 <= i < c
        ensures PartReady(p.M, p.K, p.N, mask, i)
      {
        PartStarts(w, i);
      }
    } else {
      var i :| 0 <= i < c && !NoneVanishes(w, w.parts[i]);
      PartStarts(w, i);
      assert !PartReady(p.M, p.K, p.N, mask, i);
    }
  }

  /** The word for a size that the generator divides by a replication factor 2^f without rounding, but
      never below one. */
  function DividedWord(part: nat, kind: nat, dim: nat, f: nat, base: nat): nat
    requires f <= 7
  {
    part * 2 + kind * 32 + (if dim < Pow2(f) then 128 else dim * Pow2(7 - f)) + base * 549755813888
  }

  /** Such a word is unpacked to the quotient exactly when the factor divides the size or exceeds it;
      otherwise the fraction spills into the low fields. */
  lemma {:induction false} DividedRoundTrip(part: nat, kind: nat, dim: nat, f: nat, base: nat)
    requires part < 16 && kind < 3 && f <= 7 && dim / Pow2(f) < 4294967296 && base < 4194304
    ensures Unpack(DividedWord(part, kind, dim, f, base)) == Load(part, kind, Max(1, dim / Pow2(f)), base)
      <==> dim < Pow2(f) || dim % Pow2(f) == 0
  {
    hide Unpack, Pow2;
    var q, rest, u := dim / Pow2(f), dim % Pow2(f), Pow2(7 - f);
    if dim < Pow2(f) {
      LoadRoundTrip(part, kind, 1, base);
      assert dim / Pow2(f) == 0;
    } else {
      DivPositive(dim, Pow2(f));
      DividedParts(part, kind, dim, f, base);
      LoadRoundTrip(part, kind, q, base);
      if rest != 0 {
        Spill(rest, u, Pow2(f));
        OnlyLoadWord(part, kind, q, base, rest * u);
      }
    }
  }

  lemma {:induction false} DividedParts(part: nat, kind: nat, dim: nat, f: nat, base: nat)
    requires f <= 7 && dim >= Pow2(f)
    ensures Pow2(f) * Pow2(7 - f) == 128
    ensures DividedWord(part, kind, dim, f, base) ==
      LoadWord(part, kind, dim / Pow2(f), base) + (dim % Pow2(f)) * Pow2(7 - f)
  {
    PowAdd(f, 7 - f);
    PowerValues();
    PowAdd(4, 3);
    hide Pow2;
    Regroup(dim, Pow2(f), Pow2(7 - f));
  }

  lemma {:induction false} Regroup(dim: nat, d: nat, u: nat)
    requires d >= 1 && d * u == 128
    ensures dim * u == (dim / d) * 128 + (dim % d) * u
  {
    var q, rest := dim / d, dim % d;
    assert dim == q * d + rest;
    assert (q * d + rest) * u == q * (d * u) + rest * u;
  }

  lemma {:induction false} Spill(rest: nat, u: nat, d: nat)
    requires rest < d && u >= 1 && d * u == 128 && rest > 0
    ensures 0 < rest * u < 128
  {
    assert (rest + 1) * u <= d * u;
  }

  /** A word that differs from a load's own word in the low bits does not unpack to that load. */
  lemma {:induction false} OnlyLoadWord(part: nat, kind: nat, dim: nat, base: nat, extra: nat)
    requires part < 16 && kind < 3 && dim < 4294967296 && base < 4194304 && 0 < extra < 128
    ensures Unpack(LoadWord(part, kind, dim, base) + extra) != Load(part, kind, dim, base)
  {
    var x := LoadWord(part, kind, dim, base) + extra;
    if Unpack(x) == Load(part, kind, dim, base) {
      UnpackedLoad(x);
    }
  }

  lemma {:induction false} LoadFields(x: nat)
    requires Unpack(x).Load?
    ensures var a := Shr(x, 1);
      var b := Shr(a, 4);
      var c := Shr(b, 2);
      x % 2 == 0 && Unpack(x) == Load(Take(a, 4), Take(b, 2), Take(c, 32), Take(Shr(c, 32), 22))
  {
    hide And, Shr, Pow2;
    assert Bit(x, 0) == x % 2;
  }

  /** A word that unpacks to a load is made of the load's fields and of bits above them. */
  lemma {:induction false} UnpackedLoad(x: nat)
    requires Unpack(x).Load?
    ensures var t := Unpack(x);
      x == LoadWord(t.part, t.kind, t.dim, t.base) + 2305843009213693952 * Shr(Shr(Shr(Shr(Shr(x, 1), 4), 2), 32), 22)
  {
    PowerValues();
    LoadFields(x);
    hide And, Shr, Bit, Pow2, Unpack;
    var a := Shr(x, 1);
    var b := Shr(a, 4);
    var c := Shr(b, 2);
    var d := Shr(c, 32);
    SplitAt(x, 1);
    SplitAt(a, 4);
    SplitAt(b, 2);
    SplitAt(c, 32);
    SplitAt(d, 22);
  }
}
