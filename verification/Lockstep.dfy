/** How the PIM scheduler gathers one command per channel and bank, and why channels that start alike
    stay alike. */
module Lockstep {
  import opened Commands

  /** A channel's answers to the requests of one vector, bank by bank. */
  type Row = seq<Option<CommandType>>

  /** A gathered command: its channel, its place among the requested banks, and its kind. */
  datatype Item = Item(channel: int, slot: int, kind: CommandType)

  /** The first n requests were all answered. */
  predicate CleanTo(row: Row, n: int)
    requires n <= |row|
  {
    forall k :: 0 <= k < n ==> row[k].Some?
  }

  predicate Clean(row: Row) { CleanTo(row, |row|) }

  function Items(j: int, row: Row, n: nat): seq<Item>
    requires n <= |row| && CleanTo(row, n)
  {
    seq(n, k requires 0 <= k < n => Item(j, k, row[k].value))
  }

  /** All commands of the clean channels a .. n. */
  ghost function Flat(rows: seq<Row>, a: int, n: int): seq<Item>
    requires 0 <= a <= n <= |rows| && forall j :: a <= j < n ==> Clean(rows[j])
    decreases n
  {
    if a == n then [] else assert Clean(rows[n - 1]); Flat(rows, a, n - 1) + Items(n - 1, rows[n - 1], |rows[n - 1]|)
  }

  ghost predicate Wide(rows: seq<Row>, width: nat) { forall j :: 0 <= j < |rows| ==> |rows[j]| == width }

  /** Every channel has answered every request, and always with the same kind of command. */
  ghost predicate Uniform(rows: seq<Row>) {
    forall j, k :: 0 <= j < |rows| && 0 <= k < |rows[j]| ==>
      rows[j][k].Some? && |rows[0]| > 0 && rows[j][k] == rows[0][0]
  }

  lemma {:induction false} FlatShape(rows: seq<Row>, a: int, n: int, width: nat)
    requires 0 <= a <= n <= |rows| && Wide(rows, width) && forall j :: a <= j < n ==> Clean(rows[j])
    ensures a < n && width > 0 ==> |Flat(rows, a, n)| > 0 && Flat(rows, a, n)[0].kind == rows[a][0].value
    ensures a == n || width == 0 ==> Flat(rows, a, n) == []
    decreases n
  {
    if a < n {
      FlatShape(rows, a, n - 1, width);
    }
  }

  /** The group that weight loading and output writing send. */
  ghost function Whole(rows: seq<Row>): seq<Item> {
    if Uniform(rows) && forall j :: 0 <= j < |rows| ==> Clean(rows[j]) then Flat(rows, 0, |rows|) else []
  }

  /** The gathering loop for weights and outputs: one missing or different answer drops the whole group. */
  method GatherAll(rows: seq<Row>, width: nat) returns (cmds: seq<Item>)
    requires Wide(rows, width) && width > 0
    ensures cmds == Whole(rows)
    ensures cmds != [] <==> rows != [] && Uniform(rows)
  {
    cmds := [];
    var j := 0;
    while j < |rows|
      invariant 0 <= j <= |rows| && Uniform(rows[..j]) && forall i :: 0 <= i < j ==> Clean(rows[i])
      invariant cmds == Flat(rows, 0, j)
    {
      FlatShape(rows, 0, j, width);
      var k := 0;
      while k < |rows[j]|
        invariant 0 <= k <= |rows[j]| && CleanTo(rows[j], k)
        invariant cmds == Flat(rows, 0, j) + Items(j, rows[j], k)
        invariant forall i :: 0 <= i < k ==> rows[j][i] == rows[0][0]
      {
        if rows[j][k].None? {
          assert !Uniform(rows);
          return [];
        }
        cmds := cmds + [Item(j, k, rows[j][k].value)];
        assert Items(j, rows[j], k + 1) == Items(j, rows[j], k) + [Item(j, k, rows[j][k].value)];
        assert cmds[0].kind == rows[0][0].value;
        if cmds[0].kind != rows[j][k].value {
          assert rows[j][k] != rows[0][0];
          return [];
        }
        k := k + 1;
      }
      j := j + 1;
    }
    FlatShape(rows, 0, |rows|, width);
    assert rows[..j] == rows;
  }

  /** The first channel after the last one with a missing answer. */
  ghost function Start(rows: seq<Row>, n: int): (a: int)
    requires 0 <= n <= |rows|
    ensures 0 <= a <= n && forall j :: a <= j < n ==> Clean(rows[j])
  {
    if n == 0 then 0 else if Clean(rows[n - 1]) then Start(rows, n - 1) else n
  }

  /** Some answer was seen that differed from the head of the group at that moment. */
  ghost predicate Mixes(rows: seq<Row>, j: int, k: int)
    requires 0 <= j < |rows| && 0 <= k < |rows[j]|
  {
    CleanTo(rows[j], k + 1) && |rows[Start(rows, j)]| > 0 && rows[j][k] != rows[Start(rows, j)][0]
  }

  ghost predicate Mixed(rows: seq<Row>) {
    exists j, k :: 0 <= j < |rows| && 0 <= k < |rows[j]| && Mixes(rows, j, k)
  }

  predicate IsStreamRead(kind: CommandType) { kind.GhRead? || kind.GhReadPrecharge? }

  function Unread(c: Item): seq<Item> { if IsStreamRead(c.kind) then [] else [c] }

  function DropReads(cmds: seq<Item>): seq<Item> {
    if cmds == [] then [] else Unread(cmds[0]) + DropReads(cmds[1..])
  }

  /** The group that streaming sends: the channels after the last gap, without reads if kinds differ. */
  ghost function Streamed(rows: seq<Row>): seq<Item> {
    var all := Flat(rows, Start(rows, |rows|), |rows|);
    if Mixed(rows) then DropReads(all) else all
  }

  /** The gathering loop for streaming: a missing answer drops what was gathered so far, but the next
      channels are still asked; a group of different kinds loses its reads. */
  method GatherStream(rows: seq<Row>, width: nat) returns (cmds: seq<Item>)
    requires Wide(rows, width) && width > 0
    ensures cmds == Streamed(rows)
  {
    cmds := [];
    var mixed := false;
    for j := 0 to |rows|
      invariant cmds == Flat(rows, Start(rows, j), j)
      invariant mixed <==> exists i, k :: 0 <= i < j && 0 <= k < |rows[i]| && Mixes(rows, i, k)
    {
      cmds, mixed := GatherChannel(rows, width, j, cmds, mixed);
    }
    if mixed {
      cmds := EraseReads(cmds);
    }
  }

  /** One channel's turn in the streaming loop. */
  method GatherChannel(rows: seq<Row>, width: nat, j: int, before: seq<Item>, mixedBefore: bool)
    returns (cmds: seq<Item>, mixed: bool)
    requires Wide(rows, width) && width > 0 && 0 <= j < |rows| && before == Flat(rows, Start(rows, j), j)
    ensures cmds == Flat(rows, Start(rows, j + 1), j + 1)
    ensures mixed <==> mixedBefore || exists k :: 0 <= k < |rows[j]| && Mixes(rows, j, k)
  {
    cmds, mixed := before, mixedBefore;
    var a := Start(rows, j);
    FlatShape(rows, a, j, width);
    for k := 0 to |rows[j]|
      invariant CleanTo(rows[j], k) && cmds == before + Items(j, rows[j], k)
      invariant mixed <==> mixedBefore || exists i :: 0 <= i < k && Mixes(rows, j, i)
    {
      if rows[j][k].None? {
        return [], mixed;
      }
      cmds := cmds + [Item(j, k, rows[j][k].value)];
      assert Items(j, rows[j], k + 1) == Items(j, rows[j], k) + [Item(j, k, rows[j][k].value)];
      assert cmds[0].kind == rows[a][0].value;
      if cmds[0].kind != rows[j][k].value {
        assert Mixes(rows, j, k);
        mixed := true;
      }
    }
  }

  method EraseReads(cmds: seq<Item>) returns (kept: seq<Item>)
    ensures kept == DropReads(cmds)
  {
    kept := cmds;
    var i := 0;
    ghost var done, todo := [], cmds;
    while i < |kept|
      invariant kept == done + todo && i == |done| && DropReads(cmds) == done + DropReads(todo)
      decreases |todo|
    {
      ghost var c, rest := todo[0], todo[1..];
      assert kept[i] == c && kept[..i] == done && kept[i + 1..] == rest;
      if IsStreamRead(kept[i].kind) {
        kept := kept[..i] + kept[i + 1..];
        assert Unread(c) + DropReads(rest) == DropReads(rest);
      } else {
        i := i + 1;
        assert done + ([c] + DropReads(rest)) == (done + [c]) + DropReads(rest);
        assert done + todo == (done + [c]) + rest;
        done := done + [c];
      }
      todo := rest;
    }
  }

  /** What one channel finds in its queue: places and kinds, in order. */
  datatype Order = Order(slot: int, kind: CommandType)

  /** The delivery loop, seen by channel j. */
  function Orders(cmds: seq<Item>, j: int): seq<Order> {
    if cmds == [] then [] else OrderFor(cmds[0], j) + Orders(cmds[1..], j)
  }

  function OrderFor(c: Item, j: int): seq<Order> { if c.channel == j then [Order(c.slot, c.kind)] else [] }

  function RowOrders(row: Row, n: nat): seq<Order>
    requires n <= |row| && CleanTo(row, n)
  {
    seq(n, k requires 0 <= k < n => Order(k, row[k].value))
  }

  function DropReadOrders(o: seq<Order>): seq<Order> {
    if o == [] then [] else (if IsStreamRead(o[0].kind) then [] else [o[0]]) + DropReadOrders(o[1..])
  }

  lemma {:induction false} OrdersConcat(p: seq<Item>, q: seq<Item>, j: int)
    ensures Orders(p + q, j) == Orders(p, j) + Orders(q, j)
    decreases |p|
  {
    if p == [] {
      assert p + q == q;
    } else {
      OrdersConcat(p[1..], q, j);
      assert (p + q)[1..] == p[1..] + q && (p + q)[0] == p[0];
      assert Orders(p + q, j) == OrderFor(p[0], j) + (Orders(p[1..], j) + Orders(q, j));
    }
  }

  lemma {:induction false} OrdersOfRow(i: int, row: Row, n: nat, j: int)
    requires n <= |row| && CleanTo(row, n)
    ensures Orders(Items(i, row, n), j) == if i == j then RowOrders(row, n) else []
    decreases n
  {
    if n > 0 {
      var c := Item(i, n - 1, row[n - 1].value);
      OrdersOfRow(i, row, n - 1, j);
      assert Items(i, row, n) == Items(i, row, n - 1) + [c];
      OrdersConcat(Items(i, row, n - 1), [c], j);
      assert Orders([c], j) == OrderFor(c, j) + [];
      if i == j {
        assert RowOrders(row, n) == RowOrders(row, n - 1) + [Order(n - 1, row[n - 1].value)];
      }
    }
  }

  /** Each channel of a flat group gets exactly its own row. */
  lemma {:induction false} OrdersOfFlat(rows: seq<Row>, a: int, n: int, j: int)
    requires 0 <= a <= n <= |rows| && (forall i :: a <= i < n ==> Clean(rows[i])) && 0 <= j < |rows|
    ensures Orders(Flat(rows, a, n), j) == if a <= j < n then RowOrders(rows[j], |rows[j]|) else []
    decreases n
  {
    if a < n {
      OrdersOfFlat(rows, a, n - 1, j);
      assert Flat(rows, a, n) == Flat(rows, a, n - 1) + Items(n - 1, rows[n - 1], |rows[n - 1]|);
      OrdersExtend(Flat(rows, a, n - 1), n - 1, rows[n - 1], |rows[n - 1]|, j);
    }
  }

  lemma {:induction false} OrdersExtend(f: seq<Item>, i: int, row: Row, n: nat, j: int)
    requires n <= |row| && CleanTo(row, n) && (i == j ==> Orders(f, j) == [])
    ensures Orders(f + Items(i, row, n), j) == if i == j then RowOrders(row, n) else Orders(f, j)
  {
    OrdersConcat(f, Items(i, row, n), j);
    OrdersOfRow(i, row, n, j);
    hide *;
    if i == j {
      assert [] + RowOrders(row, n) == RowOrders(row, n);
    } else {
      assert Orders(f, j) + [] == Orders(f, j);
    }
  }

  lemma {:induction false} DropCommutes(cmds: seq<Item>, j: int)
    ensures Orders(DropReads(cmds), j) == DropReadOrders(Orders(cmds, j))
    decreases |cmds|
  {
    if cmds != [] {
      DropCommutes(cmds[1..], j);
      var c, rest := cmds[0], Orders(cmds[1..], j);
      OrdersConcat(Unread(c), DropReads(cmds[1..]), j);
      assert Orders(DropReads(cmds), j) == Orders(Unread(c), j) + DropReadOrders(rest);
      assert Orders([c], j) == OrderFor(c, j) + [];
      if c.channel == j {
        assert ([Order(c.slot, c.kind)] + rest)[1..] == rest;
      } else {
        assert OrderFor(c, j) + rest == rest;
      }
    }
  }

  ghost predicate Served(rows: seq<Row>, j: int) { Orders(Streamed(rows), j) != [] }

  /** The channel has something to send once the reads are gone. */
  ghost predicate HasOther(row: Row) { exists k :: 0 <= k < |row| && row[k].Some? && !IsStreamRead(row[k].value) }

  /** Streaming serves the channels after the last gap; of a mixed group only those with more than reads. */
  lemma {:induction false} ServedExactly(rows: seq<Row>, width: nat, j: int)
    requires Wide(rows, width) && width > 0 && 0 <= j < |rows|
    ensures Served(rows, j) <==> Start(rows, |rows|) <= j && (Mixed(rows) ==> HasOther(rows[j]))
  {
    var n := |rows|;
    var a := Start(rows, n);
    OrdersOfFlat(rows, a, n, j);
    if Mixed(rows) {
      DropCommutes(Flat(rows, a, n), j);
      if a <= j {
        var o := RowOrders(rows[j], |rows[j]|);
        NothingLeft(o);
        assert Clean(rows[j]) && forall k :: 0 <= k < |rows[j]| ==> o[k].kind == rows[j][k].value;
        if HasOther(rows[j]) {
          var k :| 0 <= k < |rows[j]| && rows[j][k].Some? && !IsStreamRead(rows[j][k].value);
          assert !IsStreamRead(o[k].kind);
        }
      }
    }
  }

  lemma {:induction false} NothingLeft(o: seq<Order>)
    ensures DropReadOrders(o) == [] <==> forall k :: 0 <= k < |o| ==> IsStreamRead(o[k].kind)
    decreases |o|
  {
    if o != [] {
      NothingLeft(o[1..]);
      assert forall k :: 1 <= k < |o| ==> o[k] == o[1..][k - 1];
    }
  }

  /** Streaming serves all channels or none exactly when the channels after the last gap are all of them
      or none of them, or are mixed with nothing but reads left to drop. */
  lemma {:induction false} StreamedTogether(rows: seq<Row>, width: nat)
    requires Wide(rows, width) && width > 0 && rows != []
    ensures (forall i, j :: 0 <= i < |rows| && 0 <= j < |rows| ==> (Served(rows, i) <==> Served(rows, j)))
      <==> if Mixed(rows)
           then (forall j :: 0 <= j < |rows| ==> Start(rows, |rows|) <= j && HasOther(rows[j]))
                || (forall j :: Start(rows, |rows|) <= j < |rows| ==> !HasOther(rows[j]))
           else (forall j :: 0 <= j < |rows| ==> Clean(rows[j])) || !Clean(rows[|rows| - 1])
  {
    var n := |rows|;
    var a := Start(rows, n);
    forall j | 0 <= j < n
      ensures Served(rows, j) <==> a <= j && (Mixed(rows) ==> HasOther(rows[j]))
    {
      ServedExactly(rows, width, j);
    }
    StartAtGap(rows, n);
    if !Mixed(rows) && 0 < a < n {
      assert !Served(rows, 0) && Served(rows, n - 1);
      assert !Clean(rows[a - 1]) && Clean(rows[n - 1]);
    }
    if Mixed(rows) && forall i, j :: 0 <= i < n && 0 <= j < n ==> (Served(rows, i) <==> Served(rows, j)) {
      if Served(rows, 0) {
        assert forall j :: 0 <= j < n ==> Served(rows, j);
      } else {
        assert forall j :: 0 <= j < n ==> !Served(rows, j);
      }
    }
  }

  lemma {:induction false} StartAtGap(rows: seq<Row>, n: int)
    requires 0 <= n <= |rows|
    ensures Start(rows, n) == 0 || !Clean(rows[Start(rows, n) - 1])
    decreases n
  {
    if n > 0 && Clean(rows[n - 1]) {
      StartAtGap(rows, n - 1);
    }
  }

  /** Two channels of which only the second answers: the second is served alone. */
  lemma {:induction false} PartialStream()
    ensures Streamed([[None], [Some(GhRead)]]) == [Item(1, 0, GhRead)]
  {
    var rows: seq<Row> := [[None], [Some(GhRead)]];
    assert rows[0][0].None? && rows[1][0].Some?;
    assert !Clean(rows[0]) && Clean(rows[1]);
    assert Start(rows, 1) == 1 && Start(rows, 2) == 1;
    assert Flat(rows, 1, 1) == [];
    assert !Mixes(rows, 0, 0) && !Mixes(rows, 1, 0);
  }

  /** The group that goes out: dropped as a whole, or gathered by one of the two loops. */
  ghost function Group(rows: seq<Row>, streaming: bool, keep: bool): seq<Item> {
    if !keep then [] else if streaming then Streamed(rows) else Whole(rows)
  }

  /** Channels that all answer alike are sent the same commands. */
  lemma {:induction false} SameOrders(rows: seq<Row>, streaming: bool, keep: bool, i: int, j: int)
    requires 0 <= i < |rows| && 0 <= j < |rows| && forall x :: 0 <= x < |rows| ==> rows[x] == rows[i]
    ensures Orders(Group(rows, streaming, keep), i) == Orders(Group(rows, streaming, keep), j)
  {
    var n := |rows|;
    StartAtGap(rows, n);
    var a := Start(rows, n);
    assert a == 0 || a == n;
    OrdersOfFlat(rows, a, n, i);
    OrdersOfFlat(rows, a, n, j);
    DropCommutes(Flat(rows, a, n), i);
    DropCommutes(Flat(rows, a, n), j);
    if forall x :: 0 <= x < n ==> Clean(rows[x]) {
      OrdersOfFlat(rows, 0, n, i);
      OrdersOfFlat(rows, 0, n, j);
    }
  }
}
