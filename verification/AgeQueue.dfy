/** The order in which the crossbar serves what waits, and its busy indicators. */
module AgeQueues {
  import opened Arithmetic

  /** Position of x when walking the ring from start. */
  function Dist(start: int, x: int, n: int): int { if x >= start then x - start else x - start + n }

  ghost predicate NoDuplicates(q: seq<int>) { forall i, j :: 0 <= i < j < |q| ==> q[i] != q[j] }

  /** The code compares the age of the newcomer with the indices in the queue, and puts it in front of
      the first smaller one. */
  function Inserted(q: seq<int>, age: int, x: int): seq<int> {
    if q == [] then [x] else if age <= q[0] then [q[0]] + Inserted(q[1..], age, x) else [x] + q
  }

  /** The order of service after i steps round the ring. */
  function Served(age: seq<int>, start: int, i: nat): seq<int>
    requires |age| > 0
  {
    if i == 0 then []
    else
      var before, x := Served(age, start, i - 1), (i - 1 + start) % |age|;
      if age[x] > 0 then Inserted(before, age[x], x) else before
  }

  lemma {:induction false} InsertedAt(q: seq<int>, age: int, x: int, j: int)
    requires 0 <= j <= |q| && (forall i :: 0 <= i < j ==> age <= q[i]) && (j < |q| ==> age > q[j])
    ensures Inserted(q, age, x) == q[..j] + [x] + q[j..]
    decreases |q|
  {
    if j > 0 {
      InsertedAt(q[1..], age, x, j - 1);
      assert q[..j] == [q[0]] + q[1..][..j - 1];
    }
  }

  /** Only i and j wait, and the walk round the ring comes to i first. */
  ghost predicate TwoWait(age: seq<int>, start: int, i: int, j: int) {
    && 0 <= start < |age| && 0 <= i < |age| && 0 <= j < |age| && age[i] > 0 && age[j] > 0
    && Dist(start, i, |age|) < Dist(start, j, |age|)
    && forall x :: 0 <= x < |age| && x != i && x != j ==> age[x] <= 0
  }

  /** Of two that wait, the one the walk comes to last is served first exactly when its age exceeds the
      index of the other. */
  lemma {:induction false} TwoServed(age: seq<int>, start: int, i: int, j: int)
    requires TwoWait(age, start, i, j)
    ensures Served(age, start, |age|) == if age[j] > i then [j, i] else [i, j]
  {
    TwoUpto(age, start, i, j, |age|);
  }

  lemma {:induction false} TwoUpto(age: seq<int>, start: int, i: int, j: int, k: nat)
    requires TwoWait(age, start, i, j) && k <= |age|
    ensures Served(age, start, k) ==
      if Dist(start, i, |age|) >= k then [] else if Dist(start, j, |age|) >= k then [i] else if age[j] > i then [j, i]
        else [i, j]
    decreases k
  {
    hide Served, Inserted, Dist;
    if k > 0 {
      TwoUpto(age, start, i, j, k - 1);
      var x := NextServed(age, start, k);
      InsertTwo(i, j, age[j], age[i]);
    } else {
      assert Served(age, start, 0) == [] by { NoneServed(age, start); }
      DistRange(start, i, j, |age|);
    }
  }

  lemma {:induction false} NoneServed(age: seq<int>, start: int)
    requires |age| > 0
    ensures Served(age, start, 0) == []
  {
  }

  lemma {:induction false} DistRange(start: int, i: int, j: int, n: int)
    requires 0 <= start < n && 0 <= i < n && 0 <= j < n
    ensures Dist(start, i, n) >= 0 && Dist(start, j, n) >= 0
  {
  }

  lemma {:induction false} InsertTwo(i: int, j: int, a: int, b: int)
    ensures Inserted([i], a, j) == (if a > i then [j, i] else [i, j]) && Inserted([], b, i) == [i]
  {
    assert [i][1..] == [];
  }

  /** The index that step k comes to, and what that adds. */
  lemma {:induction false} NextServed(age: seq<int>, start: int, k: nat) returns (x: int)
    requires 0 <= start < |age| && 0 < k <= |age|
    ensures 0 <= x < |age| && Dist(start, x, |age|) == k - 1
    ensures forall y :: 0 <= y < |age| ==> (Dist(start, y, |age|) < k <==> Dist(start, y, |age|) < k - 1 || y == x)
    ensures Served(age, start, k) ==
      if age[x] > 0 then Inserted(Served(age, start, k - 1), age[x], x) else Served(age, start, k - 1)
  {
    StepOn(start, k - 1, |age|);
    x := (k - 1 + start) % |age|;
  }

  /** Older ones come first. */
  ghost predicate ByAge(age: seq<int>, q: seq<int>) {
    forall a, b :: 0 <= a < b < |q| && 0 <= q[a] < |age| && 0 <= q[b] < |age| ==> age[q[a]] >= age[q[b]]
  }

  /** So two are served by age exactly when the later one's lead over the earlier one's index agrees with
      its lead in age. */
  lemma {:induction false} ByAgeExactly(age: seq<int>, start: int, i: int, j: int)
    requires TwoWait(age, start, i, j)
    ensures ByAge(age, Served(age, start, |age|)) <==> if age[j] > i then age[j] >= age[i] else age[i] >= age[j]
  {
    hide Served;
    TwoServed(age, start, i, j);
    var q := Served(age, start, |age|);
    assert q[0] == (if age[j] > i then j else i) && q[1] == (if age[j] > i then i else j);
  }

  /** Everything that waits is served, and served once. */
  lemma {:induction false} ServedOnce(age: seq<int>, start: int, k: nat)
    requires 0 <= start < |age| && k <= |age|
    ensures NoDuplicates(Served(age, start, k))
    ensures forall x :: x in Served(age, start, k) <==> 0 <= x < |age| && Dist(start, x, |age|) < k && age[x] > 0
    decreases k
  {
    hide Inserted, NoDuplicates;
    if k == 0 {
      NoneTwice();
      forall x | 0 <= x < |age| ensures Dist(start, x, |age|) >= 0 {
      }
    } else {
      ServedOnce(age, start, k - 1);
      var x := NextServed(age, start, k);
      if age[x] > 0 {
        InsertOnce(Served(age, start, k - 1), age[x], x);
      }
    }
  }

  /** The indices with a positive age, each exactly once, in the order of service. */
  method BuildAgeQueue(age: seq<int>, logicClk: int) returns (queue: seq<int>)
    requires |age| > 0 && logicClk >= 0
    ensures NoDuplicates(queue) && queue == Served(age, logicClk % |age|, |age|)
    ensures forall x :: x in queue <==> 0 <= x < |age| && age[x] > 0
  {
    hide Inserted, NoDuplicates;
    var n := |age|;
    var start := logicClk % n;
    queue := [];
    NoneTwice();
    for i := 0 to n
      invariant NoDuplicates(queue) && queue == Served(age, start, i)
      invariant forall x :: x in queue <==> 0 <= x < n && Dist(start, x, n) < i && age[x] > 0
    {
      var pos := (i + start) % n;
      StepOn(start, i, n);
      if age[pos] > 0 {
        InsertOnce(queue, age[pos], pos);
        queue := Insert(queue, age[pos], pos);
      }
    }
  }

  lemma {:induction false} NoneTwice()
    ensures NoDuplicates([])
  {
  }

  method Insert(queue: seq<int>, age: int, x: int) returns (r: seq<int>)
    ensures r == Inserted(queue, age, x)
  {
    var j := 0;
    while j < |queue| && age <= queue[j]
      invariant 0 <= j <= |queue| && forall k :: 0 <= k < j ==> age <= queue[k]
    {
      j := j + 1;
    }
    InsertedAt(queue, age, x, j);
    r := queue[..j] + [x] + queue[j..];
  }

  lemma {:induction false} StepOn(start: int, i: int, n: int)
    requires 0 <= start < n && 0 <= i < n
    ensures 0 <= (i + start) % n < n && Dist(start, (i + start) % n, n) == i
    ensures forall x :: 0 <= x < n ==> (Dist(start, x, n) < i + 1 <==> Dist(start, x, n) < i || x == (i + start) % n)
  {
    DivUnique(i + start, n, if i + start < n then 0 else 1);
  }

  lemma {:induction false} InsertOnce(q: seq<int>, age: int, x: int)
    requires NoDuplicates(q) && x !in q
    ensures NoDuplicates(Inserted(q, age, x))
    ensures forall y :: y in Inserted(q, age, x) <==> y in q || y == x
    decreases |q|
  {
    if q != [] && age <= q[0] {
      var r := Inserted(q[1..], age, x);
      assert q[0] !in q[1..];
      InsertOnce(q[1..], age, x);
      assert forall i :: 0 <= i < |r| ==> r[i] in r;
      assert forall y :: y in q <==> y == q[0] || y in q[1..];
    } else {
      assert forall i :: 0 <= i < |q| ==> q[i] in q;
    }
  }

  /** The indicators after a logic cycle. */
  function Eased(busy: seq<int>): (b: seq<int>)
    ensures |b| == |busy|
  {
    seq(|busy|, i requires 0 <= i < |busy| => if busy[i] > 0 then busy[i] - 2 else busy[i])
  }

  /** Each busy indicator that is still positive loses the two flits of a logic cycle. */
  method DrainBusy(busy: seq<int>) returns (b: seq<int>)
    ensures b == Eased(busy)
    ensures |b| == |busy| && forall i :: 0 <= i < |busy| ==> b[i] == if busy[i] > 0 then busy[i] - 2 else busy[i]
  {
    b := busy;
    for i := 0 to |busy|
      invariant |b| == |busy|
      invariant forall j :: 0 <= j < |busy| ==> b[j] == if j < i && busy[j] > 0 then busy[j] - 2 else busy[j]
    {
      if b[i] > 0 {
        b := b[i := b[i] - 2];
      }
    }
  }
}
