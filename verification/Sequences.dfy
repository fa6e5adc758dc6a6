/** Counting in, and removing from, queues. */
module Sequences {

  function RemoveAt<T>(q: seq<T>, i: int): seq<T>
    requires 0 <= i < |q|
  {
    q[..i] + q[i + 1..]
  }

  /** How many elements satisfy f. */
  function Count<T>(q: seq<T>, f: T -> bool): nat {
    if q == [] then 0 else (if f(q[0]) then 1 else 0) + Count(q[1..], f)
  }

  lemma {:induction false} CountConcat<T>(p: seq<T>, q: seq<T>, f: T -> bool)
    ensures Count(p + q, f) == Count(p, f) + Count(q, f)
    decreases |p|
  {
    if p == [] {
      assert p + q == q;
    } else {
      CountConcat(p[1..], q, f);
      assert (p + q)[1..] == p[1..] + q;
    }
  }

  lemma {:induction false} CountAppend<T>(p: seq<T>, x: T, f: T -> bool)
    ensures Count(p + [x], f) == Count(p, f) + if f(x) then 1 else 0
  {
    CountConcat(p, [x], f);
  }

  lemma {:induction false} CountRemove<T>(q: seq<T>, i: int, f: T -> bool)
    requires 0 <= i < |q|
    ensures Count(q, f) == Count(RemoveAt(q, i), f) + if f(q[i]) then 1 else 0
  {
    assert q == q[..i] + ([q[i]] + q[i + 1..]);
    CountConcat(q[..i], [q[i]] + q[i + 1..], f);
    CountConcat([q[i]], q[i + 1..], f);
    CountConcat(q[..i], q[i + 1..], f);
  }

  lemma {:induction false} CountWitness<T>(q: seq<T>, i: int, f: T -> bool)
    requires 0 <= i < |q| && f(q[i])
    ensures Count(q, f) >= 1
  {
    CountRemove(q, i, f);
  }

  lemma {:induction false} CountZero<T>(q: seq<T>, f: T -> bool)
    ensures Count(q, f) == 0 <==> forall i :: 0 <= i < |q| ==> !f(q[i])
    decreases |q|
  {
    if q != [] {
      CountZero(q[1..], f);
      assert forall i :: 0 < i < |q| ==> q[i] == q[1..][i - 1];
    }
  }
}
