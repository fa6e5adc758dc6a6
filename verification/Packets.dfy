/** Crossbar packets and counting them over queues. */
module Packets {
  import opened Sequences

  /** A request or its response: the address doubles as the identity. */
  datatype Packet = Packet(id: int, link: int, quad: int, vault: int, flits: int, isWrite: bool, exit: int)

  /** What packets are counted by: an address, or an address with the link and kind of the response. */
  datatype Key = Address(id: int) | Ticket(id: int, link: int, isWrite: bool)

  predicate Match(p: Packet, k: Key) {
    match k
    case Address(id) => p.id == id
    case Ticket(id, link, isWrite) => p.id == id && p.link == link && p.isWrite == isWrite
  }

  function One(p: Packet, k: Key): nat { if Match(p, k) then 1 else 0 }

  function Matching(k: Key): Packet -> bool { (p: Packet) => Match(p, k) }

  function Number(q: seq<Packet>, k: Key): nat { Count(q, Matching(k)) }

  function Total(qs: seq<seq<Packet>>, k: Key): nat {
    if qs == [] then 0 else Number(qs[0], k) + Total(qs[1..], k)
  }

  lemma {:induction false} NumberPush(q: seq<Packet>, p: Packet)
    ensures forall k :: Number(q + [p], k) == Number(q, k) + One(p, k)
  {
    forall k ensures Number(q + [p], k) == Number(q, k) + One(p, k) {
      CountAppend(q, p, Matching(k));
    }
  }

  /** A counted key is found in the queue. */
  lemma {:induction false} NumberFound(q: seq<Packet>, k: Key)
    requires Number(q, k) > 0
    ensures exists i :: 0 <= i < |q| && Match(q[i], k)
  {
    CountZero(q, Matching(k));
  }

  lemma {:induction false} NumberRemove(q: seq<Packet>, i: int)
    requires 0 <= i < |q|
    ensures forall k :: Number(RemoveAt(q, i), k) == Number(q, k) - One(q[i], k)
  {
    forall k ensures Number(RemoveAt(q, i), k) == Number(q, k) - One(q[i], k) {
      CountRemove(q, i, Matching(k));
    }
  }

  lemma {:induction false} TotalUpdate(qs: seq<seq<Packet>>, i: int, q: seq<Packet>, k: Key)
    requires 0 <= i < |qs|
    ensures Total(qs[i := q], k) == Total(qs, k) - Number(qs[i], k) + Number(q, k)
    decreases |qs|
  {
    if i > 0 {
      TotalUpdate(qs[1..], i - 1, q, k);
      assert qs[i := q][1..] == qs[1..][i - 1 := q];
    } else {
      assert qs[0 := q][1..] == qs[1..];
    }
  }

  function Push(qs: seq<seq<Packet>>, i: int, p: Packet): (r: seq<seq<Packet>>)
    requires 0 <= i < |qs|
    ensures |r| == |qs|
  {
    qs[i := qs[i] + [p]]
  }

  function Pop(qs: seq<seq<Packet>>, i: int): (r: seq<seq<Packet>>)
    requires 0 <= i < |qs| && qs[i] != []
    ensures |r| == |qs|
  {
    qs[i := qs[i][1..]]
  }

  lemma {:induction false} TotalPush(qs: seq<seq<Packet>>, i: int, p: Packet)
    requires 0 <= i < |qs|
    ensures forall k :: Total(Push(qs, i, p), k) == Total(qs, k) + One(p, k)
  {
    NumberPush(qs[i], p);
    forall k ensures Total(Push(qs, i, p), k) == Total(qs, k) + One(p, k) {
      TotalUpdate(qs, i, qs[i] + [p], k);
    }
  }

  lemma {:induction false} TotalPop(qs: seq<seq<Packet>>, i: int)
    requires 0 <= i < |qs| && qs[i] != []
    ensures forall k :: Total(Pop(qs, i), k) == Total(qs, k) - One(qs[i][0], k)
  {
    forall k ensures Total(Pop(qs, i), k) == Total(qs, k) - One(qs[i][0], k) {
      TotalUpdate(qs, i, qs[i][1..], k);
      assert Number(qs[i], k) == One(qs[i][0], k) + Number(qs[i][1..], k);
    }
  }

  lemma {:induction false} TotalEmpty(qs: seq<seq<Packet>>, k: Key)
    requires forall i :: 0 <= i < |qs| ==> qs[i] == []
    ensures Total(qs, k) == 0
    decreases |qs|
  {
    if qs != [] {
      TotalEmpty(qs[1..], k);
    }
  }
}
