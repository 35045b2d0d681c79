/** The packet queue behind each stream: a linked list with a cached byte count, refining a sequence. */
module RtpQueue {
  import opened Rtp

  /** A queued packet and the time, in seconds, at which it was enqueued. */
  datatype Item = Item(packet: Packet, ts: real)

  function Packets(items: seq<Item>): (ps: seq<Packet>)
    ensures |ps| == |items|
    ensures forall i | 0 <= i < |ps| :: ps[i] == items[i].packet
  {
    seq(|items|, i requires 0 <= i < |items| => items[i].packet)
  }

  class Node {
    const item: Item
    var next: Node?

    constructor (item: Item)
      ensures this.item == item && next == null
    {
      this.item := item;
      next := null;
    }
  }

  /** The items of a chain of nodes. */
  ghost function ItemsOf(nodes: seq<Node>): (items: seq<Item>)
    ensures |items| == |nodes|
    ensures forall i | 0 <= i < |nodes| :: items[i] == nodes[i].item
  {
    seq(|nodes|, i requires 0 <= i < |nodes| => nodes[i].item)
  }

  /** A list of nodes linked from front to back. */
  class List {
    var front: Node?
    var back: Node?
    var len: nat
    ghost var spine: seq<Node>

    ghost predicate Valid()
      reads this, spine
    {
      && len == |spine|
      && (forall i, j | 0 <= i < j < len :: spine[i] != spine[j])
      && (forall i | 0 <= i < len - 1 :: spine[i].next == spine[i + 1])
      && (if len == 0 then front == null && back == null
          else front == spine[0] && back == spine[len - 1] && back.next == null)
    }

    ghost function Items(): seq<Item>
      reads this
    {
      ItemsOf(spine)
    }

    constructor ()
      ensures Valid() && Items() == [] && spine == []
    {
      front, back, len, spine := null, null, 0, [];
    }

    method PushBack(item: Item)
      requires Valid()
      modifies this, spine
      ensures Valid() && Items() == old(Items()) + [item]
      ensures forall n | n in spine :: n in old(spine) || fresh(n)
    {
      var node := new Node(item);
      if back == null {
        front := node;
      } else {
        back.next := node;
      }
      back := node;
      len := len + 1;
      spine := spine + [node];
    }

    method RemoveFront() returns (item: Item)
      requires Valid() && len > 0
      modifies this
      ensures Valid() && [item] + Items() == old(Items())
      ensures spine == old(spine)[1..]
    {
      item := front.item;
      if front == back {
        back := null;
      }
      front := front.next;
      len := len - 1;
      spine := spine[1..];
    }
  }

  function Delay(items: seq<Item>, ts: real): real {
    if items == [] then 0.0 else ts - items[0].ts
  }

  class Queue {
    var bytesInQueue: int
    var list: List

    ghost function Contents(): seq<Item>
      reads this, list
    {
      list.Items()
    }

    ghost predicate Valid()
      reads this, list, list.spine
    {
      list.Valid() && bytesInQueue == Bytes(Packets(Contents()))
    }

    /** The objects the queue is made of. */
    ghost function Repr(): set<object>
      reads this, list
    {
      {this, list} + set n: object | n in list.spine
    }

    constructor ()
      ensures Valid() && Contents() == [] && fresh(Repr())
    {
      bytesInQueue := 0;
      list := new List();
    }

    method SizeOfNextRTP() returns (r: int)
      requires Valid()
      ensures r == if Contents() == [] then -1 else Contents()[0].packet.size
    {
      if list.len <= 0 {
        return -1;
      }
      r := list.front.item.packet.size;
    }

    method SeqNrOfNextRTP() returns (r: uint16)
      requires Valid()
      ensures r == if Contents() == [] then 0 else Contents()[0].packet.seqNr
    {
      if list.len <= 0 {
        return 0;
      }
      r := list.front.item.packet.seqNr;
    }

    method SeqNrOfLastRTP() returns (r: uint16)
      requires Valid()
      ensures r == if Contents() == [] then 0 else Contents()[|Contents()| - 1].packet.seqNr
    {
      if list.len <= 0 {
        return 0;
      }
      r := list.back.item.packet.seqNr;
    }

    method BytesInQueue() returns (r: int)
      requires Valid()
      ensures r == Bytes(Packets(Contents()))
    {
      r := bytesInQueue;
    }

    method SizeOfQueue() returns (r: int)
      requires Valid()
      ensures r == |Contents()|
    {
      r := list.len;
    }

    method GetDelay(ts: real) returns (d: real)
      requires Valid()
      ensures d == Delay(Contents(), ts)
      ensures d == if Contents() == [] then 0.0 else ts - Contents()[0].ts
    {
      if list.len <= 0 {
        return 0.0;
      }
      d := ts - list.front.item.ts;
    }

    method GetSizeOfLastFrame() returns (r: int)
      requires Valid()
      ensures r == if Contents() == [] then 0 else Contents()[|Contents()| - 1].packet.size
    {
      if list.len <= 0 {
        return 0;
      }
      r := list.back.item.packet.size;
    }

    method Clear() returns (len: int)
      requires Valid()
      modifies Repr()
      ensures Valid() && fresh(Repr() - old(Repr()))
      ensures Contents() == [] && len == old(|Contents()|)
    {
      len := list.len;
      bytesInQueue := 0;
      list := new List();
    }

    method Enqueue(packet: Packet, ts: real)
      requires Valid()
      modifies Repr()
      ensures Valid() && fresh(Repr() - old(Repr()))
      ensures Contents() == old(Contents()) + [Item(packet, ts)]
    {
      ghost var before := Contents();
      bytesInQueue := bytesInQueue + packet.size;
      list.PushBack(Item(packet, ts));
      BytesConcat(Packets(before), [packet]);
      assert Packets(before + [Item(packet, ts)]) == Packets(before) + [packet];
    }

    method Dequeue() returns (packet: Option<Packet>)
      requires Valid()
      modifies Repr()
      ensures Valid() && fresh(Repr() - old(Repr()))
      ensures packet == if old(Contents()) == [] then None else Some(old(Contents())[0].packet)
      ensures Contents() == if old(Contents()) == [] then [] else old(Contents())[1..]
    {
      if list.len <= 0 {
        return None;
      }
      ghost var before := Contents();
      var item := list.RemoveFront();
      packet := Some(item.packet);
      bytesInQueue := bytesInQueue - item.packet.size;
      assert Contents() == before[1..];
      assert Packets(before)[1..] == Packets(before[1..]);
    }
  }

  // ----- Histories -----

  datatype Op = Enqueue(packet: Packet, ts: real) | Dequeue | Clear

  function Step(items: seq<Item>, op: Op): seq<Item> {
    match op
    case Enqueue(packet, ts) => items + [Item(packet, ts)]
    case Dequeue => if items == [] then [] else items[1..]
    case Clear => []
  }

  /** What a history of operations leaves in the queue. */
  function Remaining(ops: seq<Op>): seq<Item> {
    if ops == [] then [] else Step(Remaining(ops[..|ops| - 1]), ops[|ops| - 1])
  }

  /** What left the queue, by Dequeue or by Clear, in the order in which it left. */
  function Gone(ops: seq<Op>): seq<Item> {
    if ops == [] then []
    else
      var items := Remaining(ops[..|ops| - 1]);
      Gone(ops[..|ops| - 1]) +
      match ops[|ops| - 1]
      case Enqueue(_, _) => []
      case Dequeue => if items == [] then [] else items[..1]
      case Clear => items
  }

  function Enqueued(ops: seq<Op>): seq<Item> {
    if ops == [] then []
    else
      Enqueued(ops[..|ops| - 1]) +
      match ops[|ops| - 1]
      case Enqueue(packet, ts) => [Item(packet, ts)]
      case _ => []
  }

  /** First in, first out: items leave in the order they were enqueued, and the rest is still queued. */
  lemma {:induction false} FirstInFirstOut(ops: seq<Op>)
    ensures Gone(ops) + Remaining(ops) == Enqueued(ops)
  {
    if ops == [] {
    } else {
      var before := ops[..|ops| - 1];
      FirstInFirstOut(before);
      var items := Remaining(before);
      if ops[|ops| - 1].Dequeue? && items != [] {
        assert items == items[..1] + items[1..];
      }
    }
  }

  method Perform(q: Queue, op: Op)
    requires q.Valid()
    modifies q.Repr()
    ensures q.Valid() && fresh(q.Repr() - old(q.Repr()))
    ensures q.Contents() == Step(old(q.Contents()), op)
  {
    match op
    case Enqueue(packet, ts) => q.Enqueue(packet, ts);
    case Dequeue => var _ := q.Dequeue();
    case Clear => var _ := q.Clear();
  }

  /** The heap queue, driven by any history, holds exactly what the history leaves. */
  method Replay(ops: seq<Op>) returns (q: Queue)
    ensures fresh(q) && q.Valid()
    ensures q.Contents() == Remaining(ops)
    ensures q.bytesInQueue == Bytes(Packets(Remaining(ops)))
  {
    q := new Queue();
    for i := 0 to |ops|
      invariant fresh(q.Repr()) && q.Valid()
      invariant q.Contents() == Remaining(ops[..i])
    {
      assert ops[..i + 1][..i] == ops[..i];
      Perform(q, ops[i]);
    }
    assert ops[..|ops|] == ops;
  }

  // ----- Delay -----

  predicate TimesOrdered(items: seq<Item>) {
    forall i, j | 0 <= i < j < |items| :: items[i].ts <= items[j].ts
  }

  /** When packets were enqueued at nondecreasing times, the delay reported is that of the packet that has
      waited longest, and it is not negative from the last enqueue on. */
  lemma DelayIsLongestWait(ops: seq<Op>, ts: real)
    requires TimesOrdered(Enqueued(ops)) && Remaining(ops) != []
    ensures Enqueued(ops) != []
    ensures forall item | item in Remaining(ops) :: ts - item.ts <= Delay(Remaining(ops), ts)
    ensures exists item | item in Remaining(ops) :: ts - item.ts == Delay(Remaining(ops), ts)
    ensures Enqueued(ops)[|Enqueued(ops)| - 1].ts <= ts ==> Delay(Remaining(ops), ts) >= 0.0
  {
    FirstInFirstOut(ops);
    var n := |Gone(ops)|;
    assert Remaining(ops) == Enqueued(ops)[n..];
    assert Remaining(ops)[0] in Remaining(ops);
  }
}
