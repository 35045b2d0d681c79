/** RTP packets and the two machine-word types the sender uses. */
module Rtp {

  datatype Option<+T> = None | Some(value: T)

  type uint16 = x: nat | x < 0x1_0000
  type Ssrc = x: nat | x < 0x1_0000_0000

  /** An immutable packet. `size` stands for MarshalSize(), which is not computed here. `id` is the
      identity of the packet object: its position among the packets enqueued on its stream. */
  datatype Packet = Packet(id: nat, seqNr: uint16, size: nat, marker: bool)

  function Bytes(ps: seq<Packet>): nat {
    if ps == [] then 0 else ps[0].size + Bytes(ps[1..])
  }

  lemma {:induction false} BytesConcat(a: seq<Packet>, b: seq<Packet>)
    ensures Bytes(a + b) == Bytes(a) + Bytes(b)
  {
    if a == [] {
      assert a + b == b;
    } else {
      assert (a + b)[1..] == a[1..] + b;
      BytesConcat(a[1..], b);
    }
  }
}
