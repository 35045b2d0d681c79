/**
 The congestion-control feedback packet of section 3.1 of RFC 8888, and the walker that extracts the SSRCs
 it reports on.
 */
module FeedbackPacket {
  import opened Rtp

  type byte = x: nat | x < 0x100

  // ----- Encoding -----

  /** A report block: the metric blocks of one SSRC, starting at a sequence number. */
  datatype Block = Block(ssrc: Ssrc, beginSeq: uint16, metrics: seq<uint16>)

  function Read16(b: seq<byte>, i: nat): uint16
    requires i + 2 <= |b|
  {
    b[i] as int * 0x100 + b[i + 1]
  }

  function U16(x: uint16): (b: seq<byte>)
    ensures |b| == 2 && Read16(b, 0) == x
  {
    [x / 0x100, x % 0x100]
  }

  function Read32(b: seq<byte>, i: nat): Ssrc
    requires i + 4 <= |b|
  {
    Read16(b, i) as int * 0x1_0000 + Read16(b, i + 2)
  }

  function U32(x: Ssrc): (b: seq<byte>)
    ensures |b| == 4 && Read32(b, 0) == x
  {
    U16(x / 0x1_0000) + U16(x % 0x1_0000)
  }

  lemma TopFirst(a: uint16, b: uint16, c: uint16, d: uint16)
    ensures a as int * 0x1_0000 + b < c as int * 0x1_0000 + d <==> a < c || (a == c && b < d)
  {
  }

  /** The order of four bytes read from the first on. */
  predicate Below(a: seq<byte>, b: seq<byte>)
    requires |a| == |b| == 4
  {
    || a[0] < b[0]
    || (a[0] == b[0] && a[1] < b[1])
    || (a[0] == b[0] && a[1] == b[1] && a[2] < b[2])
    || (a[0] == b[0] && a[1] == b[1] && a[2] == b[2] && a[3] < b[3])
  }

  /** Fields are read most significant byte first: their order is that of their bytes. */
  lemma BigEndian(a: seq<byte>, b: seq<byte>)
    requires |a| == |b| == 4
    ensures Read32(a, 0) < Read32(b, 0) <==> Below(a, b)
    ensures a[0] == a[1] == b[0] == b[1] == 0 ==> (Read16(a, 2) < Read16(b, 2) <==> Below(a, b))
  {
    TopFirst(Read16(a, 0), Read16(a, 2), Read16(b, 0), Read16(b, 2));
    if a[0] == a[1] == b[0] == b[1] == 0 {
      assert Read16(a, 0) == Read16(b, 0) == 0;
    }
  }

  function EncodeMetrics(ms: seq<uint16>): (b: seq<byte>)
    ensures |b| == 2 * |ms|
  {
    if ms == [] then [] else U16(ms[0]) + EncodeMetrics(ms[1..])
  }

  /** The num_reports field has 16 bits. */
  predicate Encodable(block: Block) {
    |block.metrics| <= 0xFFFF
  }

  predicate AllEncodable(blocks: seq<Block>) {
    forall i | 0 <= i < |blocks| :: Encodable(blocks[i])
  }

  /** The length of an encoded block in 32-bit words. */
  function Words(block: Block): nat {
    2 + (|block.metrics| + 1) / 2
  }

  function TotalWords(blocks: seq<Block>): nat {
    if blocks == [] then 0 else Words(blocks[0]) + TotalWords(blocks[1..])
  }

  /** SSRC, begin_seq, num_reports, the metric blocks, and 16 zero bits if their number is odd. */
  function EncodeBlock(block: Block): (b: seq<byte>)
    requires Encodable(block)
    ensures |b| == 4 * Words(block)
  {
    U32(block.ssrc) + U16(block.beginSeq) + U16(|block.metrics|) + EncodeMetrics(block.metrics)
    + if |block.metrics| % 2 == 0 then [] else U16(0)
  }

  function EncodeBlocks(blocks: seq<Block>): (b: seq<byte>)
    requires AllEncodable(blocks)
    ensures |b| == 4 * TotalWords(blocks)
  {
    if blocks == [] then [] else EncodeBlock(blocks[0]) + EncodeBlocks(blocks[1..])
  }

  /** The packet: version 2, feedback type 11, packet type 205, length in words less one, the sender's SSRC,
      the report blocks and the report timestamp. */
  function Encode(sender: Ssrc, blocks: seq<Block>, timestamp: Ssrc): (b: seq<byte>)
    requires AllEncodable(blocks)
    ensures |b| == 4 * (3 + TotalWords(blocks))
  {
    [0x8B, 0xCD] + U16((2 + TotalWords(blocks)) % 0x1_0000) + U32(sender) + EncodeBlocks(blocks) + U32(timestamp)
  }

  // ----- Walking -----

  /** One more, in 16 bits. */
  function Incremented(n: uint16): uint16 {
    (n + 1) % 0x1_0000
  }

  /** A count rounded up to an even number, in 16 bits. */
  function RoundedUp(n: uint16): uint16 {
    if n % 2 != 0 then Incremented(n) else n
  }

  /** The offset after the report block at `offset`, as the walker computes it. */
  function NextOffset(packet: seq<byte>, offset: nat): (next: nat)
    requires offset + 8 <= |packet|
    ensures next >= offset + 8
  {
    offset + 2 * (RoundedUp(Read16(packet, offset + 6)) as int) + 8
  }

  lemma RoundedUpEven(n: uint16)
    ensures RoundedUp(n) % 2 == 0
  {
  }

  /** A walk over whole words stays on whole words. */
  lemma WholeWords(offset: nat, even: nat)
    requires offset % 4 == 0 && even % 2 == 0
    ensures (offset + 2 * even + 8) % 4 == 0
  {
    assert offset + 2 * even + 8 == 4 * (offset / 4 + even / 2 + 2);
  }

  /** A walk ends at an offset, having visited some SSRCs, or indexes past the end of the packet. */
  datatype Walk = Ended(ssrcs: seq<Ssrc>, offset: nat) | Panicked

  /** The walk that visits ssrcs first and then goes on as w. */
  function Visit(ssrcs: seq<Ssrc>, w: Walk): Walk {
    match w
    case Panicked => Panicked
    case Ended(rest, end) => Ended(ssrcs + rest, end)
  }

  function WalkFrom(packet: seq<byte>, offset: nat): Walk
    decreases |packet| - offset
  {
    if offset >= |packet| - 4 then Ended([], offset)
    else if offset + 8 > |packet| then Panicked
    else
      Visit([Read32(packet, offset)], WalkFrom(packet, NextOffset(packet, offset)))
  }

  lemma VisitVisit(a: seq<Ssrc>, b: seq<Ssrc>, w: Walk)
    ensures Visit(a, Visit(b, w)) == Visit(a + b, w)
  {
    if w.Ended? {
      assert a + (b + w.ssrcs) == (a + b) + w.ssrcs;
    }
  }

  lemma VisitNothing(w: Walk)
    ensures Visit([], w) == w
  {
    if w.Ended? {
      assert [] + w.ssrcs == w.ssrcs;
    }
  }

  /** The elements of xs, each where it first occurs. */
  function Distinct(xs: seq<Ssrc>): seq<Ssrc> {
    if xs == [] then []
    else
      var ds := Distinct(xs[..|xs| - 1]);
      if xs[|xs| - 1] in ds then ds else ds + [xs[|xs| - 1]]
  }

  lemma DistinctAppend(xs: seq<Ssrc>, x: Ssrc)
    ensures Distinct(xs + [x]) == if x in Distinct(xs) then Distinct(xs) else Distinct(xs) + [x]
  {
    assert (xs + [x])[..|xs|] == xs;
  }

  /** One round of the walk: the block at `offset` is visited and the walk goes on behind it. */
  lemma WalkStep(packet: seq<byte>, offset: nat, ssrc: Ssrc, next: nat)
    requires offset < |packet| - 4 && offset + 8 <= |packet|
    requires Read32(packet, offset) == ssrc && NextOffset(packet, offset) == next
    ensures WalkFrom(packet, offset) == Visit([ssrc], WalkFrom(packet, next))
  {
  }

  /** The SSRCs that the walk over a whole packet visits, each once; None if the walk panics. */
  function Extracted(packet: seq<byte>): Option<seq<Ssrc>> {
    match WalkFrom(packet, 8)
    case Panicked => None
    case Ended(visited, _) => Some(Distinct(visited))
  }

  /** The block at `offset`, whose header lies in the packet, is that of ssrc and the walk goes on at `next`. */
  predicate Hop(packet: seq<byte>, offset: nat, ssrc: Ssrc, next: nat) {
    && offset < |packet| - 4 && offset + 8 <= |packet|
    && Read32(packet, offset) == ssrc && NextOffset(packet, offset) == next
  }

  /** The walk so far: from offset 8, over the blocks at `offsets`, of the SSRCs visited, to `offset`. */
  predicate Walked(packet: seq<byte>, offsets: seq<nat>, visited: seq<Ssrc>, offset: nat) {
    && |offsets| == |visited|
    && (offsets + [offset])[0] == 8
    && forall i | 0 <= i < |offsets| :: Hop(packet, offsets[i], visited[i], (offsets + [offset])[i + 1])
  }

  lemma WalkGoesOn(packet: seq<byte>, offsets: seq<nat>, visited: seq<Ssrc>, offset: nat, ssrc: Ssrc, next: nat)
    requires Walked(packet, offsets, visited, offset) && Hop(packet, offset, ssrc, next)
    ensures Walked(packet, offsets + [offset], visited + [ssrc], next)
  {
  }

  lemma {:induction false} WalkedFromStart(packet: seq<byte>, offsets: seq<nat>, visited: seq<Ssrc>, offset: nat)
    requires Walked(packet, offsets, visited, offset)
    ensures WalkFrom(packet, 8) == Visit(visited, WalkFrom(packet, offset))
    decreases |offsets|
  {
    if offsets == [] {
      VisitNothing(WalkFrom(packet, 8));
    } else {
      var n := |offsets| - 1;
      assert offsets[..n] + [offsets[n]] == offsets && visited[..n] + [visited[n]] == visited;
      assert forall i | 0 <= i < n :: Hop(packet, offsets[i], visited[i], (offsets + [offset])[i + 1]);
      WalkedFromStart(packet, offsets[..n], visited[..n], offsets[n]);
      assert Hop(packet, offsets[n], visited[n], offset);
      WalkStep(packet, offsets[n], visited[n], offset);
      VisitVisit(visited[..n], [visited[n]], WalkFrom(packet, offset));
    }
  }

  /** Where a walk ends, or panics. */
  lemma WalkStops(packet: seq<byte>, offsets: seq<nat>, visited: seq<Ssrc>, offset: nat)
    requires Walked(packet, offsets, visited, offset)
    requires offset >= |packet| - 4 || offset + 8 > |packet|
    ensures Extracted(packet) == if offset >= |packet| - 4 then Some(Distinct(visited)) else None
  {
    WalkedFromStart(packet, offsets, visited, offset);
    assert visited + [] == visited;
  }

  /** ssrcs holds the SSRCs visited, each once, and unique is the set of them. */
  ghost predicate Collected(visited: seq<Ssrc>, ssrcs: seq<Ssrc>, unique: set<Ssrc>) {
    ssrcs == Distinct(visited) && unique == set x | x in ssrcs
  }

  lemma CollectOne(visited: seq<Ssrc>, ssrcs: seq<Ssrc>, unique: set<Ssrc>, ssrc: Ssrc)
    requires Collected(visited, ssrcs, unique)
    ensures Collected(visited + [ssrc], if ssrc in unique then ssrcs else ssrcs + [ssrc], unique + {ssrc})
  {
    DistinctAppend(visited, ssrc);
  }

  /** The walker: None stands for Go's index-out-of-range panic. */
  method ExtractSsrcs(packet: seq<byte>) returns (r: Option<seq<Ssrc>>)
    ensures r == Extracted(packet)
  {
    var uniqueSsrcs: set<Ssrc> := {};
    var ssrcs: seq<Ssrc> := [];
    ghost var offsets: seq<nat>, visited: seq<Ssrc> := [], [];
    var offset: nat := 8;
    while offset < |packet| - 4
      invariant Collected(visited, ssrcs, uniqueSsrcs)
      invariant Walked(packet, offsets, visited, offset)
      decreases |packet| - offset
    {
      var ssrc := Read32(packet, offset);
      CollectOne(visited, ssrcs, uniqueSsrcs, ssrc);
      if ssrc !in uniqueSsrcs {
        ssrcs := ssrcs + [ssrc];
        uniqueSsrcs := uniqueSsrcs + {ssrc};
      }
      if offset + 8 > |packet| {
        WalkStops(packet, offsets, visited, offset);
        return None;
      }
      var numReports: uint16 := Read16(packet, offset + 6);
      if numReports % 2 != 0 {
        numReports := Incremented(numReports);
      }
      WalkGoesOn(packet, offsets, visited, offset, ssrc, offset + 2 * numReports as int + 8);
      offsets, visited := offsets + [offset], visited + [ssrc];
      offset := offset + 2 * numReports as int; // 2 bytes per metric block
      offset := offset + 8;                     // SSRC, begin_seq and num_reports
    }
    WalkStops(packet, offsets, visited, offset);
    r := Some(ssrcs);
  }

  // ----- The walker undoes the encoder -----

  function SsrcsOf(blocks: seq<Block>): seq<Ssrc> {
    if blocks == [] then [] else [blocks[0].ssrc] + SsrcsOf(blocks[1..])
  }

  /** The fixed fields of an encoded block are read back wherever the block lies in a packet. */
  lemma ReadBlock(before: seq<byte>, block: Block, after: seq<byte>)
    requires Encodable(block)
    ensures var packet, i := before + EncodeBlock(block) + after, |before|;
      && i + 8 <= |packet|
      && Read32(packet, i) == block.ssrc
      && Read16(packet, i + 4) == block.beginSeq
      && Read16(packet, i + 6) == |block.metrics|
  {
    var packet, i := before + EncodeBlock(block) + after, |before|;
    var header := U32(block.ssrc) + U16(block.beginSeq) + U16(|block.metrics|);
    assert packet[i..i + 8] == header;
    assert forall j | 0 <= j < 8 :: header[j] == packet[i + j];
  }

  lemma RoundsUpIff(n: uint16)
    ensures 2 * (RoundedUp(n) as int) + 8 == 4 * (2 + (n + 1) / 2) <==> n != 0xFFFF
  {
  }

  /** Exactly when the walker steps over a whole block: unless its count is 65535, where rounding up wraps to
      zero and the walker goes on inside the block's own metrics. The cap of 16384 metric blocks excludes it. */
  lemma StepsOverBlockIff(before: seq<byte>, block: Block, after: seq<byte>)
    requires Encodable(block)
    ensures var packet := before + EncodeBlock(block) + after;
      && |before| + 8 <= |packet|
      && (NextOffset(packet, |before|) == |before| + |EncodeBlock(block)| <==> |block.metrics| != 0xFFFF)
  {
    ReadBlock(before, block, after);
    RoundsUpIff(|block.metrics|);
  }

  lemma Reassociate(a: seq<byte>, b: seq<byte>, c: seq<byte>, d: seq<byte>)
    ensures a + (b + c) + d == a + b + (c + d) == (a + b) + c + d
  {
  }

  lemma {:induction false} WalksEncodedBlocks(packet: seq<byte>, before: seq<byte>, blocks: seq<Block>,
                                              after: seq<byte>)
    requires AllEncodable(blocks) && (forall i | 0 <= i < |blocks| :: |blocks[i].metrics| < 0xFFFF) && |after| == 4
    requires packet == before + EncodeBlocks(blocks) + after
    ensures WalkFrom(packet, |before|) == Ended(SsrcsOf(blocks), |packet| - 4)
    decreases |blocks|
  {
    if blocks == [] {
    } else {
      var first, rest := EncodeBlock(blocks[0]), EncodeBlocks(blocks[1..]);
      Reassociate(before, first, rest, after);
      ReadBlock(before, blocks[0], rest + after);
      StepsOverBlockIff(before, blocks[0], rest + after);
      WalkStep(packet, |before|, blocks[0].ssrc, |before + first|);
      WalksEncodedBlocks(packet, before + first, blocks[1..], after);
    }
  }

  /** For every list of report blocks within the cap of 16384 metric blocks, the walk over the encoded packet
      stays in bounds, ends exactly at the report timestamp, and visits the SSRCs of the blocks in order. */
  lemma WalksEncodedPacket(sender: Ssrc, blocks: seq<Block>, timestamp: Ssrc)
    requires forall i | 0 <= i < |blocks| :: |blocks[i].metrics| <= 16384
    ensures WalkFrom(Encode(sender, blocks, timestamp), 8)
            == Ended(SsrcsOf(blocks), |Encode(sender, blocks, timestamp)| - 4)
  {
    var packet := Encode(sender, blocks, timestamp);
    assert packet == packet[..8] + EncodeBlocks(blocks) + U32(timestamp);
    WalksEncodedBlocks(packet, packet[..8], blocks, U32(timestamp));
  }

  /** The walker undoes the encoder: it returns the distinct SSRCs of the report blocks. */
  lemma ExtractsEncodedSsrcs(sender: Ssrc, blocks: seq<Block>, timestamp: Ssrc)
    requires forall i | 0 <= i < |blocks| :: |blocks[i].metrics| <= 16384
    ensures Extracted(Encode(sender, blocks, timestamp)) == Some(Distinct(SsrcsOf(blocks)))
  {
    WalksEncodedPacket(sender, blocks, timestamp);
  }

  lemma ReadFields(a: seq<byte>, length: seq<byte>, sender: seq<byte>, blocks: seq<byte>, timestamp: seq<byte>)
    requires |a| == |length| == 2 && |sender| == |timestamp| == 4
    ensures var packet := a + length + sender + blocks + timestamp;
      && Read16(packet, 2) == Read16(length, 0)
      && Read32(packet, 4) == Read32(sender, 0)
      && Read32(packet, |packet| - 4) == Read32(timestamp, 0)
  {
  }

  /** The packet's own fields: version 2, format 11, packet type 205; the length field counts its words, less one,
      whenever it can, and the last word is the report timestamp. */
  lemma EncodedFraming(sender: Ssrc, blocks: seq<Block>, timestamp: Ssrc)
    requires AllEncodable(blocks)
    ensures var packet := Encode(sender, blocks, timestamp);
      && packet[0] / 64 == 2 && packet[0] % 32 == 11 && packet[1] == 205
      && Read32(packet, 4) == sender
      && Read32(packet, |packet| - 4) == timestamp
      && (|packet| <= 4 * 0x1_0000 <==> |packet| == 4 * (Read16(packet, 2) + 1))
  {
    var packet := Encode(sender, blocks, timestamp);
    ReadFields([0x8B, 0xCD], U16((2 + TotalWords(blocks)) % 0x1_0000), U32(sender), EncodeBlocks(blocks),
               U32(timestamp));
  }

  // ----- First occurrences -----

  function FirstIndex(xs: seq<Ssrc>, x: Ssrc): (i: nat)
    requires x in xs
    ensures i < |xs| && xs[i] == x && x !in xs[..i]
  {
    if xs[0] == x then 0 else 1 + FirstIndex(xs[1..], x)
  }

  lemma {:induction false} FirstIndexPrefix(xs: seq<Ssrc>, x: Ssrc, last: Ssrc)
    requires x in xs
    ensures x in xs + [last] && FirstIndex(xs + [last], x) == FirstIndex(xs, x)
  {
    if xs[0] == x {
    } else {
      assert (xs + [last])[1..] == xs[1..] + [last];
      FirstIndexPrefix(xs[1..], x, last);
    }
  }

  /** The SSRCs returned are those visited, without repetition, in the order of their first occurrence. */
  lemma {:induction false} DistinctInFirstOccurrenceOrder(xs: seq<Ssrc>)
    ensures forall x :: x in Distinct(xs) <==> x in xs
    ensures forall i, j | 0 <= i < j < |Distinct(xs)| ::
              FirstIndex(xs, Distinct(xs)[i]) < FirstIndex(xs, Distinct(xs)[j])
    ensures forall i, j | 0 <= i < j < |Distinct(xs)| :: Distinct(xs)[i] != Distinct(xs)[j]
  {
    if xs == [] {
    } else {
      var before, last := xs[..|xs| - 1], xs[|xs| - 1];
      DistinctInFirstOccurrenceOrder(before);
      assert xs == before + [last];
      forall x | x in before
        ensures FirstIndex(xs, x) == FirstIndex(before, x)
      {
        FirstIndexPrefix(before, x, last);
      }
      if last !in before {
        assert FirstIndex(xs, last) == |before|;
      }
    }
  }

  // ----- Panics -----

  /** A packet whose length is a multiple of four never makes the walker panic, whatever its content. */
  lemma {:induction false} WordsNeverPanic(packet: seq<byte>, offset: nat)
    requires |packet| % 4 == 0 && offset % 4 == 0
    ensures WalkFrom(packet, offset).Ended?
    decreases |packet| - offset
  {
    if offset >= |packet| - 4 {
    } else {
      RoundedUpEven(Read16(packet, offset + 6));
      WholeWords(offset, RoundedUp(Read16(packet, offset + 6)));
      WordsNeverPanic(packet, NextOffset(packet, offset));
    }
  }

  /** Over zeros the walker advances eight bytes at a time and hits an incomplete header at the end. */
  lemma {:induction false} ZerosPanic(packet: seq<byte>, offset: nat)
    requires offset < |packet| && forall i | offset <= i < |packet| :: packet[i] == 0
    requires (|packet| - offset) % 8 >= 5
    ensures WalkFrom(packet, offset) == Panicked
    decreases |packet| - offset
  {
    if offset + 8 > |packet| {
    } else {
      ZerosPanic(packet, offset + 8);
    }
  }

  /** A packet of length n that makes the walker panic. */
  function Malformed(n: nat): (packet: seq<byte>)
    requires n >= 13
    ensures |packet| == n
  {
    var zeros := seq(n, _ => 0);
    if (n - 8) % 8 >= 5 then zeros else if n > 15 then zeros[15 := 2] else zeros
  }

  lemma FourFurther(n: nat)
    requires n >= 21 && (n - 8) % 8 < 5 && n % 4 != 0
    ensures (n - 20) % 8 >= 5
  {
    var k, r := (n - 8) / 8, (n - 8) % 8;
    assert n == 4 * (2 * k + 2) + r;
    assert n - 20 == 8 * (k - 2) + (r + 4);
  }

  /** Where zeros alone would end well, two metric blocks in the first report block shift the walk by four. */
  lemma LongerFirstBlock(n: nat)
    requires n >= 21 && (n - 8) % 8 < 5 && n % 4 != 0
    ensures WalkFrom(Malformed(n), 8) == Panicked
  {
    var packet := Malformed(n);
    FourFurther(n);
    assert Read16(packet, 14) == 2;
    ZerosPanic(packet, 20);
    WalkStep(packet, 8, Read32(packet, 8), 20);
  }

  lemma MalformedPanics(n: nat)
    requires n % 4 != 0 && n > 12 && !(17 <= n <= 19)
    ensures WalkFrom(Malformed(n), 8) == Panicked
  {
    if (n - 8) % 8 >= 5 {
      ZerosPanic(Malformed(n), 8);
    } else {
      LongerFirstBlock(n);
    }
  }

  /** Exactly which lengths are safe: no packet of n bytes panics the walker if and only if n is a multiple of
      four, or the packet is too short for the guard to let an incomplete block header through. */
  lemma SafeLengths(n: nat)
    ensures (forall packet: seq<byte> | |packet| == n :: WalkFrom(packet, 8).Ended?)
            <==> n % 4 == 0 || n <= 12 || 17 <= n <= 19
  {
    if n % 4 == 0 || n <= 12 || 17 <= n <= 19 {
      forall packet: seq<byte> | |packet| == n
        ensures WalkFrom(packet, 8).Ended?
      {
        if n % 4 == 0 {
          WordsNeverPanic(packet, 8);
        } else if n > 12 {
          assert NextOffset(packet, 8) >= |packet| - 4;
        }
      }
    } else {
      MalformedPanics(n);
    }
  }
}
