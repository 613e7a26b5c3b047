/**
 * `sendFrame`: RTP packetization of one access unit with FU-A fragmentation, and the receiver of
 * RFC 6184 (sections 5.6 and 5.8) that takes the packets apart again.
 */
module Rtp {
  import opened Options
  import opened Bytes

  const RTP_PAYLOAD_BYTES: nat := 1200
  const FRAGMENT_BYTES: nat := RTP_PAYLOAD_BYTES - 2
  const FU_A: nat := 28

  datatype Packet = Packet(sequence: nat, timestamp: nat, marker: bool, payload: seq<Byte>)

  // ---------------------------------------------------------------- payloads

  /** `(header & 0xe0) | 28`: the F and NRI bits of the NAL header with type FU-A. */
  function FuIndicator(header: Byte): (r: Byte)
    ensures r / 32 == header / 32 && r % 32 == FU_A
  {
    header - header % 32 + FU_A
  }

  /** The S and E bits and the type of the fragmented NAL unit; R is zero. */
  function FuHeader(first: bool, last: bool, header: Byte): (r: Byte)
    ensures (r / 128 == 1 <==> first) && (r / 64 % 2 == 1 <==> last)
    ensures r / 32 % 2 == 0 && r % 32 == header % 32
  {
    (if first then 128 else 0) + (if last then 64 else 0) + header % 32
  }

  lemma {:induction false} LowBits(header: bv8)
    ensures (header & 0x1f) as int == header as int % 32
  {
    assert header & 0x1f == header % 32;
  }

  lemma {:induction false} IndicatorBits(header: bv8)
    ensures ((header & 0xe0) | 28) as int == FuIndicator(header as int)
  {
    LowBits(header);
    assert (header & 0xe0) | 28 == header - (header & 0x1f) + 28;
    assert header & 0x1f <= header && header - (header & 0x1f) <= 224;
  }

  lemma {:induction false} HeaderBits(flags: bv8, header: bv8)
    requires flags & 0x3f == 0
    ensures (flags | (header & 0x1f)) as int == flags as int + header as int % 32
  {
    LowBits(header);
    assert flags | (header & 0x1f) == flags + (header & 0x1f) && flags <= 192 && header & 0x1f <= 31;
  }

  /** The bit operations of the source compute what the arithmetic above says. */
  lemma {:induction false} FuBits(header: bv8, first: bool, last: bool)
    ensures ((header & 0xe0) | 28) as int == FuIndicator(header as int)
    ensures ((if first then 0x80 as bv8 else 0) | (if last then 0x40 else 0) | (header & 0x1f)) as int
         == FuHeader(first, last, header as int)
  {
    IndicatorBits(header);
    var flags := (if first then 0x80 as bv8 else 0) | (if last then 0x40 else 0);
    assert flags == (if first then if last then 192 else 128 else if last then 64 else 0) && flags & 0x3f == 0;
    HeaderBits(flags, header);
  }

  function Min(a: int, b: int): int {
    if a < b then a else b
  }

  /** Where the fragment that starts at some offset of the body (the bytes after the header) ends. */
  function FragmentEnd(nal: Nal, offset: nat): (end: nat)
    requires offset < |nal| - 1
    ensures offset < end <= |nal| - 1
  {
    Min(|nal| - 1, offset + FRAGMENT_BYTES)
  }

  function Fragment(nal: Nal, offset: nat): (r: seq<Byte>)
    requires offset < |nal| - 1
    ensures 3 <= |r| <= RTP_PAYLOAD_BYTES
  {
    var end := FragmentEnd(nal, offset);
    [FuIndicator(nal[0]), FuHeader(offset == 0, end == |nal| - 1, nal[0])] + nal[1 + offset..1 + end]
  }

  function FragmentsFrom(nal: Nal, offset: nat): (r: seq<seq<Byte>>)
    requires offset < |nal| - 1
    ensures r != []
    decreases |nal| - offset
  {
    var end := FragmentEnd(nal, offset);
    [Fragment(nal, offset)] + if end == |nal| - 1 then [] else FragmentsFrom(nal, end)
  }

  function Payloads(nal: Nal): seq<seq<Byte>> {
    if |nal| <= RTP_PAYLOAD_BYTES then [nal] else FragmentsFrom(nal, 0)
  }

  function AllPayloads(nals: seq<Nal>): seq<seq<Byte>> {
    if nals == [] then [] else Payloads(nals[0]) + AllPayloads(nals[1..])
  }

  /** The sequence number of the n-th packet of a stream. */
  function Wrap(n: nat): (r: nat)
    ensures r < TWO_TO_THE_16
  {
    n % TWO_TO_THE_16
  }

  lemma {:induction false} WrapNext(n: nat)
    ensures Wrap(Wrap(n) + 1) == Wrap(n + 1)
  {
  }

  /** Payloads as packets from position n on; `closing` says that the last one ends the access unit. */
  function Stamp(payloads: seq<seq<Byte>>, timestamp: nat, n: nat, closing: bool): (r: seq<Packet>)
    ensures |r| == |payloads|
  {
    if payloads == [] then []
    else
      [Packet(Wrap(n), timestamp, closing && |payloads| == 1, payloads[0])]
      + Stamp(payloads[1..], timestamp, n + 1, closing)
  }

  function Packetize(nals: seq<Nal>, timestamp: nat, n: nat): seq<Packet> {
    Stamp(AllPayloads(nals), timestamp, n, true)
  }

  // ---------------------------------------------------------------- the packet headers

  lemma {:induction false} StampAt(payloads: seq<seq<Byte>>, timestamp: nat, n: nat, closing: bool, i: nat)
    requires i < |payloads|
    ensures Stamp(payloads, timestamp, n, closing)[i]
         == Packet(Wrap(n + i), timestamp, closing && i == |payloads| - 1, payloads[i])
    decreases i
  {
    if i > 0 {
      StampAt(payloads[1..], timestamp, n + 1, closing, i - 1);
    }
  }

  /** The i-th fragment from an offset starts i times 1198 bytes later; the last one ends the NAL unit. */
  lemma {:induction false} FragmentFrom(nal: Nal, offset: nat, i: nat)
    requires offset < |nal| - 1 && i < |FragmentsFrom(nal, offset)|
    ensures var at := offset + i * FRAGMENT_BYTES;
      && at < |nal| - 1
      && FragmentsFrom(nal, offset)[i] == Fragment(nal, at)
      && (i == |FragmentsFrom(nal, offset)| - 1 <==> FragmentEnd(nal, at) == |nal| - 1)
    decreases i
  {
    var end := FragmentEnd(nal, offset);
    if end < |nal| - 1 {
      var rest := FragmentsFrom(nal, end);
      assert FragmentsFrom(nal, offset) == [Fragment(nal, offset)] + rest;
      if i > 0 {
        FragmentFrom(nal, end, i - 1);
        assert end + (i - 1) * FRAGMENT_BYTES == offset + i * FRAGMENT_BYTES;
      }
    }
  }

  /** How the i-th of `count` fragments of a NAL unit begins. */
  predicate FuShaped(f: seq<Byte>, header: Byte, i: nat, count: nat) {
    && |f| >= 3
    && f[0] / 32 == header / 32 && f[0] % 32 == 28
    && f[1] % 32 == header % 32 && f[1] / 32 % 2 == 0
    && (f[1] / 128 == 1 <==> i == 0)
    && (f[1] / 64 % 2 == 1 <==> i == count - 1)
  }

  lemma {:induction false} FragmentShape(nal: Nal, i: nat)
    requires |nal| > RTP_PAYLOAD_BYTES && i < |Payloads(nal)|
    ensures FuShaped(Payloads(nal)[i], nal[0], i, |Payloads(nal)|) && |Payloads(nal)[i]| <= RTP_PAYLOAD_BYTES
  {
    hide FuIndicator, FuHeader, FragmentsFrom;
    FragmentFrom(nal, 0, i);
  }

  /** No payload exceeds 1200 bytes. Every fragment carries the F and NRI bits of its NAL unit under type
      FU-A and the unit's own type with R zero; S is set in the first only, E in the last only. */
  lemma {:induction false} PayloadBounds(nal: Nal)
    requires nal != []
    ensures |Payloads(nal)| > 0
    ensures forall i | 0 <= i < |Payloads(nal)| :: 1 <= |Payloads(nal)[i]| <= 1200
    ensures |nal| <= 1200 ==> Payloads(nal) == [nal]
    ensures |nal| > 1200 ==>
      |Payloads(nal)| >= 2 &&
      forall i | 0 <= i < |Payloads(nal)| :: FuShaped(Payloads(nal)[i], nal[0], i, |Payloads(nal)|)
  {
    if |nal| > RTP_PAYLOAD_BYTES {
      FragmentFrom(nal, 0, 0);
      forall i | 0 <= i < |Payloads(nal)|
        ensures FuShaped(Payloads(nal)[i], nal[0], i, |Payloads(nal)|) && 1 <= |Payloads(nal)[i]| <= RTP_PAYLOAD_BYTES
      {
        FragmentShape(nal, i);
      }
      hide FuShaped;
    }
  }

  lemma {:induction false} AllPayloadBounds(nals: seq<Nal>)
    requires forall i | 0 <= i < |nals| :: nals[i] != []
    ensures forall i | 0 <= i < |AllPayloads(nals)| :: 1 <= |AllPayloads(nals)[i]| <= RTP_PAYLOAD_BYTES
    ensures nals != [] ==> AllPayloads(nals) != []
  {
    if nals != [] {
      PayloadBounds(nals[0]);
      AllPayloadBounds(nals[1..]);
    }
  }

  /** Consecutive sequence numbers mod 2^16, one timestamp, and the one marker on the last packet. */
  lemma {:induction false} PacketHeaders(nals: seq<Nal>, timestamp: nat, n: nat, i: nat)
    requires forall k | 0 <= k < |nals| :: nals[k] != []
    requires i < |Packetize(nals, timestamp, n)|
    ensures var packets := Packetize(nals, timestamp, n);
      && packets[i].sequence == (n + i) % 65536
      && packets[i].timestamp == timestamp
      && (packets[i].marker <==> i == |packets| - 1)
      && 1 <= |packets[i].payload| <= 1200
  {
    AllPayloadBounds(nals);
    StampAt(AllPayloads(nals), timestamp, n, true, i);
  }

  // ---------------------------------------------------------------- the receiver

  datatype Received = Received(timestamp: nat, nals: seq<Nal>)

  /** A depacketizer in non-interleaved mode; `broken` once a packet is out of sequence or illegal. */
  datatype Receiver = Receiver(
    expected: Option<nat>,
    partial: Option<Nal>,
    nals: seq<Nal>,
    pictures: seq<Received>,
    broken: bool)

  const NEW_RECEIVER := Receiver(None, None, [], [], false)

  /** A NAL unit is complete; a marker closes the access unit. */
  function Complete(r: Receiver, nal: Nal, p: Packet): Receiver {
    var nals := r.nals + [nal];
    if p.marker then Receiver(Some(Wrap(p.sequence + 1)), None, [], r.pictures + [Received(p.timestamp, nals)], false)
    else Receiver(Some(Wrap(p.sequence + 1)), None, nals, r.pictures, false)
  }

  function Receive(r: Receiver, p: Packet): Receiver {
    var bad := r.(broken := true);
    if r.broken || p.payload == [] || (r.expected.Some? && r.expected.value != p.sequence) then bad
    else
      var indicator := p.payload[0];
      var kind := indicator % 32;
      if 1 <= kind <= 23 then
        if r.partial.Some? then bad else Complete(r, p.payload, p)
      else if kind != FU_A || |p.payload| < 3 then bad
      else
        var fu := p.payload[1];
        var start, end := fu / 128 == 1, fu / 64 % 2 == 1;
        if (start && end) || start == r.partial.Some? then bad
        else
          var head: Nal := if start then [indicator - kind + fu % 32] else r.partial.value;
          var nal := head + p.payload[2..];
          if end then Complete(r, nal, p)
          else if p.marker then bad
          else r.(expected := Some(Wrap(p.sequence + 1)), partial := Some(nal))
  }

  function ReceiveAll(r: Receiver, packets: seq<Packet>): Receiver
    decreases |packets|
  {
    if packets == [] then r else ReceiveAll(Receive(r, packets[0]), packets[1..])
  }

  lemma {:induction false} ReceiveConcat(r: Receiver, left: seq<Packet>, right: seq<Packet>)
    ensures ReceiveAll(r, left + right) == ReceiveAll(ReceiveAll(r, left), right)
    decreases |left|
  {
    if left == [] {
      assert left + right == right;
    } else {
      assert (left + right)[1..] == left[1..] + right;
      ReceiveConcat(Receive(r, left[0]), left[1..], right);
    }
  }

  // ---------------------------------------------------------------- reassembly

  predicate Sendable(nal: Nal) {
    nal != [] && 1 <= nal[0] % 32 <= 23
  }

  /** The receiver is in step with a sender at position n. */
  predicate InStep(r: Receiver, n: nat) {
    !r.broken && (r.expected.Some? ==> r.expected.value == Wrap(n))
  }

  /** The receiver at position n, a whole NAL unit later. */
  function WithNal(r: Receiver, nal: Nal, timestamp: nat, n: nat, closing: bool): Receiver {
    var nals := r.nals + [nal];
    if closing then Receiver(Some(Wrap(n)), None, [], r.pictures + [Received(timestamp, nals)], false)
    else Receiver(Some(Wrap(n)), None, nals, r.pictures, false)
  }

  lemma {:induction false} ReceiveFragment(nal: Nal, offset: nat, r: Receiver, timestamp: nat, n: nat, closing: bool)
    requires Sendable(nal) && offset < |nal| - 1
    requires |nal| > RTP_PAYLOAD_BYTES && InStep(r, n)
    requires r.partial == if offset == 0 then None else Some(nal[..1 + offset])
    ensures var end := FragmentEnd(nal, offset);
      var last := end == |nal| - 1;
      Receive(r, Packet(Wrap(n), timestamp, closing && last, Fragment(nal, offset))) ==
        if last then WithNal(r, nal, timestamp, n + 1, closing)
        else Receiver(Some(Wrap(n + 1)), Some(nal[..1 + end]), r.nals, r.pictures, false)
  {
    var end, f := FragmentEnd(nal, offset), Fragment(nal, offset);
    assert f[2..] == nal[1 + offset..1 + end];
    assert f[0] - f[0] % 32 + f[1] % 32 == nal[0];
    assert offset == 0 ==> [nal[0]] == nal[..1 + offset];
    assert nal[..1 + offset] + nal[1 + offset..1 + end] == nal[..1 + end];
    assert nal[..|nal|] == nal;
    WrapNext(n);
  }

  /** Section 5.8 of RFC 6184: the fragments rebuild the NAL unit with its header byte. */
  lemma {:induction false} Reassemble(nal: Nal, offset: nat, r: Receiver, timestamp: nat, n: nat, closing: bool)
    requires Sendable(nal) && offset < |nal| - 1
    requires |nal| > RTP_PAYLOAD_BYTES && InStep(r, n)
    requires r.partial == if offset == 0 then None else Some(nal[..1 + offset])
    ensures var packets := Stamp(FragmentsFrom(nal, offset), timestamp, n, closing);
      ReceiveAll(r, packets) == WithNal(r, nal, timestamp, n + |packets|, closing)
    decreases |nal| - offset
  {
    var fragments := FragmentsFrom(nal, offset);
    var packets := Stamp(fragments, timestamp, n, closing);
    var end := FragmentEnd(nal, offset);
    ReceiveFragment(nal, offset, r, timestamp, n, closing);
    if end == |nal| - 1 {
      assert packets[1..] == [];
    } else {
      assert fragments[1..] == FragmentsFrom(nal, end) && |fragments[1..]| > 0;
      assert packets[1..] == Stamp(fragments[1..], timestamp, n + 1, closing);
      var r' := Receiver(Some(Wrap(n + 1)), Some(nal[..1 + end]), r.nals, r.pictures, false);
      Reassemble(nal, end, r', timestamp, n + 1, closing);
    }
  }

  lemma {:induction false} ReceiveNal(nal: Nal, r: Receiver, timestamp: nat, n: nat, closing: bool)
    requires Sendable(nal) && InStep(r, n) && r.partial.None?
    ensures var packets := Stamp(Payloads(nal), timestamp, n, closing);
      ReceiveAll(r, packets) == WithNal(r, nal, timestamp, n + |packets|, closing)
  {
    if |nal| > RTP_PAYLOAD_BYTES {
      Reassemble(nal, 0, r, timestamp, n, closing);
    } else {
      var packets := Stamp(Payloads(nal), timestamp, n, closing);
      assert packets == [Packet(Wrap(n), timestamp, closing, nal)];
      assert packets[1..] == [];
      WrapNext(n);
    }
  }

  lemma {:induction false} StampConcat(
      left: seq<seq<Byte>>, right: seq<seq<Byte>>, timestamp: nat, n: nat, closing: bool)
    ensures Stamp(left + right, timestamp, n, closing)
         == Stamp(left, timestamp, n, closing && right == []) + Stamp(right, timestamp, n + |left|, closing)
    decreases |left|
  {
    if left == [] {
      assert left + right == right;
    } else {
      assert (left + right)[1..] == left[1..] + right;
      StampConcat(left[1..], right, timestamp, n + 1, closing);
    }
  }

  /** The receiver rebuilds every NAL unit of the frame and closes exactly one access unit. */
  lemma {:induction false} FrameRoundTrip(nals: seq<Nal>, r: Receiver, timestamp: nat, n: nat)
    requires nals != [] && (forall i | 0 <= i < |nals| :: Sendable(nals[i]))
    requires InStep(r, n) && r.partial.None?
    ensures var packets := Packetize(nals, timestamp, n);
      ReceiveAll(r, packets) == Receiver(
        Some(Wrap(n + |packets|)), None, [],
        r.pictures + [Received(timestamp, r.nals + nals)], false)
    decreases |nals|
  {
    hide Wrap, Payloads, Receive, Complete;
    var first, rest := Payloads(nals[0]), AllPayloads(nals[1..]);
    AllPayloadBounds(nals[1..]);
    var left := Stamp(first, timestamp, n, rest == []);
    StampConcat(first, rest, timestamp, n, true);
    ReceiveNal(nals[0], r, timestamp, n, rest == []);
    if |nals| == 1 {
      assert nals == [nals[0]];
      assert first + rest == first;
    } else {
      var right := Packetize(nals[1..], timestamp, n + |first|);
      var r' := WithNal(r, nals[0], timestamp, n + |first|, false);
      ReceiveConcat(r, left, right);
      FrameRoundTrip(nals[1..], r', timestamp, n + |first|);
      assert r.nals + [nals[0]] + nals[1..] == r.nals + nals;
    }
  }

  // ---------------------------------------------------------------- sending

  lemma {:induction false} AllPayloadsSnoc(nals: seq<Nal>, nal: Nal)
    ensures AllPayloads(nals + [nal]) == AllPayloads(nals) + Payloads(nal)
  {
    if nals == [] {
      assert [nal][1..] == [];
    } else {
      assert (nals + [nal])[1..] == nals[1..] + [nal];
      AllPayloadsSnoc(nals[1..], nal);
    }
  }

  lemma {:induction false} AllPayloadsPrefix(nals: seq<Nal>, k: nat)
    requires k <= |nals|
    ensures AllPayloads(nals[..k]) <= AllPayloads(nals)
    decreases |nals| - k
  {
    if k == |nals| {
      assert nals[..k] == nals;
    } else {
      AllPayloadsPrefix(nals, k + 1);
      assert nals[..k + 1] == nals[..k] + [nals[k]];
      AllPayloadsSnoc(nals[..k], nals[k]);
    }
  }

  function Size(nals: seq<Nal>): nat {
    |AllPayloads(nals)|
  }

  /** Where the packets of the k-th NAL unit stand among those of the frame. */
  lemma {:induction false} PacketsOfNal(nals: seq<Nal>, k: nat, timestamp: nat, n: nat)
    requires k < |nals| && forall i | 0 <= i < |nals| :: nals[i] != []
    ensures var payloads, packets, base := Payloads(nals[k]), Packetize(nals, timestamp, n), Size(nals[..k]);
      && Size(nals[..k + 1]) == base + |payloads| <= |packets|
      && (k == |nals| - 1 ==> base + |payloads| == |packets|)
      && forall j | 0 <= j < |payloads| ::
           packets[base + j] ==
             Packet(Wrap(n + base + j), timestamp, k == |nals| - 1 && j == |payloads| - 1, payloads[j])
  {
    hide Wrap, Payloads, Stamp, AllPayloads;
    var all, payloads, base := AllPayloads(nals), Payloads(nals[k]), Size(nals[..k]);
    assert nals[..k + 1] == nals[..k] + [nals[k]];
    AllPayloadsSnoc(nals[..k], nals[k]);
    AllPayloadsPrefix(nals, k + 1);
    if k == |nals| - 1 {
      assert nals[..k + 1] == nals;
    } else {
      assert nals[..k + 2] == nals[..k + 1] + [nals[k + 1]];
      AllPayloadsSnoc(nals[..k + 1], nals[k + 1]);
      AllPayloadsPrefix(nals, k + 2);
      PayloadBounds(nals[k + 1]);
    }
    forall j | 0 <= j < |payloads|
      ensures Packetize(nals, timestamp, n)[base + j]
           == Packet(Wrap(n + base + j), timestamp, k == |nals| - 1 && j == |payloads| - 1, payloads[j])
    {
      StampAt(all, timestamp, n, true, base + j);
      assert all[base + j] == AllPayloads(nals[..k + 1])[base + j];
    }
  }

  lemma {:induction false} NothingToSend(timestamp: nat, n: nat)
    requires n < TWO_TO_THE_16
    ensures Packetize([], timestamp, n) == [] && Wrap(n) == n && Size([]) == 0
  {
  }

  /** Fragment i of a NAL unit, as the loop over its body cuts it. */
  lemma {:induction false} FragmentCut(nal: Nal, offset: nat, i: nat)
    requires |nal| > RTP_PAYLOAD_BYTES && i < |Payloads(nal)| && offset == i * FRAGMENT_BYTES
    ensures offset < |nal| - 1
    ensures var body, end := nal[1..], FragmentEnd(nal, offset);
      && Payloads(nal)[i] == [FuIndicator(nal[0]), FuHeader(offset == 0, end == |nal| - 1, nal[0])] + body[offset..end]
      && (i == |Payloads(nal)| - 1 <==> end == |nal| - 1)
      && (i < |Payloads(nal)| - 1 ==> end == (i + 1) * FRAGMENT_BYTES)
  {
    hide FuIndicator, FuHeader, FragmentsFrom;
    FragmentFrom(nal, 0, i);
    assert nal[1..][offset..FragmentEnd(nal, offset)] == nal[1 + offset..1 + FragmentEnd(nal, offset)];
  }

  class RtpSender {
    var nextSequence: nat
    var sent: seq<Packet> // the packets handed to `sendRtp` and accepted

    constructor (sequence: nat)
      requires sequence < TWO_TO_THE_16
      ensures nextSequence == sequence && sent == []
    {
      nextSequence, sent := sequence, [];
    }

    /**
     * One packet, the k-th of the frame. The connection may be found closing or down before it, or
     * `sendRtp` may reject: both end the frame, and which happens is the environment's choice.
     */
    method SendRtp(packet: Packet, ghost packets: seq<Packet>, ghost k: nat, ghost before: seq<Packet>)
      returns (ok: bool, next: nat)
      requires k < |packets| && packets[k] == packet && sent == before + packets[..k]
      modifies this`sent
      ensures sent == before + packets[..if ok then k + 1 else k]
      ensures next == Wrap(packet.sequence + 1)
    {
      next := (packet.sequence + 1) % TWO_TO_THE_16;
      if * {
        return false, next;
      }
      sent := sent + [packet];
      assert packets[..k + 1] == packets[..k] + [packet];
      return true, next;
    }

    method SendFrame(nalUnits: seq<Nal>, rtpTimestamp: nat) returns (complete: bool)
      requires nextSequence < TWO_TO_THE_16
      requires forall i | 0 <= i < |nalUnits| :: nalUnits[i] != []
      modifies this
      ensures var packets := Packetize(nalUnits, rtpTimestamp, old(nextSequence));
        if complete
        then sent == old(sent) + packets && nextSequence == Wrap(old(nextSequence) + |packets|)
        else nextSequence == old(nextSequence) && exists k | 0 <= k <= |packets| :: sent == old(sent) + packets[..k]
    {
      hide Wrap, Payloads, Packetize, AllPayloads;
      ghost var packets := Packetize(nalUnits, rtpTimestamp, nextSequence);
      if |nalUnits| == 0 {
        NothingToSend(rtpTimestamp, nextSequence);
        assert sent == old(sent) + [];
        return true;
      }
      ghost var k := 0;
      var sequence := nextSequence;
      NothingToSend(rtpTimestamp, nextSequence);
      for nalIndex := 0 to |nalUnits|
        invariant k == Size(nalUnits[..nalIndex]) <= |packets|
        invariant nalIndex == |nalUnits| ==> k == |packets|
        invariant sequence == Wrap(nextSequence + k) && nextSequence == old(nextSequence)
        invariant sent == old(sent) + packets[..k]
      {
        PacketsOfNal(nalUnits, nalIndex, rtpTimestamp, nextSequence);
        var isLastNal := nalIndex == |nalUnits| - 1;
        complete, sequence, k :=
          SendNal(nalUnits[nalIndex], isLastNal, rtpTimestamp, sequence, packets, k, old(sent));
        if !complete {
          return;
        }
      }
      assert packets[..|packets|] == packets;
      nextSequence := sequence;
      complete := true;
    }

    /** One NAL unit, whose packets are those of the frame from the k-th on. */
    method SendNal(nal: Nal, isLastNal: bool, rtpTimestamp: nat, start: nat,
                   ghost packets: seq<Packet>, ghost k: nat, ghost before: seq<Packet>)
      returns (ok: bool, sequence: nat, ghost k': nat)
      requires nal != [] && k + |Payloads(nal)| <= |packets|
      requires forall j | 0 <= j < |Payloads(nal)| ::
        packets[k + j] == Packet(Wrap(nextSequence + k + j), rtpTimestamp,
                                 isLastNal && j == |Payloads(nal)| - 1, Payloads(nal)[j])
      requires start == Wrap(nextSequence + k) && sent == before + packets[..k]
      modifies this`sent
      ensures k <= k' <= |packets| && sent == before + packets[..k']
      ensures ok ==> k' == k + |Payloads(nal)| && sequence == Wrap(nextSequence + k')
    {
      hide Wrap, FuIndicator, FuHeader, FragmentsFrom;
      sequence, k' := start, k;
      ghost var count := |Payloads(nal)|;
      PayloadBounds(nal);
      if |nal| <= RTP_PAYLOAD_BYTES {
        assert Payloads(nal) == [nal] && Payloads(nal)[0] == nal;
        assert nextSequence + k + 0 == nextSequence + k;
        assert packets[k] == Packet(sequence, rtpTimestamp, isLastNal, nal);
        ok, sequence := SendRtp(Packet(sequence, rtpTimestamp, isLastNal, nal), packets, k, before);
        WrapNext(nextSequence + k);
        k' := if ok then k + 1 else k;
        return;
      }
      hide Payloads, FragmentEnd;
      var fuIndicator := FuIndicator(nal[0]);
      var fragment := nal[1..];
      var offset := 0;
      ghost var i := 0;
      while offset < |fragment|
        invariant 0 <= i <= count && k' == k + i
        invariant offset < |fragment| <==> i < count
        invariant i < count ==> offset == i * FRAGMENT_BYTES
        invariant sequence == Wrap(nextSequence + k')
        invariant sent == before + packets[..k']
        decreases count - i
      {
        FragmentCut(nal, offset, i);
        var end := FragmentEnd(nal, offset);
        var chunk := fragment[offset..end];
        var last := offset + |chunk| >= |fragment|;
        var payload := [fuIndicator, FuHeader(offset == 0, last, nal[0])] + chunk;
        assert packets[k + i] == Packet(sequence, rtpTimestamp, isLastNal && last, payload);
        ok, sequence := SendRtp(Packet(sequence, rtpTimestamp, isLastNal && last, payload), packets, k', before);
        if !ok {
          return;
        }
        WrapNext(nextSequence + k');
        i, k' := i + 1, k' + 1;
        offset := offset + |chunk|;
      }
      ok := true;
    }
  }
}
