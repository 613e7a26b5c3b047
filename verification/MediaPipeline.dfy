/**
 * The H.264 path end to end: encoder output, Annex-B splitting, AVCC packing, host records, record
 * reading, AVCC splitting, RTP packetization and an RFC 6184 receiver.
 */
module MediaPipeline {
  import opened Options
  import opened Bytes
  import opened AnnexB
  import opened AnnexBStream
  import H = HostRecord
  import R = Rtp

  // ---------------------------------------------------------------- sizes

  lemma {:induction false} PackedSize(nals: seq<Nal>)
    requires AvccBytes(nals) < TWO_TO_THE_32
    ensures H.Packable(nals) && |H.Avcc(nals)| == AvccBytes(nals)
  {
    if nals != [] {
      PackedSize(nals[1..]);
      assert forall i | 0 < i < |nals| :: nals[i] == nals[1..][i - 1];
    }
  }

  lemma {:induction false} PictureSize(p: Picture)
    requires WellFormedPicture(p)
    ensures H.Packable(Nals(p.units))
    ensures 1 <= |H.Avcc(Nals(p.units))| <= MAX_HOST_FRAME_BYTES - 9
  {
    PackedSize(Nals(p.units));
  }

  lemma {:induction false} AllPackable(pictures: seq<Picture>)
    requires WellFormedPictures(pictures)
    ensures forall i | 0 <= i < |pictures| :: H.Packable(Nals(pictures[i].units))
    ensures forall i | 0 <= i < |Owed(pictures)| :: H.Packable(Owed(pictures)[i].units)
  {
    forall i | 0 <= i < |pictures|
      ensures H.Packable(Nals(pictures[i].units))
    {
      PictureSize(pictures[i]);
    }
  }

  // ---------------------------------------------------------------- what is written and what is owed

  /** A record the host gets to write: an access unit with its metadata, or an editable notice.
      The latest-frame writer may skip access units, so any choice of indices is allowed. */
  datatype Written =
    | Shot(index: nat, timestamp: int, width: int, height: int)
    | Notice(editable: bool)

  ghost predicate SendablePictures(pictures: seq<Picture>) {
    && WellFormedPictures(pictures)
    && forall i, j | 0 <= i < |pictures| && 0 <= j < |pictures[i].units| ::
         1 <= NalType(pictures[i].units[j].nal) <= 23
  }

  predicate ValidShots(count: nat, written: seq<Written>) {
    forall i | 0 <= i < |written| && written[i].Shot? ::
      var w := written[i];
      && w.index < count
      && 0 <= w.timestamp <= H.MAX_SAFE_INTEGER
      && 1 <= w.width <= 65535 && 1 <= w.height <= 65535
  }

  /** The records the host submits for these access units. */
  function Records(units: seq<AccessUnit>, written: seq<Written>): (r: seq<H.Record>)
    requires ValidShots(|units|, written)
    requires forall i | 0 <= i < |units| :: H.Packable(units[i].units)
  {
    if written == [] then []
    else
      var w := written[0];
      var record := match w
        case Shot(i, timestamp, width, height) =>
          H.FrameOf(H.Avcc(units[i].units), timestamp, units[i].keyframe, width, height)
        case Notice(editable) => H.EditableOf(editable);
      [record] + Records(units, written[1..])
  }

  /** The frames among the reader's callbacks. */
  function FramesOf(events: seq<H.Event>): seq<H.EncodedHostFrame> {
    if events == [] then []
    else (if events[0].Frame? then [events[0].frame] else []) + FramesOf(events[1..])
  }

  /** The packets for a run of frames, each split and sent from where the last one stopped. */
  function Transmit(frames: seq<H.EncodedHostFrame>, n: nat): seq<R.Packet> {
    if frames == [] then []
    else
      var packets := R.Packetize(H.SplitUnits(frames[0].avcc), frames[0].rtpTimestamp, n);
      packets + Transmit(frames[1..], n + |packets|)
  }

  /** What a viewer is owed: the NAL units of each access unit written, at its 32-bit timestamp. */
  function Shown(pictures: seq<Picture>, written: seq<Written>): seq<R.Received>
    requires ValidShots(|pictures|, written)
  {
    if written == [] then []
    else
      (match written[0]
       case Shot(i, timestamp, _, _) => [R.Received(timestamp % TWO_TO_THE_32, Nals(pictures[i].units))]
       case Notice(_) => [])
      + Shown(pictures, written[1..])
  }

  /** The frames the server side is owed, with their key flags and sizes. */
  ghost function Delivered(pictures: seq<Picture>, written: seq<Written>): seq<H.EncodedHostFrame>
    requires WellFormedPictures(pictures) && ValidShots(|pictures|, written)
  {
    if written == [] then []
    else
      (match written[0]
       case Shot(i, timestamp, width, height) =>
         PictureSize(pictures[i]);
         var nals := Nals(pictures[i].units);
         [H.EncodedHostFrame(timestamp % TWO_TO_THE_32, KeyPicture(pictures[i]), width, height, H.Avcc(nals))]
       case Notice(_) => [])
      + Delivered(pictures, written[1..])
  }

  /** The access units among what is written. */
  function Shots(written: seq<Written>): (r: seq<Written>)
    ensures forall k | 0 <= k < |r| :: r[k].Shot? && r[k] in written
  {
    if written == [] then []
    else (if written[0].Shot? then [written[0]] else []) + Shots(written[1..])
  }

  /** One frame is owed for each of them, with its own metadata, and marked as a keyframe exactly if its
      picture holds an IDR slice. */
  lemma {:induction false} DeliveredShots(pictures: seq<Picture>, written: seq<Written>)
    requires WellFormedPictures(pictures) && ValidShots(|pictures|, written)
    ensures |Delivered(pictures, written)| == |Shots(written)|
    ensures forall k | 0 <= k < |Shots(written)| ::
      var shot, frame := Shots(written)[k], Delivered(pictures, written)[k];
      && shot.index < |pictures|
      && frame.rtpTimestamp == shot.timestamp % TWO_TO_THE_32
      && frame.width == shot.width && frame.height == shot.height
      && (frame.keyframe <==> KeyPicture(pictures[shot.index]))
    decreases |written|
  {
    hide H.Avcc, Nals, WellFormedPicture, KeyPicture;
    if written != [] {
      DeliveredShots(pictures, written[1..]);
    }
  }

  // ---------------------------------------------------------------- host to server

  lemma {:induction false} RecordsDelivered(pictures: seq<Picture>, written: seq<Written>)
    requires WellFormedPictures(pictures) && ValidShots(|pictures|, written)
    requires forall i | 0 <= i < |pictures| :: H.Packable(Owed(pictures)[i].units)
    ensures var records := Records(Owed(pictures), written);
      && (forall i | 0 <= i < |records| :: H.ValidRecord(records[i]))
      && FramesOf(H.EventsOf(records)) == Delivered(pictures, written)
    decreases |written|
  {
    if written != [] {
      var records, rest := Records(Owed(pictures), written), Records(Owed(pictures), written[1..]);
      RecordsDelivered(pictures, written[1..]);
      if written[0].Shot? {
        PictureSize(pictures[written[0].index]);
      }
      assert records[1..] == rest;
      assert H.EventsOf(records)[1..] == H.EventsOf(rest);
    }
  }

  // ---------------------------------------------------------------- server to viewer

  /** The receiver after one written access unit has been split and sent from position n on. */
  lemma {:induction false} TransmitOne(p: Picture, timestamp: nat, r: R.Receiver, n: nat)
    requires WellFormedPicture(p) && forall j | 0 <= j < |p.units| :: 1 <= NalType(p.units[j].nal) <= 23
    requires R.InStep(r, n) && r.partial.None? && r.nals == []
    ensures H.Packable(Nals(p.units))
    ensures var packets := R.Packetize(H.SplitUnits(H.Avcc(Nals(p.units))), timestamp, n);
      R.ReceiveAll(r, packets) == R.Receiver(
        Some(R.Wrap(n + |packets|)), None, [], r.pictures + [R.Received(timestamp, Nals(p.units))], false)
  {
    hide H.Avcc, H.SplitRest, H.SplitUnits, R.Packetize, R.ReceiveAll, R.Wrap, AvccBytes;
    PictureSize(p);
    var nals := Nals(p.units);
    assert nals != [] && forall i | 0 <= i < |nals| :: nals[i] != [] && R.Sendable(nals[i]);
    H.SplitInvertsAvcc(nals);
    R.FrameRoundTrip(nals, r, timestamp, n);
    assert [] + nals == nals;
  }

  lemma {:induction false} ReceiveNothing(r: R.Receiver)
    ensures R.ReceiveAll(r, []) == r
  {
  }

  lemma {:induction false} TransmitShown(pictures: seq<Picture>, written: seq<Written>, r: R.Receiver, n: nat)
    requires SendablePictures(pictures) && ValidShots(|pictures|, written)
    requires R.InStep(r, n) && r.partial.None? && r.nals == []
    ensures var packets := Transmit(Delivered(pictures, written), n);
      && !R.ReceiveAll(r, packets).broken
      && R.ReceiveAll(r, packets).pictures == r.pictures + Shown(pictures, written)
    decreases |written|
  {
    hide H.Avcc, H.SplitUnits, R.Packetize, R.Wrap, R.ReceiveAll, Nals, WellFormedPicture;
    assert R.ReceiveAll(r, []) == r by { ReceiveNothing(r); }
    var frames := Delivered(pictures, written);
    if written == [] {
      assert r.pictures + [] == r.pictures;
    } else if written[0].Notice? {
      assert frames == Delivered(pictures, written[1..]);
      assert Shown(pictures, written) == Shown(pictures, written[1..]);
      TransmitShown(pictures, written[1..], r, n);
    } else {
      var p, timestamp := pictures[written[0].index], written[0].timestamp % TWO_TO_THE_32;
      TransmitOne(p, timestamp, r, n);
      assert frames[1..] == Delivered(pictures, written[1..]);
      var packets := R.Packetize(H.SplitUnits(frames[0].avcc), timestamp, n);
      var rest := Transmit(frames[1..], n + |packets|);
      var r' := R.ReceiveAll(r, packets);
      R.ReceiveConcat(r, packets, rest);
      TransmitShown(pictures, written[1..], r', n + |packets|);
      assert r.pictures + [R.Received(timestamp, Nals(p.units))] + Shown(pictures, written[1..])
          == r.pictures + Shown(pictures, written);
    }
  }

  /** The bytes on the host's stdout: the records of what is written, printed. */
  ghost function Wire(pictures: seq<Picture>, written: seq<Written>): seq<Byte>
    requires WellFormedPictures(pictures) && ValidShots(|pictures|, written)
  {
    AllPackable(pictures);
    RecordsDelivered(pictures, written);
    H.Print(Records(Owed(pictures), written))
  }

  /**
   * End to end. Cut the encoder's stream into any chunks, write any of the access units it yields
   * with any metadata among any editable notices, cut the record stream into any chunks, and send
   * every frame read: a receiver gets exactly the original NAL units of each access unit written, in
   * order, and the reader hands over their key flags, sizes and timestamps mod 2^32.
   */
  lemma {:induction false} EndToEnd(
      pictures: seq<Picture>, encoded: seq<seq<Byte>>,
      written: seq<Written>, piped: seq<seq<Byte>>, n: nat)
    requires SendablePictures(pictures) && ValidShots(|pictures|, written)
    requires Flatten(encoded) == Print(Pieces(pictures))
    requires Flatten(piped) == Wire(pictures, written)
    ensures !Pushes(encoded).assembly.threw
    ensures AfterEnd(Pushes(encoded)).assembly.emitted == Owed(pictures)
    ensures !H.Pushes(piped).failed && !H.AfterEnd(H.Pushes(piped)).failed
    ensures FramesOf(H.Pushes(piped).events) == Delivered(pictures, written)
    ensures |FramesOf(H.Pushes(piped).events)| == |Shots(written)|
    ensures forall k | 0 <= k < |Shots(written)| ::
      var shot, frame := Shots(written)[k], FramesOf(H.Pushes(piped).events)[k];
      var units := pictures[shot.index].units;
      && frame.rtpTimestamp == shot.timestamp % TWO_TO_THE_32
      && frame.width == shot.width && frame.height == shot.height
      && (frame.keyframe <==> exists j | 0 <= j < |units| :: units[j].nal[0] % 32 == 5)
    ensures var viewer := R.ReceiveAll(R.NEW_RECEIVER, Transmit(FramesOf(H.Pushes(piped).events), n));
      !viewer.broken && viewer.pictures == Shown(pictures, written)
  {
    AnnexBRoundTrip(pictures, encoded);
    AllPackable(pictures);
    RecordsDelivered(pictures, written);
    H.HostRecordRoundTrip(Records(Owed(pictures), written), piped);
    TransmitShown(pictures, written, R.NEW_RECEIVER, n);
    DeliveredShots(pictures, written);
    assert [] + Shown(pictures, written) == Shown(pictures, written);
  }
}
