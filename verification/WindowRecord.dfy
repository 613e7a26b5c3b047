/** JPEG frames as host records, and `WebSocketWindowHostRecordParser`, which reads them. */
module WindowRecord {
  import opened Options
  import opened Bytes
  import HostRecord
  import JpegFrames

  // ---------------------------------------------------------------- printing

  predicate ValidJpeg(jpeg: seq<Byte>, width: int, height: int) {
    && 4 <= |jpeg| <= MAX_HOST_FRAME_BYTES - 4
    && jpeg[..2] == JpegFrames.SOI && jpeg[|jpeg| - 2..] == JpegFrames.EOI
    && 1 <= width <= 65535 && 1 <= height <= 65535
  }

  function JpegPayload(jpeg: seq<Byte>, width: nat, height: nat): seq<Byte>
    requires width < TWO_TO_THE_16 && height < TWO_TO_THE_16
  {
    U16(width) + U16(height) + jpeg
  }

  /** `jpegFrameRecord`; None is the thrown error. */
  function JpegBytes(jpeg: seq<Byte>, width: int, height: int): Option<seq<Byte>> {
    if !ValidJpeg(jpeg, width, height) then None
    else Some(HostRecord.Framed(2, JpegPayload(jpeg, width, height)))
  }

  method JpegFrameRecord(jpeg: seq<Byte>, width: int, height: int) returns (ok: bool, record: array<Byte>)
    ensures fresh(record)
    ensures JpegBytes(jpeg, width, height) == if ok then Some(record[..]) else None
  {
    if |jpeg| < 4 || |jpeg| > MAX_HOST_FRAME_BYTES - 4
      || jpeg[..2] != JpegFrames.SOI || jpeg[|jpeg| - 2..] != JpegFrames.EOI
      || width < 1 || width > 65535 || height < 1 || height > 65535
    {
      record := new Byte[0];
      return false, record;
    }
    var payload := new Byte[4 + |jpeg|];
    HostRecord.Append(payload, 0, U16(width));
    HostRecord.Append(payload, 2, U16(height));
    HostRecord.Append(payload, 4, jpeg);
    assert payload[..] == payload[..4 + |jpeg|] == JpegPayload(jpeg, width, height);
    record := HostRecord.WriteRecord(2, payload);
    return true, record;
  }

  /** A frame the splitter emits is accepted exactly when it leaves room for the four bytes in front of
      it: the splitter's own bound is four bytes too generous. */
  lemma {:induction false} EmittedIsPrintable(jpeg: seq<Byte>, width: int, height: int)
    requires JpegFrames.Image(jpeg) && |jpeg| <= MAX_HOST_FRAME_BYTES
    requires 1 <= width <= 65535 && 1 <= height <= 65535
    ensures JpegBytes(jpeg, width, height).Some? <==> |jpeg| <= MAX_HOST_FRAME_BYTES - 4
  {
    assert jpeg[..2] == [jpeg[0], jpeg[1]];
    assert jpeg[|jpeg| - 2..] == [jpeg[|jpeg| - 2], jpeg[|jpeg| - 1]];
  }

  /** For each size in between there is an image that the splitter emits and no record can hold. */
  lemma {:induction false} OversizedImage(size: nat) returns (jpeg: seq<Byte>)
    requires MAX_HOST_FRAME_BYTES - 4 < size <= MAX_HOST_FRAME_BYTES
    ensures |jpeg| == size && JpegFrames.Pushes([jpeg]).frames == [jpeg]
    ensures forall width, height :: JpegBytes(jpeg, width, height).None?
  {
    jpeg := JpegFrames.SOI + seq(size - 4, _ => 0 as Byte) + JpegFrames.EOI;
    assert JpegFrames.Marker(jpeg, 0xD9, 2) == Some(size - 2) by {
      JpegFrames.MarkerIs(jpeg, 0xD9, 2, size - 2);
    }
    assert Flatten([jpeg]) == jpeg + Flatten([]) == jpeg;
    JpegFrames.ImagesRoundTrip([jpeg], [jpeg]);
  }

  // ---------------------------------------------------------------- reading

  datatype Event = Frame(data: seq<Byte>, width: nat, height: nat) | EditableFocus(editable: bool)

  datatype ReaderState = ReaderState(pending: seq<Byte>, threw: bool, events: seq<Event>)

  const NEW_READER := ReaderState([], false, [])

  /** One complete record, or None when the reader throws on it. */
  function Decode(payload: seq<Byte>): Option<Event>
    requires payload != []
  {
    if |payload| == 1 then
      if payload[0] > 1 then None else Some(EditableFocus(payload[0] == 1))
    else if |payload| < 8 then None
    else
      var width, height, data := ReadU16(payload, 0), ReadU16(payload, 2), payload[4..];
      if width < 1 || height < 1 || |data| < 4 || data[0] != 0xFF || data[1] != 0xD8
        || data[|data| - 2] != 0xFF || data[|data| - 1] != 0xD9
      then None
      else Some(Frame(data, width, height))
  }

  function ReadLoop(b: seq<Byte>, events: seq<Event>): ReaderState
    decreases |b|
  {
    if |b| < 5 then ReaderState(b, false, events)
    else
      var length := ReadU32(b, 1);
      if b[0] != 2 || length < 1 || length > MAX_HOST_FRAME_BYTES then ReaderState(b, true, events)
      else if |b| < 5 + length then ReaderState(b, false, events)
      else
        match Decode(b[5..5 + length])
        case None => ReaderState(b[5 + length..], true, events)
        case Some(event) => ReadLoop(b[5 + length..], events + [event])
  }

  /** The bound is tested on arrival, before any record is taken. After an error the reader is done. */
  function AfterPush(s: ReaderState, chunk: seq<Byte>): ReaderState {
    if s.threw || chunk == [] then s
    else if |s.pending + chunk| > MAX_HOST_FRAME_BYTES + 5 then s.(pending := s.pending + chunk, threw := true)
    else ReadLoop(s.pending + chunk, s.events)
  }

  class WindowHostRecordParser {
    var pending: seq<Byte>
    var threw: bool
    var events: seq<Event> // the callbacks made so far

    function View(): ReaderState
      reads this
    {
      ReaderState(pending, threw, events)
    }

    constructor ()
      ensures View() == NEW_READER
    {
      pending, threw, events := [], false, [];
    }

    method Push(chunk: seq<Byte>)
      requires !threw
      modifies this
      ensures View() == AfterPush(old(View()), chunk)
    {
      if |chunk| == 0 {
        return;
      }
      pending := pending + chunk;
      if |pending| > MAX_HOST_FRAME_BYTES + 5 {
        threw := true;
        return;
      }
      while |pending| >= 5
        invariant !threw
        invariant AfterPush(old(View()), chunk) == ReadLoop(pending, events)
        decreases |pending|
      {
        var length := ReadU32(pending, 1);
        if pending[0] != 2 || length < 1 || length > MAX_HOST_FRAME_BYTES {
          threw := true;
          return;
        }
        if |pending| < 5 + length {
          return;
        }
        var payload := pending[5..5 + length];
        pending := pending[5 + length..];
        if length == 1 {
          if payload[0] != 0 && payload[0] != 1 {
            threw := true;
            return;
          }
          events := events + [EditableFocus(payload[0] == 1)];
          continue;
        }
        if length < 8 {
          threw := true;
          return;
        }
        var width := ReadU16(payload, 0);
        var height := ReadU16(payload, 2);
        var data := payload[4..];
        if width < 1 || height < 1 || |data| < 4 || data[0] != 0xFF || data[1] != 0xD8
          || data[|data| - 2] != 0xFF || data[|data| - 1] != 0xD9
        {
          threw := true;
          return;
        }
        events := events + [Frame(data, width, height)];
      }
    }
  }

  // ---------------------------------------------------------------- chunks and the bound

  /** What reading more bytes makes of an earlier state. */
  predicate Continues(d: ReaderState, t: seq<Byte>, e: ReaderState) {
    if d.threw then e.threw && e.events == d.events else e == ReadLoop(d.pending + t, d.events)
  }

  lemma {:induction false} SameHeader(b: seq<Byte>, t: seq<Byte>)
    requires |b| >= 5
    ensures ReadU32(b + t, 1) == ReadU32(b, 1) && (b + t)[0] == b[0]
  {
  }

  lemma {:induction false} ReadLoopExtends(b: seq<Byte>, t: seq<Byte>, events: seq<Event>)
    ensures Continues(ReadLoop(b, events), t, ReadLoop(b + t, events))
    decreases |b|
  {
    hide Decode, ReadU32;
    if |b| >= 5 {
      SameHeader(b, t);
      var length := ReadU32(b, 1);
      if b[0] == 2 && 1 <= length <= MAX_HOST_FRAME_BYTES && |b| >= 5 + length {
        assert (b + t)[5..5 + length] == b[5..5 + length];
        assert (b + t)[5 + length..] == b[5 + length..] + t;
        var event := Decode(b[5..5 + length]);
        if event.Some? {
          hide Continues;
          ReadLoopExtends(b[5 + length..], t, events + [event.value]);
        }
      }
    }
  }

  function Pushes(chunks: seq<seq<Byte>>): ReaderState {
    if chunks == [] then NEW_READER else AfterPush(Pushes(chunks[..|chunks| - 1]), chunks[|chunks| - 1])
  }

  /** No arriving chunk finds more unread bytes than it leaves room for under the bound. */
  predicate WithinBound(chunks: seq<seq<Byte>>) {
    chunks == [] ||
    var init, last := chunks[..|chunks| - 1], chunks[|chunks| - 1];
    WithinBound(init) &&
    (ReadLoop(Flatten(init), []).threw || |ReadLoop(Flatten(init), []).pending| + |last| <= MAX_HOST_FRAME_BYTES + 5)
  }

  /** The reader throws exactly when the bytes hold a record it refuses or the bound is passed at some
      arrival; otherwise its state depends on the bytes only. */
  lemma {:induction false} ThrowsIff(chunks: seq<seq<Byte>>)
    ensures var p, d := Pushes(chunks), ReadLoop(Flatten(chunks), []);
      && (p.threw <==> d.threw || !WithinBound(chunks))
      && (WithinBound(chunks) ==> p.events == d.events)
      && (!p.threw ==> p == d)
    decreases |chunks|
  {
    if chunks != [] {
      var n := |chunks| - 1;
      var init, last := chunks[..n], chunks[n];
      assert chunks == init + [last];
      FlattenSnoc(init, last);
      ThrowsIff(init);
      ReadLoopExtends(Flatten(init), last, []);
      assert last == [] ==> Flatten(init) + last == Flatten(init);
      PendingIsShort(Flatten(init), []);
      hide ReadLoop;
    }
  }

  /** What is left unread is less than one record. */
  lemma {:induction false} PendingIsShort(b: seq<Byte>, events: seq<Event>)
    ensures !ReadLoop(b, events).threw ==> |ReadLoop(b, events).pending| <= MAX_HOST_FRAME_BYTES + 4
    decreases |b|
  {
    hide Decode;
    if |b| >= 5 {
      var length := ReadU32(b, 1);
      if b[0] == 2 && 1 <= length <= MAX_HOST_FRAME_BYTES && |b| >= 5 + length {
        var event := Decode(b[5..5 + length]);
        if event.Some? {
          PendingIsShort(b[5 + length..], events + [event.value]);
        }
      }
    }
  }

  // ---------------------------------------------------------------- round trip

  datatype Record = JpegOf(jpeg: seq<Byte>, width: int, height: int) | EditableOf(editable: bool)

  predicate ValidRecord(r: Record) {
    r.JpegOf? ==> ValidJpeg(r.jpeg, r.width, r.height)
  }

  predicate ValidRecords(records: seq<Record>) {
    forall i | 0 <= i < |records| :: ValidRecord(records[i])
  }

  function PrintRecord(r: Record): seq<Byte>
    requires ValidRecord(r)
  {
    match r
    case JpegOf(jpeg, width, height) => JpegBytes(jpeg, width, height).value
    case EditableOf(editable) => HostRecord.EditableBytes(editable)
  }

  function PrintEach(records: seq<Record>): seq<seq<Byte>>
    requires ValidRecords(records)
  {
    if records == [] then [] else [PrintRecord(records[0])] + PrintEach(records[1..])
  }

  function Print(records: seq<Record>): seq<Byte>
    requires ValidRecords(records)
  {
    Flatten(PrintEach(records))
  }

  function EventOf(r: Record): Event
    requires ValidRecord(r)
  {
    match r
    case JpegOf(jpeg, width, height) => Frame(jpeg, width, height)
    case EditableOf(editable) => EditableFocus(editable)
  }

  function EventsOf(records: seq<Record>): seq<Event>
    requires ValidRecords(records)
  {
    if records == [] then [] else [EventOf(records[0])] + EventsOf(records[1..])
  }

  lemma {:induction false} DecodeJpeg(jpeg: seq<Byte>, width: nat, height: nat)
    requires ValidJpeg(jpeg, width, height)
    ensures var payload := JpegPayload(jpeg, width, height);
      8 <= |payload| <= MAX_HOST_FRAME_BYTES && Decode(payload) == Some(Frame(jpeg, width, height))
  {
    var payload := JpegPayload(jpeg, width, height);
    ReadU16Slice(payload, 0);
    ReadU16Slice(payload, 2);
    assert payload[0..2] == U16(width) && payload[2..4] == U16(height);
    assert payload[4..] == jpeg;
    assert jpeg[..2][0] == jpeg[0] && jpeg[..2][1] == jpeg[1];
    var tail := jpeg[|jpeg| - 2..];
    assert tail[0] == jpeg[|jpeg| - 2] && tail[1] == jpeg[|jpeg| - 1];
  }

  lemma {:induction false} ReadOne(r: Record, rest: seq<Byte>, events: seq<Event>)
    requires ValidRecord(r)
    ensures ReadLoop(PrintRecord(r) + rest, events) == ReadLoop(rest, events + [EventOf(r)])
    ensures PrintRecord(r) != []
  {
    var payload := match r
      case JpegOf(jpeg, width, height) => JpegPayload(jpeg, width, height)
      case EditableOf(editable) => [if editable then 1 else 0];
    HostRecord.FramedFields(2, payload, rest);
    if r.JpegOf? {
      DecodeJpeg(r.jpeg, r.width, r.height);
    }
    hide JpegPayload;
  }

  lemma {:induction false} ReadPrinted(records: seq<Record>, events: seq<Event>)
    requires ValidRecords(records)
    ensures ReadLoop(Print(records), events) == ReaderState([], false, events + EventsOf(records))
    decreases |records|
  {
    hide ReadLoop, PrintRecord, EventOf;
    if records == [] {
      assert events + EventsOf(records) == events;
      EmptyRead(events);
    } else {
      ReadOne(records[0], Print(records[1..]), events);
      ReadPrinted(records[1..], events + [EventOf(records[0])]);
      assert events + [EventOf(records[0])] + EventsOf(records[1..]) == events + EventsOf(records);
    }
  }

  lemma {:induction false} EmptyRead(events: seq<Event>)
    ensures ReadLoop([], events) == ReaderState([], false, events)
  {
  }

  /** Printed records are read back exactly if and only if the bound is respected at every arrival. */
  lemma {:induction false} WindowRecordRoundTrip(records: seq<Record>, chunks: seq<seq<Byte>>)
    requires ValidRecords(records) && Flatten(chunks) == Print(records)
    ensures Pushes(chunks) == ReaderState([], false, EventsOf(records)) <==> WithinBound(chunks)
    ensures Pushes(chunks).threw <==> !WithinBound(chunks)
  {
    ThrowsIff(chunks);
    ReadPrinted(records, []);
    assert [] + EventsOf(records) == EventsOf(records);
  }

  /** One record per chunk always respects the bound; everything in one chunk does not once the bytes
      pass it, though the records are the same. */
  lemma {:induction false} BoundDependsOnChunks(records: seq<Record>)
    requires ValidRecords(records)
    ensures Pushes(PrintEach(records)) == ReaderState([], false, EventsOf(records))
    ensures |Print(records)| > MAX_HOST_FRAME_BYTES + 5 ==> Pushes([Print(records)]).threw
  {
    RecordPerChunk(records, |records|);
    assert records[..|records|] == records;
    WindowRecordRoundTrip(records, PrintEach(records));
    assert [Print(records)][..0] == [];
    hide ReadLoop;
  }

  lemma {:induction false} PrintEachSnoc(records: seq<Record>, r: Record)
    requires ValidRecords(records) && ValidRecord(r)
    ensures PrintEach(records + [r]) == PrintEach(records) + [PrintRecord(r)]
    decreases |records|
  {
    if records == [] {
      assert (records + [r])[1..] == [];
    } else {
      assert (records + [r])[1..] == records[1..] + [r];
      PrintEachSnoc(records[1..], r);
    }
  }

  lemma {:induction false} RecordPerChunk(records: seq<Record>, n: nat)
    requires ValidRecords(records) && n <= |records|
    ensures WithinBound(PrintEach(records[..n]))
    decreases n
  {
    hide ReadLoop, PrintRecord;
    if n == 0 {
      assert PrintEach(records[..0]) == [];
    } else {
      var init, r := records[..n - 1], records[n - 1];
      RecordPerChunk(records, n - 1);
      assert records[..n] == init + [r];
      PrintEachSnoc(init, r);
      var chunks := PrintEach(records[..n]);
      assert chunks[..|chunks| - 1] == PrintEach(init) && chunks[|chunks| - 1] == PrintRecord(r);
      ReadPrinted(init, []);
      RecordSize(r);
    }
  }

  lemma {:induction false} RecordSize(r: Record)
    requires ValidRecord(r)
    ensures |PrintRecord(r)| <= MAX_HOST_FRAME_BYTES + 5
  {
  }

  // ---------------------------------------------------------------- end to end

  function Printed(frames: seq<seq<Byte>>, width: int, height: int): seq<Record> {
    seq(|frames|, i requires 0 <= i < |frames| => JpegOf(frames[i], width, height))
  }

  /** A stream of JPEG images, cut anywhere on its way into the host and cut again, within the bound, on
      its way to the server, arrives as exactly those images with their size. */
  lemma {:induction false} JpegEndToEnd(images: seq<seq<Byte>>, stream: seq<seq<Byte>>, wire: seq<seq<Byte>>,
                                        width: int, height: int)
    requires JpegFrames.Images(images) && Flatten(stream) == Flatten(images)
    requires forall i | 0 <= i < |images| :: |images[i]| <= MAX_HOST_FRAME_BYTES - 4
    requires 1 <= width <= 65535 && 1 <= height <= 65535
    ensures JpegFrames.Pushes(stream).frames == images && ValidRecords(Printed(images, width, height))
    ensures Flatten(wire) == Print(Printed(images, width, height)) && WithinBound(wire) ==>
      && !Pushes(wire).threw && |Pushes(wire).events| == |images|
      && forall i | 0 <= i < |images| :: Pushes(wire).events[i] == Frame(images[i], width, height)
  {
    JpegFrames.ImagesRoundTrip(images, stream);
    var records := Printed(images, width, height);
    forall i | 0 <= i < |images|
      ensures ValidRecord(records[i])
    {
      EmittedIsPrintable(images[i], width, height);
    }
    if Flatten(wire) == Print(records) && WithinBound(wire) {
      WindowRecordRoundTrip(records, wire);
      EventsAt(records);
    }
  }

  lemma {:induction false} EventsAt(records: seq<Record>)
    requires ValidRecords(records)
    ensures |EventsOf(records)| == |records|
    ensures forall i | 0 <= i < |records| :: EventsOf(records)[i] == EventOf(records[i])
    decreases |records|
  {
    if records != [] {
      EventsAt(records[1..]);
    }
  }
}
