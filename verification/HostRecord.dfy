/**
 * The records the Linux host writes to its stdout and the incremental reader on the server side:
 * AVCC packing, length-prefixed frame and editable records, `HostRecordParser` and `splitAvcc`.
 */
module HostRecord {
  import opened Options
  import opened Bytes

  // ---------------------------------------------------------------- buffers filled in place

  method WriteAt(out: array<Byte>, offset: nat, s: seq<Byte>)
    requires offset + |s| <= out.Length
    modifies out
    ensures out[offset..offset + |s|] == s
    ensures out[..offset] == old(out[..offset])
    ensures out[offset + |s|..] == old(out[offset + |s|..])
  {
    for i := 0 to |s|
      invariant out[offset..offset + i] == s[..i]
      invariant out[..offset] == old(out[..offset])
      invariant out[offset + i..] == old(out[offset + i..])
    {
      assert out[offset + i + 1..] == out[offset + i..][1..];
      out[offset + i] := s[i];
      assert out[offset..offset + i + 1] == out[offset..offset + i] + [s[i]];
    }
    assert s[..|s|] == s;
  }

  /** Appending at the moving offset: the part already written stays. */
  method Append(out: array<Byte>, offset: nat, s: seq<Byte>)
    requires offset + |s| <= out.Length
    modifies out
    ensures out[..offset + |s|] == old(out[..offset]) + s
  {
    WriteAt(out, offset, s);
    assert out[..offset + |s|] == out[..offset] + out[offset..offset + |s|];
  }

  // ---------------------------------------------------------------- AVCC

  predicate Packable(units: seq<Nal>) {
    forall i | 0 <= i < |units| :: |units[i]| < TWO_TO_THE_32
  }

  /** Four-byte lengths in front of the units, section 5.3.4.2 of ISO/IEC 14496-15. */
  function Avcc(units: seq<Nal>): seq<Byte>
    requires Packable(units)
  {
    if units == [] then [] else U32(|units[0]|) + units[0] + Avcc(units[1..])
  }

  lemma {:induction false} AvccSnoc(units: seq<Nal>, nal: Nal)
    requires Packable(units) && |nal| < TWO_TO_THE_32
    ensures Avcc(units + [nal]) == Avcc(units) + U32(|nal|) + nal
  {
    if units == [] {
      assert (units + [nal])[1..] == [];
    } else {
      assert (units + [nal])[1..] == units[1..] + [nal];
      AvccSnoc(units[1..], nal);
    }
  }

  lemma {:induction false} AvccAppend(left: seq<Nal>, right: seq<Nal>)
    requires Packable(left) && Packable(right)
    ensures Avcc(left + right) == Avcc(left) + Avcc(right)
  {
    if left == [] {
      assert left + right == right;
    } else {
      assert (left + right)[1..] == left[1..] + right;
      AvccAppend(left[1..], right);
    }
  }

  /** The room the copy loop has left at unit i, and what it has written after it. */
  lemma {:induction false} AvccAt(units: seq<Nal>, i: nat)
    requires Packable(units) && i < |units|
    ensures Avcc(units[..i + 1]) == Avcc(units[..i]) + U32(|units[i]|) + units[i]
    ensures |Avcc(units[..i + 1])| == |Avcc(units[..i])| + 4 + |units[i]| <= |Avcc(units)|
  {
    AvccSnoc(units[..i], units[i]);
    assert units[..i + 1] == units[..i] + [units[i]];
    AvccAppend(units[..i + 1], units[i + 1..]);
    assert units == units[..i + 1] + units[i + 1..];
  }

  method AvccFromNalUnits(units: seq<Nal>) returns (out: array<Byte>)
    requires Packable(units)
    ensures fresh(out) && out[..] == Avcc(units)
  {
    var total := 0;
    for i := 0 to |units|
      invariant total == |Avcc(units[..i])|
    {
      AvccAt(units, i);
      total := total + 4 + |units[i]|;
    }
    assert units[..|units|] == units;
    out := new Byte[total];
    var offset := 0;
    for i := 0 to |units|
      invariant fresh(out) && out.Length == |Avcc(units)|
      invariant offset == |Avcc(units[..i])| <= out.Length
      invariant out[..offset] == Avcc(units[..i])
    {
      AvccAt(units, i);
      WriteUnit(out, offset, units[i]);
      offset := offset + 4 + |units[i]|;
    }
    assert out[..offset] == out[..];
  }

  method WriteUnit(out: array<Byte>, offset: nat, unit: Nal)
    requires |unit| < TWO_TO_THE_32 && offset + 4 + |unit| <= out.Length
    modifies out
    ensures out[..offset + 4 + |unit|] == old(out[..offset]) + U32(|unit|) + unit
  {
    Append(out, offset, U32(|unit|));
    Append(out, offset + 4, unit);
  }

  /** The split of a sample whose first units are already known. */
  function Prefixed(done: seq<Nal>, rest: Option<seq<Nal>>): Option<seq<Nal>> {
    match rest case None => None case Some(units) => Some(done + units)
  }

  /** `splitAvcc` from some offset on; None when a length is zero or overruns the sample. */
  function SplitRest(s: seq<Byte>): Option<seq<Nal>> {
    if |s| < 4 then if s == [] then Some([]) else None
    else
      var length := ReadU32(s, 0);
      if length < 1 || 4 + length > |s| then None
      else Prefixed([s[4..4 + length]], SplitRest(s[4 + length..]))
  }

  function SplitUnits(s: seq<Byte>): seq<Nal> {
    match SplitRest(s) case None => [] case Some(units) => units
  }

  lemma {:induction false} PrefixedTwice(left: seq<Nal>, right: seq<Nal>, rest: Option<seq<Nal>>)
    ensures Prefixed(left, Prefixed(right, rest)) == Prefixed(left + right, rest)
    ensures Prefixed([], rest) == rest
  {
    if rest.Some? {
      assert left + (right + rest.value) == left + right + rest.value;
      assert [] + rest.value == rest.value;
    }
  }

  lemma {:induction false} SplitStep(sample: seq<Byte>, offset: nat, done: seq<Nal>)
    requires offset + 4 <= |sample|
    ensures var start, length := offset + 4, ReadU32(sample, offset);
      if length < 1 || start + length > |sample|
      then SplitRest(sample[offset..]).None?
      else (Prefixed(done, SplitRest(sample[offset..])) ==
            Prefixed(done + [sample[start..start + length]], SplitRest(sample[start + length..])))
  {
    var rest, length := sample[offset..], ReadU32(sample, offset);
    ReadU32Slice(sample, offset);
    ReadU32Slice(rest, 0);
    assert rest[0..4] == sample[offset..offset + 4];
    if 1 <= length <= |rest| - 4 {
      assert rest[4..4 + length] == sample[offset + 4..offset + 4 + length];
      assert rest[4 + length..] == sample[offset + 4 + length..];
      PrefixedTwice(done, [rest[4..4 + length]], SplitRest(rest[4 + length..]));
    }
  }

  method SplitAvcc(sample: seq<Byte>) returns (nalUnits: seq<Nal>)
    ensures nalUnits == SplitUnits(sample)
  {
    hide ReadU32;
    nalUnits := [];
    var offset := 0;
    assert sample[0..] == sample;
    PrefixedTwice([], [], SplitRest(sample));
    while offset + 4 <= |sample|
      invariant offset <= |sample|
      invariant SplitRest(sample) == Prefixed(nalUnits, SplitRest(sample[offset..]))
      decreases |sample| - offset
    {
      SplitStep(sample, offset, nalUnits);
      var length := ReadU32(sample, offset);
      offset := offset + 4;
      if length < 1 || offset + length > |sample| {
        return [];
      }
      nalUnits := nalUnits + [sample[offset..offset + length]];
      offset := offset + length;
    }
    if offset != |sample| {
      return [];
    }
    assert nalUnits + [] == nalUnits;
  }

  lemma {:induction false} SplitInvertsAvcc(units: seq<Nal>)
    requires Packable(units) && forall i | 0 <= i < |units| :: units[i] != []
    ensures SplitUnits(Avcc(units)) == units && SplitRest(Avcc(units)) == Some(units)
  {
    if units != [] {
      SplitInvertsAvcc(units[1..]);
      var s, n := Avcc(units), |units[0]|;
      assert s[..4] == U32(n) && ReadU32(s, 0) == ReadU32(s[..4], 0);
      assert s[4..4 + n] == units[0];
      assert s[4 + n..] == Avcc(units[1..]);
    }
  }

  lemma {:induction false} PackOne(s: seq<Byte>, length: nat)
    requires 4 + length <= |s| && length == ReadU32(s, 0)
    ensures s == U32(length) + s[4..4 + length] + s[4 + length..]
  {
    ReadU32Slice(s, 0);
    U32OfRead(s[0..4]);
    assert s == s[0..4] + s[4..4 + length] + s[4 + length..];
  }

  /** The first unit of a sample that splits, and its rest. */
  lemma {:induction false} SplitOne(s: seq<Byte>)
    requires |s| >= 4 && SplitRest(s).Some?
    ensures var length := ReadU32(s, 0);
      && 1 <= length && 4 + length <= |s|
      && SplitRest(s[4 + length..]).Some?
      && SplitRest(s).value == [s[4..4 + length]] + SplitRest(s[4 + length..]).value
  {
    hide ReadU32;
  }

  predicate PackingOf(units: seq<Nal>, s: seq<Byte>) {
    Packable(units) && (forall i | 0 <= i < |units| :: units[i] != []) && Avcc(units) == s
  }

  lemma {:induction false} PackedFirst(unit: Nal, tail: seq<Nal>, rest: seq<Byte>)
    requires PackingOf(tail, rest) && 1 <= |unit| < TWO_TO_THE_32
    ensures PackingOf([unit] + tail, U32(|unit|) + unit + rest)
  {
    hide U32;
    assert ([unit] + tail)[1..] == tail;
  }

  /** The other direction: a sample that splits is the packing of what it splits into. */
  lemma {:induction false} AvccInvertsSplit(s: seq<Byte>)
    requires SplitRest(s).Some?
    ensures PackingOf(SplitRest(s).value, s)
    decreases |s|
  {
    if |s| >= 4 {
      hide SplitRest, ReadU32, U32, PackingOf;
      SplitOne(s);
      PackOne(s, ReadU32(s, 0));
      var length := ReadU32(s, 0);
      AvccInvertsSplit(s[4 + length..]);
      PackedFirst(s[4..4 + length], SplitRest(s[4 + length..]).value, s[4 + length..]);
    }
  }

  // ---------------------------------------------------------------- record printers

  datatype EncodedHostFrame =
    EncodedHostFrame(rtpTimestamp: nat, keyframe: bool, width: nat, height: nat, avcc: seq<Byte>)

  const MAX_SAFE_INTEGER: int := 0x1F_FFFF_FFFF_FFFF

  predicate SafeInteger(n: int) {
    -MAX_SAFE_INTEGER <= n <= MAX_SAFE_INTEGER
  }

  predicate ValidFrame(avcc: seq<Byte>, timestamp: int, width: int, height: int) {
    && 1 <= |avcc| <= MAX_HOST_FRAME_BYTES - 9
    && SafeInteger(timestamp) && 0 <= timestamp
    && 1 <= width <= 65535 && 1 <= height <= 65535
  }

  function Framed(kind: Byte, payload: seq<Byte>): seq<Byte>
    requires |payload| < TWO_TO_THE_32
  {
    [kind] + U32(|payload|) + payload
  }

  function FramePayload(avcc: seq<Byte>, timestamp: nat, keyframe: bool, width: nat, height: nat): seq<Byte>
    requires width < TWO_TO_THE_16 && height < TWO_TO_THE_16
  {
    U32(timestamp % TWO_TO_THE_32) + [if keyframe then 1 else 0] + U16(width) + U16(height) + avcc
  }

  /** `frameRecord`; None is the thrown error. */
  function FrameBytes(avcc: seq<Byte>, timestamp: int, keyframe: bool, width: int, height: int): Option<seq<Byte>> {
    if !ValidFrame(avcc, timestamp, width, height) then None
    else Some(Framed(1, FramePayload(avcc, timestamp, keyframe, width, height)))
  }

  function EditableBytes(editable: bool): seq<Byte> {
    Framed(2, [if editable then 1 else 0])
  }

  method FrameRecord(avcc: seq<Byte>, timestamp: int, keyframe: bool, width: int, height: int)
    returns (ok: bool, record: array<Byte>)
    ensures fresh(record)
    ensures FrameBytes(avcc, timestamp, keyframe, width, height) == if ok then Some(record[..]) else None
  {
    if |avcc| < 1 || |avcc| > MAX_HOST_FRAME_BYTES - 9 {
      record := new Byte[0];
      return false, record;
    }
    if !(SafeInteger(timestamp) && SafeInteger(width) && SafeInteger(height)) || timestamp < 0
      || width < 1 || width > 65535 || height < 1 || height > 65535
    {
      record := new Byte[0];
      return false, record;
    }
    var payload := new Byte[9 + |avcc|];
    Append(payload, 0, U32(timestamp % TWO_TO_THE_32));
    Append(payload, 4, [if keyframe then 1 else 0]);
    Append(payload, 5, U16(width));
    Append(payload, 7, U16(height));
    Append(payload, 9, avcc);
    assert payload[..] == payload[..9 + |avcc|] == FramePayload(avcc, timestamp, keyframe, width, height);
    record := WriteRecord(1, payload);
    return true, record;
  }

  method WriteRecord(kind: Byte, payload: array<Byte>) returns (record: array<Byte>)
    requires payload.Length < TWO_TO_THE_32
    ensures fresh(record) && record[..] == Framed(kind, payload[..])
  {
    record := new Byte[5 + payload.Length];
    Append(record, 0, [kind]);
    Append(record, 1, U32(payload.Length));
    Append(record, 5, payload[..]);
    assert record[..] == record[..5 + payload.Length];
  }

  method EditableRecord(editable: bool) returns (record: array<Byte>)
    ensures fresh(record) && record[..] == EditableBytes(editable)
  {
    record := new Byte[6];
    Append(record, 0, [2]);
    Append(record, 1, U32(1));
    Append(record, 5, [if editable then 1 else 0]);
    assert record[..] == record[..6];
  }

  // ---------------------------------------------------------------- the incremental reader

  /** The calls the reader makes to its three callbacks. */
  datatype Event = Frame(frame: EncodedHostFrame) | Editable(editable: bool) | Failure

  datatype ReaderState = ReaderState(buffer: seq<Byte>, failed: bool, events: seq<Event>)

  const NEW_READER := ReaderState([], false, [])

  function Failed(events: seq<Event>): ReaderState {
    ReaderState([], true, events + [Failure])
  }

  /** One complete record, or None when the reader fails on it. */
  function Decode(kind: Byte, payload: seq<Byte>): Option<Event> {
    if kind == 1 then
      if |payload| < 9 then None
      else
        var width, height, avcc := ReadU16(payload, 5), ReadU16(payload, 7), payload[9..];
        if width == 0 || height == 0 || avcc == [] then None
        else Some(Frame(EncodedHostFrame(ReadU32(payload, 0), payload[4] == 1, width, height, avcc)))
    else if kind == 2 then
      Some(Editable(payload != [] && payload[0] == 1))
    else None
  }

  function ReadLoop(buffer: seq<Byte>, events: seq<Event>): ReaderState
    decreases |buffer|
  {
    if |buffer| < 5 then ReaderState(buffer, false, events)
    else
      var kind, length := buffer[0], ReadU32(buffer, 1);
      if length > MAX_HOST_FRAME_BYTES || (kind == 2 && length != 1) then Failed(events)
      else if |buffer| < 5 + length then ReaderState(buffer, false, events)
      else
        match Decode(kind, buffer[5..5 + length])
        case None => Failed(events)
        case Some(event) => ReadLoop(buffer[5 + length..], events + [event])
  }

  function AfterPush(s: ReaderState, chunk: seq<Byte>): ReaderState {
    if s.failed || chunk == [] then s else ReadLoop(s.buffer + chunk, s.events)
  }

  function AfterEnd(s: ReaderState): ReaderState {
    if !s.failed && s.buffer != [] then Failed(s.events) else s
  }

  class HostRecordParser {
    var buffer: seq<Byte>
    var failed: bool
    var events: seq<Event> // the callbacks made so far

    function View(): ReaderState
      reads this
    {
      ReaderState(buffer, failed, events)
    }

    constructor ()
      ensures View() == NEW_READER
    {
      buffer, failed, events := [], false, [];
    }

    method Push(chunk: seq<Byte>)
      modifies this
      ensures View() == AfterPush(old(View()), chunk)
    {
      if failed || |chunk| == 0 {
        return;
      }
      buffer := buffer + chunk;
      while |buffer| >= 5
        invariant !failed
        invariant AfterPush(old(View()), chunk) == ReadLoop(buffer, events)
        decreases |buffer|
      {
        var kind := buffer[0];
        var length := ReadU32(buffer, 1);
        if length > MAX_HOST_FRAME_BYTES || (kind == 2 && length != 1) {
          Fail();
          return;
        }
        if |buffer| < 5 + length {
          return;
        }
        var payload := buffer[5..5 + length];
        if kind == 1 {
          if |payload| < 9 {
            Fail();
            return;
          }
          var rtpTimestamp := ReadU32(payload, 0);
          var keyframe := payload[4] == 1;
          var width := ReadU16(payload, 5);
          var height := ReadU16(payload, 7);
          var avcc := payload[9..];
          if width == 0 || height == 0 || |avcc| == 0 {
            Fail();
            return;
          }
          events := events + [Frame(EncodedHostFrame(rtpTimestamp, keyframe, width, height, avcc))];
        } else if kind == 2 {
          events := events + [Editable(payload[0] == 1)];
        } else {
          Fail();
          return;
        }
        buffer := buffer[5 + length..];
      }
    }

    method End()
      modifies this
      ensures View() == AfterEnd(old(View()))
    {
      if !failed && |buffer| != 0 {
        Fail();
      }
    }

    method Fail()
      modifies this
      ensures View() == if old(failed) then old(View()) else Failed(old(events))
    {
      if failed {
        return;
      }
      failed := true;
      buffer := [];
      events := events + [Failure];
    }
  }

  // ---------------------------------------------------------------- chunk independence

  lemma {:induction false} ReadLoopExtends(b: seq<Byte>, t: seq<Byte>, events: seq<Event>)
    ensures var d := ReadLoop(b, events);
      ReadLoop(b + t, events) == if d.failed then d else ReadLoop(d.buffer + t, d.events)
    decreases |b|
  {
    if |b| >= 5 {
      var kind, length := b[0], ReadU32(b, 1);
      assert ReadU32(b + t, 1) == length;
      if !(length > MAX_HOST_FRAME_BYTES || (kind == 2 && length != 1)) && |b| >= 5 + length {
        assert (b + t)[5..5 + length] == b[5..5 + length];
        assert (b + t)[5 + length..] == b[5 + length..] + t;
        var event := Decode(kind, b[5..5 + length]);
        if event.Some? {
          ReadLoopExtends(b[5 + length..], t, events + [event.value]);
        }
      }
    }
  }

  function Pushes(chunks: seq<seq<Byte>>): ReaderState {
    if chunks == [] then NEW_READER else AfterPush(Pushes(chunks[..|chunks| - 1]), chunks[|chunks| - 1])
  }

  /** Frames, editable notices and the failure notice depend on the bytes only, never on the chunks. */
  lemma {:induction false} ChunkIndependence(chunks: seq<seq<Byte>>)
    ensures Pushes(chunks) == ReadLoop(Flatten(chunks), [])
    decreases |chunks|
  {
    if chunks != [] {
      var n := |chunks| - 1;
      var init, last := chunks[..n], chunks[n];
      assert chunks == init + [last];
      FlattenSnoc(init, last);
      ChunkIndependence(init);
      ReadLoopExtends(Flatten(init), last, []);
      assert last == [] ==> Flatten(init) + last == Flatten(init);
    }
  }

  // ---------------------------------------------------------------- reading what was printed

  /** A record as the host submits it. */
  datatype Record =
    | FrameOf(avcc: seq<Byte>, timestamp: int, keyframe: bool, width: int, height: int)
    | EditableOf(editable: bool)

  predicate ValidRecord(r: Record) {
    r.FrameOf? ==> ValidFrame(r.avcc, r.timestamp, r.width, r.height)
  }

  function PrintRecord(r: Record): seq<Byte>
    requires ValidRecord(r)
  {
    match r
    case FrameOf(avcc, timestamp, keyframe, width, height) =>
      FrameBytes(avcc, timestamp, keyframe, width, height).value
    case EditableOf(editable) => EditableBytes(editable)
  }

  function Print(records: seq<Record>): seq<Byte>
    requires forall i | 0 <= i < |records| :: ValidRecord(records[i])
  {
    if records == [] then [] else PrintRecord(records[0]) + Print(records[1..])
  }

  /** What the reader owes its callbacks: the timestamp survives modulo 2^32. */
  function EventOf(r: Record): Event
    requires ValidRecord(r)
  {
    match r
    case FrameOf(avcc, timestamp, keyframe, width, height) =>
      Frame(EncodedHostFrame(timestamp % TWO_TO_THE_32, keyframe, width, height, avcc))
    case EditableOf(editable) => Editable(editable)
  }

  function EventsOf(records: seq<Record>): (r: seq<Event>)
    requires forall i | 0 <= i < |records| :: ValidRecord(records[i])
  {
    if records == [] then [] else [EventOf(records[0])] + EventsOf(records[1..])
  }

  lemma {:induction false} FrameFields(avcc: seq<Byte>, timestamp: nat, keyframe: bool, width: nat, height: nat)
    requires width < TWO_TO_THE_16 && height < TWO_TO_THE_16
    ensures var payload := FramePayload(avcc, timestamp, keyframe, width, height);
      && |payload| == 9 + |avcc|
      && ReadU32(payload, 0) == timestamp % TWO_TO_THE_32
      && (payload[4] == 1 <==> keyframe)
      && ReadU16(payload, 5) == width && ReadU16(payload, 7) == height
      && payload[9..] == avcc
  {
    var payload := FramePayload(avcc, timestamp, keyframe, width, height);
    ReadU32Slice(payload, 0);
    ReadU16Slice(payload, 5);
    ReadU16Slice(payload, 7);
    assert payload[0..4] == U32(timestamp % TWO_TO_THE_32);
    assert payload[5..7] == U16(width) && payload[7..9] == U16(height);
  }

  lemma {:induction false} FramedFields(kind: Byte, payload: seq<Byte>, rest: seq<Byte>)
    requires |payload| < TWO_TO_THE_32
    ensures var b := Framed(kind, payload) + rest;
      && |b| >= 5 && b[0] == kind && ReadU32(b, 1) == |payload|
      && |Framed(kind, payload)| == 5 + |payload|
      && b[5..5 + |payload|] == payload && b[5 + |payload|..] == rest
  {
    var b := Framed(kind, payload) + rest;
    ReadU32Slice(b, 1);
    assert b[1..5] == U32(|payload|);
  }

  lemma {:induction false} DecodePrinted(r: Record, rest: seq<Byte>)
    requires ValidRecord(r)
    ensures var b := PrintRecord(r) + rest;
      && |b| >= 5
      && var kind, length := b[0], ReadU32(b, 1);
      && length <= MAX_HOST_FRAME_BYTES && (kind == 2 ==> length == 1)
      && 5 + length == |PrintRecord(r)|
      && b[5 + length..] == rest
      && Decode(kind, b[5..5 + length]) == Some(EventOf(r))
  {
    var payload := match r
      case FrameOf(avcc, timestamp, keyframe, width, height) =>
        FramePayload(avcc, timestamp, keyframe, width, height)
      case EditableOf(editable) => [if editable then 1 else 0];
    var b := PrintRecord(r) + rest;
    FramedFields(if r.FrameOf? then 1 else 2, payload, rest);
    match r
    case FrameOf(avcc, timestamp, keyframe, width, height) =>
      FrameFields(avcc, timestamp, keyframe, width, height);
    case EditableOf(_) =>
  }

  lemma {:induction false} ReadPrinted(records: seq<Record>, events: seq<Event>)
    requires forall i | 0 <= i < |records| :: ValidRecord(records[i])
    ensures ReadLoop(Print(records), events) == ReaderState([], false, events + EventsOf(records))
    decreases |records|
  {
    if records == [] {
      assert events + EventsOf(records) == events;
    } else {
      DecodePrinted(records[0], Print(records[1..]));
      ReadPrinted(records[1..], events + [EventOf(records[0])]);
      assert events + [EventOf(records[0])] + EventsOf(records[1..]) == events + EventsOf(records);
    }
  }

  /** Any delivery of printed records is read back exactly, without a failure before or at `end`. */
  lemma {:induction false} HostRecordRoundTrip(records: seq<Record>, chunks: seq<seq<Byte>>)
    requires forall i | 0 <= i < |records| :: ValidRecord(records[i])
    requires Flatten(chunks) == Print(records)
    ensures Pushes(chunks) == AfterEnd(Pushes(chunks)) == ReaderState([], false, EventsOf(records))
  {
    ChunkIndependence(chunks);
    ReadPrinted(records, []);
    assert [] + EventsOf(records) == EventsOf(records);
  }
}
