/**
 * The wire formats byte by byte, and what the readers make of any bytes whatever: which records they take,
 * what they report of each, and where they stop.
 */
module WireFormats {
  import opened Options
  import opened Bytes
  import H = HostRecord
  import W = WindowRecord
  import J = JpegFrames

  /** The number that bytes stand for, the most significant one first. */
  function Big(s: seq<Byte>): nat {
    if s == [] then 0 else Big(s[..|s| - 1]) * 256 + s[|s| - 1] as int
  }

  lemma {:induction false} BigTwo(s: seq<Byte>, i: nat)
    requires i + 2 <= |s|
    ensures Big(s[i..i + 2]) == s[i] as int * 256 + s[i + 1] as int == ReadU16(s, i)
  {
    var b := s[i..i + 2];
    assert b[..1] == [s[i]] && [s[i]][..0] == [];
    assert Big([]) == 0 && Big([s[i]]) == s[i] as int;
  }

  lemma {:induction false} BigFour(s: seq<Byte>, i: nat)
    requires i + 4 <= |s|
    ensures Big(s[i..i + 4]) == ReadU32(s, i)
  {
    var b := s[i..i + 4];
    BigTwo(b, 0);
    assert b[0..2] == b[..2] == b[..3][..2] && b[..3] == b[..3 + 0];
    assert Big(b[..3]) == Big(b[..2]) * 256 + b[2];
  }

  // ---------------------------------------------------------------- what is written

  /** The number n as four bytes. */
  predicate FourBytes(b: seq<Byte>, i: nat, n: nat)
    requires i + 4 <= |b|
  {
    && b[i] as int == n / 16777216 && b[i + 1] as int == n / 65536 % 256
    && b[i + 2] as int == n / 256 % 256 && b[i + 3] as int == n % 256
  }

  lemma {:induction false} U32Bytes(n: nat)
    requires n < TWO_TO_THE_32
    ensures FourBytes(U32(n), 0, n)
  {
    var high, low := n / 65536, n % 65536;
    var a, b, c, d := high / 256, high % 256, low / 256, low % 256;
    Quotients(n, a, b, c, d);
    assert U32(n) == [a, b, c, d];
  }

  lemma {:induction false} Quotients(n: nat, a: nat, b: nat, c: nat, d: nat)
    requires a < 256 && b < 256 && c < 256 && d < 256
    requires n == ((a * 256 + b) * 256 + c) * 256 + d
    ensures n / 16777216 == a && n / 65536 % 256 == b && n / 256 % 256 == c && n % 256 == d
  {
    assert n / 256 == (a * 256 + b) * 256 + c;
    assert n / 65536 == a * 256 + b;
  }

  /** A frame record, byte by byte; and exactly which frames have none. */
  lemma {:induction false} FrameLayout(avcc: seq<Byte>, timestamp: int, keyframe: bool, width: int, height: int)
    ensures var record := H.FrameBytes(avcc, timestamp, keyframe, width, height);
      if 1 <= |avcc| <= 8388599 && 0 <= timestamp <= 9007199254740991 && 1 <= width <= 65535 && 1 <= height <= 65535
      then
        && record.Some?
        && var b := record.value;
        && |b| == 14 + |avcc| && b[0] == 1 && FourBytes(b, 1, 9 + |avcc|)
        && FourBytes(b, 5, timestamp % 4294967296) && b[9] == (if keyframe then 1 else 0)
        && b[10] as int == width / 256 && b[11] as int == width % 256
        && b[12] as int == height / 256 && b[13] as int == height % 256
        && b[14..] == avcc
      else record.None?
  {
    if H.ValidFrame(avcc, timestamp, width, height) {
      U32Bytes(9 + |avcc|);
      U32Bytes(timestamp % TWO_TO_THE_32);
      hide U32;
      var payload := H.FramePayload(avcc, timestamp, keyframe, width, height);
      assert payload[9..] == avcc;
      var b := H.FrameBytes(avcc, timestamp, keyframe, width, height).value;
      assert b[5..] == payload;
      assert b[14..] == b[5..][9..];
    }
  }

  lemma {:induction false} EditableLayout(editable: bool)
    ensures H.EditableBytes(editable) == [2, 0, 0, 0, 1, if editable then 1 else 0]
  {
  }

  /** A sample: each unit behind its length. */
  lemma {:induction false} AvccLayout(unit: Nal, rest: seq<Nal>)
    requires H.Packable([unit] + rest)
    ensures H.Packable(rest)
    ensures var b := H.Avcc([unit] + rest);
      |b| == 4 + |unit| + |H.Avcc(rest)| && FourBytes(b, 0, |unit|) && b[4..] == unit + H.Avcc(rest)
  {
    assert rest == ([unit] + rest)[1..];
    forall i | 0 <= i < |rest|
      ensures |rest[i]| < TWO_TO_THE_32
    {
      assert rest[i] == ([unit] + rest)[i + 1];
    }
    assert ([unit] + rest)[0] == unit;
    U32Bytes(|unit|);
  }

  /** A JPEG record; and exactly which frames have none. */
  lemma {:induction false} JpegLayout(jpeg: seq<Byte>, width: int, height: int)
    ensures var record, n := W.JpegBytes(jpeg, width, height), |jpeg|;
      if 4 <= n <= 8388604 && 1 <= width <= 65535 && 1 <= height <= 65535
        && jpeg[0] == 0xFF && jpeg[1] == 0xD8 && jpeg[n - 2] == 0xFF && jpeg[n - 1] == 0xD9
      then
        && record.Some?
        && var b := record.value;
        && |b| == 9 + n && b[0] == 2 && FourBytes(b, 1, 4 + n)
        && b[5] as int == width / 256 && b[6] as int == width % 256
        && b[7] as int == height / 256 && b[8] as int == height % 256
        && b[9..] == jpeg
      else record.None?
  {
    var n := |jpeg|;
    if n >= 4 {
      assert jpeg[..2] == [jpeg[0], jpeg[1]] && jpeg[n - 2..] == [jpeg[n - 2], jpeg[n - 1]];
    }
    if W.ValidJpeg(jpeg, width, height) {
      U32Bytes(4 + n);
      hide U32;
      var payload := W.JpegPayload(jpeg, width, height);
      assert payload[4..] == jpeg;
      var b := W.JpegBytes(jpeg, width, height).value;
      assert b[5..] == payload;
      assert b[9..] == b[5..][4..];
    }
  }

  // ---------------------------------------------------------------- what the host record reader makes of bytes

  /** A record the reader takes: a frame of some size with a non-empty sample, or an editable notice. */
  predicate HostRecordTaken(r: seq<Byte>) {
    && |r| >= 5 && Big(r[1..5]) == |r| - 5 <= 8388608
    && ((r[0] == 1 && |r| >= 15 && Big(r[10..12]) >= 1 && Big(r[12..14]) >= 1) || (r[0] == 2 && |r| == 6))
  }

  /** What is reported of it. */
  function HostEvent(r: seq<Byte>): H.Event
    requires HostRecordTaken(r)
  {
    if r[0] == 1 then H.Frame(H.EncodedHostFrame(Big(r[5..9]), r[9] == 1, Big(r[10..12]), Big(r[12..14]), r[14..]))
    else H.Editable(r[5] == 1)
  }

  /** Bytes that may still become a record. */
  predicate HostPartial(b: seq<Byte>) {
    |b| < 5 || (Big(b[1..5]) <= 8388608 && (b[0] == 2 ==> Big(b[1..5]) == 1) && |b| < 5 + Big(b[1..5]))
  }

  /** Bytes that begin with no record and cannot become one. */
  predicate HostBad(b: seq<Byte>) {
    && |b| >= 5
    && var n := Big(b[1..5]);
       n > 8388608 || (b[0] == 2 && n != 1) || (|b| >= 5 + n && !HostRecordTaken(b[..5 + n]))
  }

  function HostEvents(records: seq<seq<Byte>>): seq<H.Event>
    requires forall i | 0 <= i < |records| :: HostRecordTaken(records[i])
  {
    if records == [] then [] else [HostEvent(records[0])] + HostEvents(records[1..])
  }

  lemma {:induction false} HostDecoded(b: seq<Byte>)
    requires |b| >= 5 && Big(b[1..5]) <= 8388608 && (b[0] == 2 ==> Big(b[1..5]) == 1) && |b| >= 5 + Big(b[1..5])
    ensures var n := Big(b[1..5]);
      var r := b[..5 + n];
      H.Decode(b[0], b[5..5 + n]) == if HostRecordTaken(r) then Some(HostEvent(r)) else None
  {
    var n := Big(b[1..5]);
    var r, payload := b[..5 + n], b[5..5 + n];
    assert r[1..5] == b[1..5] && r[5..] == payload;
    if b[0] == 1 && n >= 9 {
      BigFour(payload, 0);
      BigTwo(payload, 5);
      BigTwo(payload, 7);
      assert r[5..9] == payload[0..4] && r[10..12] == payload[5..7] && r[12..14] == payload[7..9];
      assert r[14..] == payload[9..];
    }
    hide Big;
  }

  /** One turn of the reader. */
  lemma {:induction false} HostTurn(b: seq<Byte>, events: seq<H.Event>)
    ensures !(HostPartial(b) && HostBad(b))
    ensures HostPartial(b) ==> H.ReadLoop(b, events) == H.ReaderState(b, false, events)
    ensures HostBad(b) ==> H.ReadLoop(b, events) == H.ReaderState([], true, events + [H.Failure])
    ensures !HostPartial(b) && !HostBad(b) ==>
      var n := Big(b[1..5]);
      && |b| >= 5 + n && HostRecordTaken(b[..5 + n])
      && H.ReadLoop(b, events) == H.ReadLoop(b[5 + n..], events + [HostEvent(b[..5 + n])])
  {
    hide Big, H.Decode, HostRecordTaken, HostEvent;
    if |b| >= 5 {
      BigFour(b, 1);
      var n := Big(b[1..5]);
      if n <= 8388608 && (b[0] == 2 ==> n == 1) && |b| >= 5 + n {
        HostDecoded(b);
      }
    }
  }

  /** The reader takes records off the front as long as there are whole ones, and stops at the first that is not
      one. */
  lemma {:induction false} HostLoop(b: seq<Byte>, events: seq<H.Event>)
    returns (records: seq<seq<Byte>>, rest: seq<Byte>)
    ensures forall i | 0 <= i < |records| :: HostRecordTaken(records[i])
    ensures b == Flatten(records) + rest && (HostPartial(rest) <==> !HostBad(rest))
    ensures H.ReadLoop(b, events) ==
      if HostBad(rest) then H.ReaderState([], true, events + HostEvents(records) + [H.Failure])
      else H.ReaderState(rest, false, events + HostEvents(records))
    decreases |b|
  {
    hide Big, H.ReadLoop, HostRecordTaken, HostEvent, HostPartial, HostBad;
    HostTurn(b, events);
    if HostPartial(b) || HostBad(b) {
      records, rest := [], b;
      assert Flatten(records) + rest == b && events + HostEvents(records) == events;
    } else {
      var n := Big(b[1..5]);
      var r, tail := b[..5 + n], b[5 + n..];
      var others;
      others, rest := HostLoop(tail, events + [HostEvent(r)]);
      records := [r] + others;
      assert b == r + tail && records[1..] == others;
      assert events + [HostEvent(r)] + HostEvents(others) == events + HostEvents(records);
    }
  }

  /**
   * What the reader makes of any delivery of any bytes: they are records it takes, one after another, each
   * reported by its fields, and a rest that is either kept as the beginning of a record, or bad and reported as
   * the one failure. At the end there is no failure exactly if the bytes are records and nothing else.
   */
  lemma {:induction false} HostReading(chunks: seq<seq<Byte>>) returns (records: seq<seq<Byte>>, rest: seq<Byte>)
    ensures forall i | 0 <= i < |records| :: HostRecordTaken(records[i])
    ensures Flatten(chunks) == Flatten(records) + rest && (HostPartial(rest) <==> !HostBad(rest))
    ensures H.Pushes(chunks) ==
      if HostBad(rest) then H.ReaderState([], true, HostEvents(records) + [H.Failure])
      else H.ReaderState(rest, false, HostEvents(records))
    ensures H.AfterEnd(H.Pushes(chunks)) ==
      if rest == [] then H.ReaderState([], false, HostEvents(records))
      else H.ReaderState([], true, HostEvents(records) + [H.Failure])
  {
    H.ChunkIndependence(chunks);
    records, rest := HostLoop(Flatten(chunks), []);
    assert [] + HostEvents(records) == HostEvents(records);
  }

  // ---------------------------------------------------------------- what the window record reader makes of bytes

  predicate WindowRecordTaken(r: seq<Byte>) {
    && |r| >= 6 && r[0] == 2 && Big(r[1..5]) == |r| - 5 <= 8388608
    && ((|r| == 6 && r[5] <= 1)
        || (|r| >= 13 && Big(r[5..7]) >= 1 && Big(r[7..9]) >= 1
            && r[9] == 0xFF && r[10] == 0xD8 && r[|r| - 2] == 0xFF && r[|r| - 1] == 0xD9))
  }

  function WindowEvent(r: seq<Byte>): W.Event
    requires WindowRecordTaken(r)
  {
    if |r| == 6 then W.EditableFocus(r[5] == 1) else W.Frame(r[9..], Big(r[5..7]), Big(r[7..9]))
  }

  predicate WindowPartial(b: seq<Byte>) {
    |b| < 5 || (b[0] == 2 && 1 <= Big(b[1..5]) <= 8388608 && |b| < 5 + Big(b[1..5]))
  }

  predicate WindowBad(b: seq<Byte>) {
    && |b| >= 5
    && var n := Big(b[1..5]);
       b[0] != 2 || n < 1 || n > 8388608 || (|b| >= 5 + n && !WindowRecordTaken(b[..5 + n]))
  }

  function WindowEvents(records: seq<seq<Byte>>): seq<W.Event>
    requires forall i | 0 <= i < |records| :: WindowRecordTaken(records[i])
  {
    if records == [] then [] else [WindowEvent(records[0])] + WindowEvents(records[1..])
  }

  lemma {:induction false} WindowDecoded(b: seq<Byte>)
    requires |b| >= 5 && b[0] == 2 && 1 <= Big(b[1..5]) <= 8388608 && |b| >= 5 + Big(b[1..5])
    ensures var n := Big(b[1..5]);
      var r := b[..5 + n];
      W.Decode(b[5..5 + n]) == if WindowRecordTaken(r) then Some(WindowEvent(r)) else None
  {
    var n := Big(b[1..5]);
    var r, payload := b[..5 + n], b[5..5 + n];
    assert r[1..5] == b[1..5] && r[5..] == payload;
    if n >= 8 {
      BigTwo(payload, 0);
      BigTwo(payload, 2);
      assert r[5..7] == payload[0..2] && r[7..9] == payload[2..4] && r[9..] == payload[4..];
    }
    hide Big;
  }

  lemma {:induction false} WindowTurn(b: seq<Byte>, events: seq<W.Event>)
    ensures !(WindowPartial(b) && WindowBad(b))
    ensures WindowPartial(b) ==> W.ReadLoop(b, events) == W.ReaderState(b, false, events)
    ensures WindowBad(b) ==> W.ReadLoop(b, events).threw && W.ReadLoop(b, events).events == events
    ensures !WindowPartial(b) && !WindowBad(b) ==>
      var n := Big(b[1..5]);
      && |b| >= 5 + n && WindowRecordTaken(b[..5 + n])
      && W.ReadLoop(b, events) == W.ReadLoop(b[5 + n..], events + [WindowEvent(b[..5 + n])])
  {
    hide Big, W.Decode, WindowRecordTaken, WindowEvent;
    if |b| >= 5 {
      BigFour(b, 1);
      var n := Big(b[1..5]);
      if b[0] == 2 && 1 <= n <= 8388608 && |b| >= 5 + n {
        WindowDecoded(b);
      }
    }
  }

  lemma {:induction false} WindowLoop(b: seq<Byte>, events: seq<W.Event>)
    returns (records: seq<seq<Byte>>, rest: seq<Byte>)
    ensures forall i | 0 <= i < |records| :: WindowRecordTaken(records[i])
    ensures b == Flatten(records) + rest && (WindowPartial(rest) <==> !WindowBad(rest))
    ensures var d := W.ReadLoop(b, events);
      && d.events == events + WindowEvents(records)
      && (d.threw <==> WindowBad(rest)) && (!d.threw ==> d.pending == rest)
    decreases |b|
  {
    hide Big, W.ReadLoop, WindowRecordTaken, WindowEvent, WindowPartial, WindowBad;
    WindowTurn(b, events);
    if WindowPartial(b) || WindowBad(b) {
      records, rest := [], b;
      assert Flatten(records) + rest == b && events + WindowEvents(records) == events;
    } else {
      var n := Big(b[1..5]);
      var r, tail := b[..5 + n], b[5 + n..];
      var others;
      others, rest := WindowLoop(tail, events + [WindowEvent(r)]);
      records := [r] + others;
      assert b == r + tail && records[1..] == others;
      assert events + [WindowEvent(r)] + WindowEvents(others) == events + WindowEvents(records);
    }
  }

  /** What this reader makes of any delivery that respects its bound: records it takes, each reported by its
      fields, and a rest that is kept, or bad and thrown at. */
  lemma {:induction false} WindowReading(chunks: seq<seq<Byte>>) returns (records: seq<seq<Byte>>, rest: seq<Byte>)
    requires W.WithinBound(chunks)
    ensures forall i | 0 <= i < |records| :: WindowRecordTaken(records[i])
    ensures Flatten(chunks) == Flatten(records) + rest && (WindowPartial(rest) <==> !WindowBad(rest))
    ensures var d := W.Pushes(chunks);
      && d.events == WindowEvents(records) && (d.threw <==> WindowBad(rest)) && (!d.threw ==> d.pending == rest)
  {
    W.ThrowsIff(chunks);
    records, rest := WindowLoop(Flatten(chunks), []);
    assert [] + WindowEvents(records) == WindowEvents(records);
  }

  // ---------------------------------------------------------------- what the JPEG splitter makes of bytes

  /** Two bytes of a text are this marker. */
  predicate At(b: seq<Byte>, code: Byte, k: nat) {
    k + 1 < |b| && b[k] == 0xFF && b[k + 1] == code
  }

  /** What stands between images: no image begins in it. */
  predicate Gap(gap: seq<Byte>) {
    forall k | 0 <= k < |gap| :: !At(gap, 0xD8, k)
  }

  /** An image: it begins with SOI, ends with EOI, and holds no EOI before. */
  predicate Whole(f: seq<Byte>) {
    && At(f, 0xD8, 0) && |f| >= 4 && At(f, 0xD9, |f| - 2)
    && forall k | 2 <= k < |f| - 2 :: !At(f, 0xD9, k)
  }

  /** An image that has begun and not ended. */
  predicate Begun(rest: seq<Byte>) {
    At(rest, 0xD8, 0) && forall k | 2 <= k < |rest| :: !At(rest, 0xD9, k)
  }

  /** An image and what stands in front of it. */
  datatype Cut = Cut(gap: seq<Byte>, image: seq<Byte>)

  function Laid(cuts: seq<Cut>): seq<Byte> {
    if cuts == [] then [] else cuts[0].gap + cuts[0].image + Laid(cuts[1..])
  }

  function ImagesOf(cuts: seq<Cut>): seq<seq<Byte>> {
    if cuts == [] then [] else [cuts[0].image] + ImagesOf(cuts[1..])
  }

  predicate CutsOk(cuts: seq<Cut>) {
    forall i | 0 <= i < |cuts| :: Gap(cuts[i].gap) && Whole(cuts[i].image) && |cuts[i].image| <= 8388608
  }

  /** An image over the bound, ended or not. */
  predicate TooLong(rest: seq<Byte>) {
    (Begun(rest) && |rest| > 8388608) || exists n | 8388608 < n <= |rest| :: Whole(rest[..n])
  }

  lemma {:induction false} MarkerAt(b: seq<Byte>, code: Byte, i: nat)
    ensures var place := J.Marker(b, code, i);
      if place.Some? then
        i <= place.value && At(b, code, place.value) && forall k | i <= k < place.value :: !At(b, code, k)
      else forall k | i <= k :: !At(b, code, k)
  {
  }

  lemma {:induction false} JpegCut(b: seq<Byte>, start: nat)
    requires At(b, 0xD8, start) && forall k | 0 <= k < start :: !At(b, 0xD8, k)
    ensures Gap(b[..start])
  {
    forall k | 0 <= k < start
      ensures !At(b[..start], 0xD8, k)
    {
      assert !At(b, 0xD8, k);
    }
  }

  lemma {:induction false} JpegWhole(c: seq<Byte>, end: nat)
    requires At(c, 0xD8, 0) && 2 <= end && At(c, 0xD9, end) && forall k | 2 <= k < end :: !At(c, 0xD9, k)
    ensures Whole(c[..end + 2]) && !Begun(c)
    ensures forall n | 0 <= n <= |c| && Whole(c[..n]) :: n == end + 2
  {
    var f := c[..end + 2];
    forall k | 2 <= k < |f| - 2
      ensures !At(f, 0xD9, k)
    {
      assert !At(c, 0xD9, k);
    }
    forall n | 0 <= n <= |c| && Whole(c[..n])
      ensures n == end + 2
    {
      EndOfWhole(c, n);
    }
  }

  lemma {:induction false} EndOfWhole(c: seq<Byte>, n: nat)
    requires n <= |c| && Whole(c[..n])
    ensures 2 <= n - 2 && At(c, 0xD9, n - 2) && forall k | 2 <= k < n - 2 :: !At(c, 0xD9, k)
  {
    assert At(c[..n], 0xD9, n - 2);
    forall k | 2 <= k < n - 2
      ensures !At(c, 0xD9, k)
    {
      assert !At(c[..n], 0xD9, k);
    }
  }

  lemma {:induction false} NeverWhole(c: seq<Byte>)
    requires Begun(c)
    ensures forall n | 0 <= n <= |c| :: !Whole(c[..n])
  {
    forall n | 0 <= n <= |c|
      ensures !Whole(c[..n])
    {
      if Whole(c[..n]) {
        EndOfWhole(c, n);
      }
    }
  }

  /** One turn of the splitter. */
  lemma {:induction false} JpegTurn(b: seq<Byte>, frames: seq<seq<Byte>>)
    returns (gap: seq<Byte>, rest: seq<Byte>, n: nat)
    ensures b == gap + rest && Gap(gap) && (rest == [] || At(rest, 0xD8, 0))
    ensures n <= |rest|
    ensures rest == [] ==>
      J.DrainLoop(b, frames) == J.ParserState(if |gap| > 1 then gap[|gap| - 1..] else gap, false, frames)
    ensures rest != [] && n == 0 ==>
      Begun(rest) && J.DrainLoop(b, frames) == J.ParserState(rest, |rest| > 8388608, frames)
    ensures n > 0 ==> Whole(rest[..n]) && !Begun(rest) && forall m | 0 <= m <= |rest| && Whole(rest[..m]) :: m == n
    ensures n > 8388608 ==> J.DrainLoop(b, frames).threw && J.DrainLoop(b, frames).frames == frames
    ensures 0 < n <= 8388608 ==> J.DrainLoop(b, frames) == J.DrainLoop(rest[n..], frames + [rest[..n]])
  {
    hide Gap, Whole, Begun, At;
    var start := J.Marker(b, 0xD8, 0);
    MarkerAt(b, 0xD8, 0);
    if start.None? {
      gap, rest, n := b, [], 0;
      assert Gap(gap) by { NoGap(b); }
      assert b + [] == b;
    } else {
      gap, rest := b[..start.value], b[start.value..];
      JpegCut(b, start.value);
      assert At(rest, 0xD8, 0) by { AtShift(b, 0xD8, start.value); }
      var end := J.Marker(rest, 0xD9, 2);
      MarkerAt(rest, 0xD9, 2);
      if end.None? {
        n := 0;
        assert Begun(rest) by { NeverEnds(rest); }
      } else {
        n := end.value + 2;
        AtBound(rest, 0xD9, end.value);
        JpegWhole(rest, end.value);
      }
    }
  }

  lemma {:induction false} NoGap(b: seq<Byte>)
    requires forall k | 0 <= k :: !At(b, 0xD8, k)
    ensures Gap(b)
  {
  }

  lemma {:induction false} NeverEnds(rest: seq<Byte>)
    requires At(rest, 0xD8, 0) && forall k | 2 <= k :: !At(rest, 0xD9, k)
    ensures Begun(rest)
  {
  }

  lemma {:induction false} AtShift(b: seq<Byte>, code: Byte, k: nat)
    requires At(b, code, k)
    ensures At(b[k..], code, 0)
  {
  }

  lemma {:induction false} AtBound(b: seq<Byte>, code: Byte, k: nat)
    requires At(b, code, k)
    ensures k + 2 <= |b|
  {
  }

  /** How the splitter leaves the last bytes: nothing of a gap but its last byte, and an image that has begun,
      unless it is too long. */
  predicate JpegLeft(gap: seq<Byte>, rest: seq<Byte>, d: J.ParserState) {
    if rest == [] then !d.threw && d.pending == if |gap| > 1 then gap[|gap| - 1..] else gap
    else if TooLong(rest) then d.threw
    else !d.threw && Begun(rest) && d.pending == rest
  }

  lemma {:induction false} JpegLoop(b: seq<Byte>, frames: seq<seq<Byte>>)
    returns (cuts: seq<Cut>, gap: seq<Byte>, rest: seq<Byte>)
    ensures b == Laid(cuts) + gap + rest && CutsOk(cuts) && Gap(gap) && (rest == [] || At(rest, 0xD8, 0))
    ensures J.DrainLoop(b, frames).frames == frames + ImagesOf(cuts) && JpegLeft(gap, rest, J.DrainLoop(b, frames))
    decreases |b|
  {
    hide Gap, Whole, Begun, At, J.DrainLoop;
    var n;
    gap, rest, n := JpegTurn(b, frames);
    if 0 < n <= 8388608 {
      var image, tail := rest[..n], rest[n..];
      var others, gap', rest' := JpegLoop(tail, frames + [image]);
      cuts := [Cut(gap, image)] + others;
      assert cuts[1..] == others;
      assert b == gap + image + tail;
      assert frames + [image] + ImagesOf(others) == frames + ImagesOf(cuts);
      assert gap + image + (Laid(others) + gap' + rest') == gap + image + Laid(others) + gap' + rest';
      gap, rest := gap', rest';
    } else {
      cuts := [];
      assert b == [] + gap + rest && frames + [] == frames;
      if rest != [] && n == 0 {
        NeverWhole(rest);
      }
    }
  }

  /**
   * What the splitter makes of any delivery of any bytes: gaps in which no image begins, each followed by an image
   * that is emitted, and a rest that is kept, or too long and thrown at.
   */
  lemma {:induction false} JpegReading(chunks: seq<seq<Byte>>)
    returns (cuts: seq<Cut>, gap: seq<Byte>, rest: seq<Byte>)
    ensures Flatten(chunks) == Laid(cuts) + gap + rest && CutsOk(cuts) && Gap(gap) && (rest == [] || At(rest, 0xD8, 0))
    ensures var d := J.Pushes(chunks);
      && d.frames == ImagesOf(cuts)
      && (if rest != [] && TooLong(rest) then d.threw else JpegLeft(gap, rest, d))
  {
    J.ChunkIndependence(chunks);
    cuts, gap, rest := JpegLoop(Flatten(chunks), []);
    assert [] + ImagesOf(cuts) == ImagesOf(cuts);
  }

  /** The end emits nothing more, whatever was left. */
  lemma {:induction false} JpegEnd(chunks: seq<seq<Byte>>)
    ensures var d := J.Pushes(chunks);
      !d.threw ==> J.AfterEnd(d) == d.(pending := [])
  {
    J.ChunkIndependence(chunks);
    var whole := Flatten(chunks);
    J.DrainExtends(whole, [], []);
    assert whole + [] == whole;
    hide J.DrainLoop;
    var d := J.DrainLoop(whole, []);
    assert d.pending + [] == d.pending;
  }
}
