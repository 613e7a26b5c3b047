/** `JpegFrameParser`: cutting a byte stream into JPEG images at their SOI and EOI markers. */
module JpegFrames {
  import opened Options
  import opened Bytes

  const SOI: seq<Byte> := [0xFF, 0xD8]
  const EOI: seq<Byte> := [0xFF, 0xD9]

  /** The first place at or after `i` where the marker FF `code` stands, as `indexOf` finds it. */
  function Marker(b: seq<Byte>, code: Byte, i: nat): (place: Option<nat>)
    ensures place.Some? ==> i <= place.value && place.value + 1 < |b|
    ensures place.Some? ==> b[place.value] == 0xFF && b[place.value + 1] == code
    ensures forall k | i <= k < (if place.Some? then place.value else |b| - 1) :: b[k] != 0xFF || b[k + 1] != code
    decreases |b| - i
  {
    if i + 1 >= |b| then None
    else if b[i] == 0xFF && b[i + 1] == code then Some(i)
    else Marker(b, code, i + 1)
  }

  datatype ParserState = ParserState(pending: seq<Byte>, threw: bool, frames: seq<seq<Byte>>)

  const NEW_PARSER := ParserState([], false, [])

  function DrainLoop(b: seq<Byte>, frames: seq<seq<Byte>>): ParserState
    decreases |b|, 1
  {
    var start := Marker(b, 0xD8, 0);
    if start.None? then ParserState(if |b| > 1 then b[|b| - 1..] else b, false, frames)
    else DrainImage(b[start.value..], frames)
  }

  /** The rest of a turn of the loop, with the buffer cut to begin at an SOI. */
  function DrainImage(c: seq<Byte>, frames: seq<seq<Byte>>): ParserState
    decreases |c|, 0
  {
    var end := Marker(c, 0xD9, 2);
    if end.None? then ParserState(c, |c| > MAX_HOST_FRAME_BYTES, frames)
    else
      var size := end.value + 2;
      if size > MAX_HOST_FRAME_BYTES then ParserState(c[size..], true, frames)
      else DrainLoop(c[size..], frames + [c[..size]])
  }

  /** After an error the parser is not used again. */
  function AfterPush(s: ParserState, chunk: seq<Byte>): ParserState {
    if s.threw || chunk == [] then s else DrainLoop(s.pending + chunk, s.frames)
  }

  function AfterEnd(s: ParserState): ParserState {
    if s.threw then s
    else
      var t := DrainLoop(s.pending, s.frames);
      if t.threw then t else t.(pending := [])
  }

  class JpegFrameParser {
    var pending: seq<Byte>
    var threw: bool
    var frames: seq<seq<Byte>> // the frames emitted so far

    function View(): ParserState
      reads this
    {
      ParserState(pending, threw, frames)
    }

    constructor ()
      ensures View() == NEW_PARSER
    {
      pending, threw, frames := [], false, [];
    }

    method Push(chunk: seq<Byte>)
      requires !threw
      modifies this
      ensures View() == AfterPush(old(View()), chunk)
    {
      if |chunk| == 0 {
        return;
      }
      pending := pending + chunk;
      Drain();
    }

    method End()
      requires !threw
      modifies this
      ensures View() == AfterEnd(old(View()))
    {
      Drain();
      if !threw {
        pending := [];
      }
    }

    method Drain()
      requires !threw
      modifies this
      ensures View() == DrainLoop(old(pending), old(frames))
    {
      while true
        invariant !threw && DrainLoop(pending, frames) == DrainLoop(old(pending), old(frames))
        decreases |pending|
      {
        var start := Marker(pending, 0xD8, 0);
        if start.None? {
          if |pending| > 1 {
            pending := pending[|pending| - 1..];
          }
          return;
        }
        label sought:
        if start.value > 0 {
          pending := pending[start.value..];
        }
        assert pending == old@sought(pending)[start.value..];
        var end := Marker(pending, 0xD9, 2);
        if end.None? {
          threw := |pending| > MAX_HOST_FRAME_BYTES;
          return;
        }
        var frameEnd := end.value + 2;
        var jpeg := pending[..frameEnd];
        pending := pending[frameEnd..];
        if |jpeg| > MAX_HOST_FRAME_BYTES {
          threw := true;
          return;
        }
        frames := frames + [jpeg];
      }
    }
  }

  // ---------------------------------------------------------------- chunk independence

  /** The marker is unique: whatever has these properties is what `indexOf` finds. */
  lemma {:induction false} MarkerIs(b: seq<Byte>, code: Byte, i: nat, k: nat)
    requires i <= k && k + 1 < |b| && b[k] == 0xFF && b[k + 1] == code
    requires forall j | i <= j < k :: b[j] != 0xFF || b[j + 1] != code
    ensures Marker(b, code, i) == Some(k)
  {
    var place := Marker(b, code, i);
    assert place.Some?;
  }

  /** No marker in a stretch of a text: none at all if the stretch is all of it. */
  predicate Unmarked(b: seq<Byte>, code: Byte, i: nat, k: nat) {
    forall j | i <= j < k && j + 1 < |b| :: b[j] != 0xFF || b[j + 1] != code
  }

  lemma {:induction false} NoMarker(b: seq<Byte>, code: Byte, i: nat)
    requires Unmarked(b, code, i, |b|)
    ensures Marker(b, code, i).None?
  {
  }

  /** More bytes do not move a marker. */
  lemma {:induction false} MarkerExtends(b: seq<Byte>, t: seq<Byte>, code: Byte, i: nat)
    ensures Marker(b, code, i).Some? ==> Marker(b + t, code, i) == Marker(b, code, i)
    ensures Marker(b, code, i).None? && Marker(b + t, code, i).Some? ==> Marker(b + t, code, i).value + 1 >= |b|
  {
    var place := Marker(b, code, i);
    assert forall j | 0 <= j < |b| :: (b + t)[j] == b[j];
    if place.Some? {
      MarkerIs(b + t, code, i, place.value);
    }
  }

  /** Bytes before a place where no marker starts can be dropped. */
  lemma {:induction false} MarkerShifts(b: seq<Byte>, code: Byte, n: nat)
    requires n <= |b| && Unmarked(b, code, 0, n)
    ensures Marker(b[n..], code, 0) ==
      match Marker(b, code, 0) case None => None case Some(k) => if k >= n then Some(k - n) else None
  {
    var place := Marker(b, code, 0);
    assert forall j | 0 <= j < |b| - n :: b[n..][j] == b[j + n];
    if place.Some? {
      assert place.value >= n;
      MarkerIs(b[n..], code, 0, place.value - n);
    } else {
      forall j | 0 <= j < |b| - n && j + 1 < |b| - n
        ensures b[n..][j] != 0xFF || b[n..][j + 1] != code
      {
        assert b[n..][j] == b[j + n] && b[n..][j + 1] == b[j + n + 1];
      }
      NoMarker(b[n..], code, 0);
    }
  }

  /** Draining starts at the first SOI, wherever the buffer starts before it. */
  lemma {:induction false} DrainSkips(b: seq<Byte>, n: nat, frames: seq<seq<Byte>>)
    requires n < |b| && Unmarked(b, 0xD8, 0, n)
    ensures DrainLoop(b[n..], frames) == DrainLoop(b, frames)
  {
    hide DrainImage;
    MarkerShifts(b, 0xD8, n);
    var start := Marker(b, 0xD8, 0);
    if start.Some? {
      assert b[n..][start.value - n..] == b[start.value..];
    } else {
      assert |b| - n > 1 ==> b[n..][|b| - n - 1..] == b[|b| - 1..];
      assert |b| - n == 1 ==> b[n..] == b[|b| - 1..];
    }
  }

  /** What draining more bytes makes of an earlier drain. */
  predicate Continues(d: ParserState, t: seq<Byte>, e: ParserState) {
    if d.threw then e.threw && e.frames == d.frames else e == DrainLoop(d.pending + t, d.frames)
  }

  lemma {:induction false} DrainExtends(b: seq<Byte>, t: seq<Byte>, frames: seq<seq<Byte>>)
    ensures Continues(DrainLoop(b, frames), t, DrainLoop(b + t, frames))
    decreases |b|, 1
  {
    hide DrainImage;
    MarkerExtends(b, t, 0xD8, 0);
    var start := Marker(b, 0xD8, 0);
    if start.Some? {
      assert (b + t)[start.value..] == b[start.value..] + t;
      ImageExtends(b[start.value..], t, frames);
    } else if |b| > 1 {
      assert forall j | 0 <= j < |b| :: (b + t)[j] == b[j];
      DrainSkips(b + t, |b| - 1, frames);
      assert (b + t)[|b| - 1..] == b[|b| - 1..] + t;
    }
  }

  /** With an image begun but not ended, a buffer over the bound means an image over the bound. */
  lemma {:induction false} ImageExtends(c: seq<Byte>, t: seq<Byte>, frames: seq<seq<Byte>>)
    requires |c| >= 2 && c[0] == 0xFF && c[1] == 0xD8
    ensures Continues(DrainImage(c, frames), t, DrainImage(c + t, frames))
    decreases |c|, 0
  {
    MarkerExtends(c, t, 0xD9, 2);
    var end := Marker(c, 0xD9, 2);
    if end.None? {
      MarkerIs(c + t, 0xD8, 0, 0);
      assert (c + t)[0..] == c + t;
    } else if end.value + 2 <= MAX_HOST_FRAME_BYTES {
      var size := end.value + 2;
      assert (c + t)[..size] == c[..size] && (c + t)[size..] == c[size..] + t;
      hide DrainLoop;
      DrainExtends(c[size..], t, frames + [c[..size]]);
    }
  }

  function Pushes(chunks: seq<seq<Byte>>): ParserState {
    if chunks == [] then NEW_PARSER else AfterPush(Pushes(chunks[..|chunks| - 1]), chunks[|chunks| - 1])
  }

  /** The frames emitted and whether the parser throws depend on the bytes only; without an error the
      whole state does. */
  lemma {:induction false} ChunkIndependence(chunks: seq<seq<Byte>>)
    ensures var p, d := Pushes(chunks), DrainLoop(Flatten(chunks), []);
      p.threw == d.threw && p.frames == d.frames && (!d.threw ==> p == d)
    decreases |chunks|
  {
    if chunks == [] {
    } else {
      var n := |chunks| - 1;
      var init, last := chunks[..n], chunks[n];
      assert chunks == init + [last];
      FlattenSnoc(init, last);
      ChunkIndependence(init);
      DrainExtends(Flatten(init), last, []);
      assert last == [] ==> Flatten(init) + last == Flatten(init);
    }
  }

  // ---------------------------------------------------------------- what is emitted

  /** An image: SOI in front, and the first EOI after it at the very end. */
  predicate Image(f: seq<Byte>) {
    |f| >= 4 && f[0] == 0xFF && f[1] == 0xD8 && Marker(f, 0xD9, 2) == Some(|f| - 2)
  }

  lemma {:induction false} Cut(c: seq<Byte>, size: nat)
    requires |c| >= 2 && c[0] == 0xFF && c[1] == 0xD8 && size >= 2 && Marker(c, 0xD9, 2) == Some(size - 2)
    ensures Image(c[..size])
  {
    var f := c[..size];
    assert forall j | 0 <= j < size :: f[j] == c[j];
    MarkerIs(f, 0xD9, 2, size - 2);
  }

  predicate Images(frames: seq<seq<Byte>>) {
    forall i | 0 <= i < |frames| :: Image(frames[i]) && |frames[i]| <= MAX_HOST_FRAME_BYTES
  }

  lemma {:induction false} DrainEmitsImages(b: seq<Byte>, frames: seq<seq<Byte>>)
    requires Images(frames)
    ensures Images(DrainLoop(b, frames).frames)
    decreases |b|
  {
    hide Image, Marker;
    var start := Marker(b, 0xD8, 0);
    if start.Some? {
      var c := b[start.value..];
      var end := Marker(c, 0xD9, 2);
      if end.Some? && end.value + 2 <= MAX_HOST_FRAME_BYTES {
        Cut(c, end.value + 2);
        DrainEmitsImages(c[end.value + 2..], frames + [c[..end.value + 2]]);
      }
    }
  }

  /** Every frame emitted by any run is an image within the bound. */
  lemma {:induction false} EmitsImages(chunks: seq<seq<Byte>>)
    ensures Images(Pushes(chunks).frames)
  {
    hide DrainLoop;
    ChunkIndependence(chunks);
    DrainEmitsImages(Flatten(chunks), []);
  }

  /** One turn of the loop takes one image. */
  lemma {:induction false} ImageTaken(f: seq<Byte>, rest: seq<Byte>, frames: seq<seq<Byte>>)
    requires Image(f) && |f| <= MAX_HOST_FRAME_BYTES
    ensures DrainLoop(f + rest, frames) == DrainLoop(rest, frames + [f])
  {
    hide Marker;
    var b := f + rest;
    MarkerIs(b, 0xD8, 0, 0);
    MarkerExtends(f, rest, 0xD9, 2);
    assert b[0..] == b && b[..|f|] == f && b[|f|..] == rest;
  }

  lemma {:induction false} DrainPrinted(images: seq<seq<Byte>>, frames: seq<seq<Byte>>)
    requires Images(images)
    ensures DrainLoop(Flatten(images), frames) == ParserState([], false, frames + images)
    decreases |images|
  {
    hide Image, Marker;
    if images == [] {
      assert frames + images == frames;
      assert Marker([], 0xD8, 0).None?;
    } else {
      ImageTaken(images[0], Flatten(images[1..]), frames);
      hide DrainLoop;
      DrainPrinted(images[1..], frames + [images[0]]);
      assert frames + [images[0]] + images[1..] == frames + images;
    }
  }

  /** Images written back to back are recovered exactly, whatever the chunks. */
  lemma {:induction false} ImagesRoundTrip(images: seq<seq<Byte>>, chunks: seq<seq<Byte>>)
    requires Images(images) && Flatten(chunks) == Flatten(images)
    ensures Pushes(chunks) == ParserState([], false, images)
  {
    ChunkIndependence(chunks);
    DrainPrinted(images, []);
    assert [] + images == images;
  }
}
