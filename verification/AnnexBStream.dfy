/**
 * Annex-B byte streams as an encoder writes them (ITU-T H.264 Annex B), and the proof that the
 * incremental splitter inverts the writer for every delivery of the stream.
 */
module AnnexBStream {
  import opened Bytes
  import opened AnnexB

  /** What sections 7.4.1 and B.1 of ITU-T H.264 guarantee of a NAL unit. */
  ghost predicate WellFormedNal(nal: Nal) {
    && nal != []
    && nal[|nal| - 1] != 0
    && forall i {:trigger nal[i]} | 0 <= i && i + 3 <= |nal| ::
         !(nal[i] == 0 && nal[i + 1] == 0 && nal[i + 2] == 1)
  }

  /** A NAL unit with the length of the start code the writer chose for it. */
  datatype Piece = Piece(long: bool, nal: Nal)

  /** One access unit: its delimiter, then its NAL units. */
  datatype Picture = Picture(delimiter: Piece, units: seq<Piece>)

  function StartCode(long: bool): seq<Byte> {
    if long then [0, 0, 0, 1] else [0, 0, 1]
  }

  function Print(pieces: seq<Piece>): seq<Byte> {
    if pieces == [] then []
    else StartCode(pieces[0].long) + pieces[0].nal + Print(pieces[1..])
  }

  function Nals(pieces: seq<Piece>): (r: seq<Nal>)
    ensures |r| == |pieces|
  {
    seq(|pieces|, i requires 0 <= i < |pieces| => pieces[i].nal)
  }

  function Pieces(pictures: seq<Picture>): seq<Piece> {
    if pictures == [] then []
    else [pictures[0].delimiter] + pictures[0].units + Pieces(pictures[1..])
  }

  ghost predicate WellFormedPicture(p: Picture) {
    && WellFormedNal(p.delimiter.nal) && p.delimiter.nal[0] % 32 == 9
    && p.units != []
    && (forall i | 0 <= i < |p.units| :: WellFormedNal(p.units[i].nal) && p.units[i].nal[0] % 32 != 9)
    && AvccBytes(Nals(p.units)) <= MAX_HOST_FRAME_BYTES - 9
  }

  ghost predicate WellFormedPictures(pictures: seq<Picture>) {
    forall i | 0 <= i < |pictures| :: WellFormedPicture(pictures[i])
  }

  /** A picture is a keyframe if some NAL unit of it is an IDR slice (type 5 in table 7-1). */
  predicate KeyPicture(p: Picture) {
    exists j | 0 <= j < |p.units| :: p.units[j].nal != [] && p.units[j].nal[0] % 32 == 5
  }

  lemma {:induction false} KeyIsIdr(p: Picture)
    ensures KeyPicture(p) <==> HasIdr(Nals(p.units))
  {
    if KeyPicture(p) {
      var j :| 0 <= j < |p.units| && p.units[j].nal != [] && p.units[j].nal[0] % 32 == 5;
      assert Nals(p.units)[j] == p.units[j].nal;
    }
  }

  /** The access units a decoder is owed for these pictures. */
  function Owed(pictures: seq<Picture>): (r: seq<AccessUnit>)
    ensures |r| == |pictures|
  {
    seq(|pictures|, i requires 0 <= i < |pictures| =>
      AccessUnit(Nals(pictures[i].units), KeyPicture(pictures[i])))
  }

  // ---------------------------------------------------------------- delimiting one NAL

  /** No start code begins inside a well-formed NAL unit, whatever follows it. */
  lemma {:induction false} NoStartInside(p: seq<Byte>, header: nat, nal: Nal, j: nat)
    requires WellFormedNal(nal)
    requires header + |nal| <= |p|
    requires forall k {:trigger nal[k]} | 0 <= k < |nal| :: p[header + k] == nal[k]
    requires header <= j < header + |nal|
    ensures !IsStart(p, j)
  {
    var i, last := j - header, |nal| - 1;
    assert p[header + last] == nal[last];
    assert p[header + i] == nal[i];
    if i + 2 <= last {
      assert p[header + (i + 1)] == nal[i + 1] && p[header + (i + 2)] == nal[i + 2];
      assert !(nal[i] == 0 && nal[i + 1] == 0 && nal[i + 2] == 1);
    }
    if i + 3 <= last {
      assert p[header + (i + 3)] == nal[i + 3];
      assert !(nal[i + 1] == 0 && nal[i + 1 + 1] == 0 && nal[i + 1 + 2] == 1);
    }
  }

  lemma {:induction false} NextStart(piece: Piece, rest: seq<Byte>)
    requires WellFormedNal(piece.nal)
    requires rest == [] || IsStart(rest, 0)
    ensures var p, header := StartCode(piece.long) + piece.nal + rest, |StartCode(piece.long)|;
      && IsStart(p, 0)
      && StartCodeLength(p, 0) == header
      && FirstStart(p, header) == if rest == [] then -1 else header + |piece.nal|
  {
    var header, nal := |StartCode(piece.long)|, piece.nal;
    var p := StartCode(piece.long) + nal + rest;
    var next := header + |nal|;
    forall j: nat | header <= j < next
      ensures !IsStart(p, j)
    {
      NoStartInside(p, header, nal, j);
    }
    if rest != [] {
      assert p[next] == rest[0] && p[next + 1] == rest[1] && p[next + 2] == rest[2];
      if |rest| > 3 {
        assert p[next + 3] == rest[3];
      }
      FirstStartUnique(p, header, next);
    }
  }

  lemma {:induction false} PrintStarts(pieces: seq<Piece>)
    requires pieces != [] && WellFormedNal(pieces[0].nal)
    ensures IsStart(Print(pieces), 0) && |Print(pieces)| >= 4
  {
  }

  // ---------------------------------------------------------------- the whole stream of NALs

  function AcceptAll(a: Assembly, nals: seq<Nal>): Assembly
    decreases |nals|
  {
    if nals == [] || a.threw then a else AcceptAll(AfterNal(a, nals[0]), nals[1..])
  }

  lemma {:induction false} DrainPrinted(pieces: seq<Piece>, a: Assembly)
    requires pieces != [] && !a.threw
    requires forall i | 0 <= i < |pieces| :: WellFormedNal(pieces[i].nal)
    requires !AcceptAll(a, Nals(pieces)).threw
    ensures IsStart(Print(pieces), 0)
    ensures var d := DrainLoop(Print(pieces), a);
      && !d.assembly.threw
      && FirstStart(d.pending, 0) == 0
      && AfterNal(d.assembly, d.pending[StartCodeLength(d.pending, 0)..]) == AcceptAll(a, Nals(pieces))
    decreases |pieces|
  {
    var piece, rest := pieces[0], Print(pieces[1..]);
    var p, header := Print(pieces), |StartCode(piece.long)|;
    if |pieces| > 1 {
      PrintStarts(pieces[1..]);
    }
    NextStart(piece, rest);
    assert p[header..header + |piece.nal|] == piece.nal;
    assert Nals(pieces)[1..] == Nals(pieces[1..]);
    var a' := AfterNal(a, piece.nal);
    if |pieces| > 1 {
      assert p[header + |piece.nal|..] == rest;
      assert !a'.threw;
      DrainPrinted(pieces[1..], a');
    } else {
      assert p[header..] == piece.nal;
      assert AcceptAll(a', []) == a';
    }
  }

  // ---------------------------------------------------------------- access units

  lemma {:induction false} AvccBytesAppend(left: seq<Nal>, right: seq<Nal>)
    ensures AvccBytes(left + right) == AvccBytes(left) + AvccBytes(right)
    decreases |right|
  {
    if right == [] {
      assert left + right == left;
    } else {
      assert left + right == (left + [right[0]]) + right[1..];
      AvccBytesAppend(left + [right[0]], right[1..]);
      AvccBytesSnoc(left, right[0]);
    }
  }

  lemma {:induction false} AcceptUnits(a: Assembly, nals: seq<Nal>, rest: seq<Nal>)
    requires !a.threw
    requires forall i | 0 <= i < |nals| :: nals[i] != [] && NalType(nals[i]) != AUD
    requires AvccBytes(a.current + nals) <= MAX_HOST_FRAME_BYTES - 9
    ensures AcceptAll(a, nals + rest) == AcceptAll(a.(current := a.current + nals), rest)
    decreases |nals|
  {
    if nals == [] {
      assert a.current + nals == a.current && nals + rest == rest;
    } else {
      var current := a.current + [nals[0]];
      assert current + nals[1..] == a.current + nals;
      AvccBytesAppend(current, nals[1..]);
      assert (nals + rest)[1..] == nals[1..] + rest;
      AcceptUnits(a.(current := current), nals[1..], rest);
    }
  }

  /** One picture: the delimiter emits what was collected, and the units are collected in turn. */
  lemma {:induction false} AcceptPicture(a: Assembly, p: Picture, tail: seq<Nal>)
    requires !a.threw && WellFormedPicture(p)
    ensures AcceptAll(a, [p.delimiter.nal] + (Nals(p.units) + tail))
         == AcceptAll(Assembly(Nals(p.units), AfterEmit(a).emitted, false), tail)
  {
    var cut, units := AfterEmit(a), Nals(p.units);
    assert ([p.delimiter.nal] + (units + tail))[1..] == units + tail;
    assert cut.current + units == units;
    AcceptUnits(cut, units, tail);
  }

  lemma {:induction false} FirstPicture(pictures: seq<Picture>)
    requires WellFormedPictures(pictures) && pictures != []
    ensures var first, rest := pictures[0], pictures[1..];
      && Nals(first.units) != []
      && Nals(Pieces(pictures)) == [first.delimiter.nal] + (Nals(first.units) + Nals(Pieces(rest)))
      && Owed(pictures) == [AccessUnit(Nals(first.units), KeyPicture(first))] + Owed(rest)
  {
    hide KeyPicture;
  }

  lemma {:induction false} AcceptPictures(a: Assembly, pictures: seq<Picture>)
    requires !a.threw && WellFormedPictures(pictures)
    ensures var done := AcceptAll(a, Nals(Pieces(pictures)));
      !done.threw && AfterEmit(done) == Assembly([], AfterEmit(a).emitted + Owed(pictures), false)
    decreases |pictures|
  {
    if pictures == [] {
      assert Owed(pictures) == [];
      assert AfterEmit(a).emitted + [] == AfterEmit(a).emitted;
    } else {
      hide AcceptAll, Nals, Pieces, Owed, WellFormedPicture, KeyPicture, HasIdr;
      var first, rest := pictures[0], pictures[1..];
      var units, tail := Nals(first.units), Nals(Pieces(rest));
      FirstPicture(pictures);
      AcceptPicture(a, first, tail);
      var b := Assembly(units, AfterEmit(a).emitted, false);
      AcceptPictures(b, rest);
      var unit := AccessUnit(units, KeyPicture(first));
      KeyIsIdr(first);
      assert AfterEmit(b).emitted == AfterEmit(a).emitted + [unit];
      assert AfterEmit(a).emitted + [unit] + Owed(rest) == AfterEmit(a).emitted + Owed(pictures);
    }
  }

  lemma {:induction false} PiecesWellFormed(pictures: seq<Picture>)
    requires WellFormedPictures(pictures)
    ensures forall i | 0 <= i < |Pieces(pictures)| :: WellFormedNal(Pieces(pictures)[i].nal)
  {
    if pictures != [] {
      PiecesWellFormed(pictures[1..]);
    }
  }

  // ---------------------------------------------------------------- main result

  /** The lead-in check cannot fire: a printed stream shows a start code within four bytes. */
  lemma {:induction false} PrintedLeadIn(pieces: seq<Piece>, chunks: seq<seq<Byte>>)
    requires forall i | 0 <= i < |pieces| :: WellFormedNal(pieces[i].nal)
    requires Flatten(chunks) <= Print(pieces)
    ensures LeadInBounded(chunks)
    decreases |chunks|
  {
    if chunks != [] {
      var received, init := Flatten(chunks), chunks[..|chunks| - 1];
      assert chunks == init + [chunks[|chunks| - 1]];
      FlattenSnoc(init, chunks[|chunks| - 1]);
      PrintedLeadIn(pieces, init);
      if |received| >= 4 {
        PrintStarts(pieces);
        assert IsStart(received, 0);
      }
    }
  }

  /**
   * Parsing inverts printing for any mix of start codes and any chunks: no push throws, and after
   * `end` exactly the pictures' access units have been emitted, in order, with their key flags.
   */
  lemma {:induction false} AnnexBRoundTrip(pictures: seq<Picture>, chunks: seq<seq<Byte>>)
    requires WellFormedPictures(pictures)
    requires Flatten(chunks) == Print(Pieces(pictures))
    ensures !Pushes(chunks).assembly.threw
    ensures AfterEnd(Pushes(chunks)) == ParserState([], Assembly([], Owed(pictures), false))
    ensures var emitted := AfterEnd(Pushes(chunks)).assembly.emitted;
      && |emitted| == |pictures|
      && forall i | 0 <= i < |pictures| ::
           && emitted[i].units == Nals(pictures[i].units)
           && (emitted[i].keyframe
               <==> exists j | 0 <= j < |pictures[i].units| :: pictures[i].units[j].nal[0] % 32 == 5)
  {
    var pieces := Pieces(pictures);
    PiecesWellFormed(pictures);
    AcceptPictures(EMPTY_ASSEMBLY, pictures);
    PrintedLeadIn(pieces, chunks);
    ChunkIndependence(chunks);
    var whole := Print(pieces);
    if pictures == [] {
      assert FirstStart(whole, 0) < 0;
    } else {
      DrainPrinted(pieces, EMPTY_ASSEMBLY);
      assert whole[0..] == whole;
      var d := Parsed(whole);
      assert d == DrainLoop(whole, EMPTY_ASSEMBLY);
      assert d.pending[0..] == d.pending;
      assert AfterDrain(d) == d;
    }
  }

  /**
   * The bound on the lead-in is where chunking shows: these bytes are fine in one chunk and throw
   * in two.
   */
  lemma {:induction false} LeadInDependsOnChunks()
    ensures var noise := seq(MAX_HOST_FRAME_BYTES + 1, _ => 7 as Byte);
      && !Pushes([noise + [0, 0, 1]]).assembly.threw
      && Pushes([noise, [0, 0, 1]]).assembly.threw
  {
    var noise := seq(MAX_HOST_FRAME_BYTES + 1, _ => 7 as Byte);
    var whole := noise + [0, 0, 1];
    var one, two := [whole], [noise, [0, 0, 1]];
    assert IsStart(whole, |noise|);
    assert Flatten(one) == whole;
    assert two[..1] == [noise] && one[..0] == [];
    assert Flatten([noise]) == noise;
    ChunkIndependence(one);
    ChunkIndependence([noise]);
    var first := FirstStart(whole, 0);
    assert first == |noise|;
    assert whole[first..] == [0, 0, 1];
  }
}
