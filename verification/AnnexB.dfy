/**
 * The incremental Annex-B splitter of the Linux host: start-code search, NAL delimiting and
 * access-unit assembly at access unit delimiters.
 */
module AnnexB {
  import opened Bytes

  datatype AccessUnit = AccessUnit(units: seq<Nal>, keyframe: bool)

  /** The units collected since the last delimiter, the calls made to `emit`, and whether the
      parser has thrown. */
  datatype Assembly = Assembly(current: seq<Nal>, emitted: seq<AccessUnit>, threw: bool)

  datatype ParserState = ParserState(pending: seq<Byte>, assembly: Assembly)

  const EMPTY_ASSEMBLY := Assembly([], [], false)
  const NEW_PARSER := ParserState([], EMPTY_ASSEMBLY)

  function NalType(nal: Nal): nat
    requires nal != []
  {
    nal[0] % 32
  }

  const AUD: nat := 9
  const IDR: nat := 5

  // ---------------------------------------------------------------- start codes

  /** A three- or four-byte start code is complete at position i. */
  predicate IsStart(b: seq<Byte>, i: nat) {
    && i + 3 <= |b|
    && b[i] == 0 && b[i + 1] == 0
    && (b[i + 2] == 1 || (i + 4 <= |b| && b[i + 2] == 0 && b[i + 3] == 1))
  }

  /** The first complete start code at or after `offset`, or -1. */
  function FirstStart(b: seq<Byte>, offset: nat): (r: int)
    ensures r == -1 || (offset <= r && IsStart(b, r))
    ensures forall i: nat | offset <= i && (r == -1 || i < r) :: !IsStart(b, i)
    decreases |b| - offset
  {
    if offset >= |b| then -1
    else if IsStart(b, offset) then offset
    else FirstStart(b, offset + 1)
  }

  lemma {:induction false} FirstStartUnique(b: seq<Byte>, offset: nat, r: int)
    requires r == -1 || (offset <= r && IsStart(b, r))
    requires forall j: nat | offset <= j && (r == -1 || j < r) :: !IsStart(b, j)
    ensures FirstStart(b, offset) == r
  {
    var f := FirstStart(b, offset);
    assert f != -1 ==> IsStart(b, f);
  }

  function StartCodeLength(b: seq<Byte>, offset: nat): nat
    requires offset + 3 <= |b|
  {
    if b[offset + 2] == 1 then 3 else 4
  }

  method StartCodeAt(buffer: seq<Byte>, offset: nat) returns (r: int)
    ensures r == FirstStart(buffer, offset)
  {
    var i := offset;
    while i + 3 <= |buffer|
      invariant offset <= i
      invariant forall j: nat | offset <= j < i :: !IsStart(buffer, j)
      decreases |buffer| - i
    {
      if buffer[i] == 0 && buffer[i + 1] == 0 {
        if buffer[i + 2] == 1 {
          FirstStartUnique(buffer, offset, i);
          return i;
        }
        if i + 3 < |buffer| && buffer[i + 2] == 0 && buffer[i + 3] == 1 {
          FirstStartUnique(buffer, offset, i);
          return i;
        }
      }
      i := i + 1;
    }
    FirstStartUnique(buffer, offset, -1);
    return -1;
  }

  /** More input never moves a start code that has already been found. */
  lemma {:induction false} FirstStartStable(b: seq<Byte>, t: seq<Byte>, offset: nat)
    requires FirstStart(b, offset) >= 0
    ensures FirstStart(b + t, offset) == FirstStart(b, offset)
  {
    var r := FirstStart(b, offset);
    assert IsStart(b + t, r);
    forall j: nat | offset <= j < r
      ensures !IsStart(b + t, j)
    {
      assert !IsStart(b, j);
    }
  }

  // ---------------------------------------------------------------- access units

  function AvccBytes(units: seq<Nal>): nat {
    if units == [] then 0 else 4 + |units[0]| + AvccBytes(units[1..])
  }

  lemma {:induction false} AvccBytesSnoc(units: seq<Nal>, nal: Nal)
    ensures AvccBytes(units + [nal]) == AvccBytes(units) + 4 + |nal|
  {
    if units != [] {
      assert (units + [nal])[1..] == units[1..] + [nal];
      AvccBytesSnoc(units[1..], nal);
    }
  }

  predicate HasIdr(units: seq<Nal>) {
    exists i | 0 <= i < |units| :: units[i] != [] && NalType(units[i]) == IDR
  }

  function AfterEmit(a: Assembly): Assembly {
    if a.current == [] then a
    else Assembly([], a.emitted + [AccessUnit(a.current, HasIdr(a.current))], a.threw)
  }

  function AfterNal(a: Assembly, nal: Nal): Assembly {
    if nal == [] then a
    else if NalType(nal) == AUD then AfterEmit(a)
    else
      var current := a.current + [nal];
      Assembly(current, a.emitted, AvccBytes(current) > MAX_HOST_FRAME_BYTES - 9)
  }

  /** The drain loop on pending bytes that begin with a start code. */
  function DrainLoop(p: seq<Byte>, a: Assembly): (r: ParserState)
    requires IsStart(p, 0) && !a.threw
    ensures IsStart(r.pending, 0)
    ensures !r.assembly.threw ==> FirstStart(r.pending, StartCodeLength(r.pending, 0)) < 0
    decreases |p|
  {
    var header := StartCodeLength(p, 0);
    var next := FirstStart(p, header);
    if next < 0 then ParserState(p, a)
    else
      var a' := AfterNal(a, p[header..next]);
      assert IsStart(p[next..], 0);
      if a'.threw then ParserState(p[next..], a') else DrainLoop(p[next..], a')
  }

  function AfterDrain(s: ParserState): ParserState
    requires !s.assembly.threw
  {
    var first := FirstStart(s.pending, 0);
    if first < 0 then
      s.(assembly := s.assembly.(threw := |s.pending| > MAX_HOST_FRAME_BYTES))
    else
      assert IsStart(s.pending[first..], 0);
      DrainLoop(s.pending[first..], s.assembly)
  }

  function AfterPush(s: ParserState, chunk: seq<Byte>): ParserState
    requires !s.assembly.threw
  {
    if chunk == [] then s else AfterDrain(s.(pending := s.pending + chunk))
  }

  /** Draining at the end: the last NAL has no successor, so it is taken up to the end of the input. */
  function AfterFlush(s: ParserState): ParserState
    requires !s.assembly.threw
  {
    var d := AfterDrain(s);
    if d.assembly.threw || FirstStart(d.pending, 0) != 0 then d
    else ParserState([], AfterNal(d.assembly, d.pending[StartCodeLength(d.pending, 0)..]))
  }

  /** `end()`: drains to the end and emits the unit in progress. */
  function AfterEnd(s: ParserState): ParserState
    requires !s.assembly.threw
  {
    var f := AfterFlush(s);
    if f.assembly.threw then f else ParserState([], AfterEmit(f.assembly))
  }

  class AnnexBAccessUnitParser {
    var pending: seq<Byte>
    var current: seq<Nal>
    var emitted: seq<AccessUnit> // the calls made to the `emit` callback so far

    function View(): ParserState
      reads this
    {
      ParserState(pending, Assembly(current, emitted, false))
    }

    /** The state a method leaves behind, with its outcome. */
    ghost predicate Reached(s: ParserState, ok: bool)
      reads this
    {
      s == ParserState(pending, Assembly(current, emitted, !ok))
    }

    constructor ()
      ensures View() == NEW_PARSER
    {
      pending, current, emitted := [], [], [];
    }

    method Push(chunk: seq<Byte>) returns (ok: bool)
      modifies this
      ensures Reached(AfterPush(old(View()), chunk), ok)
    {
      if chunk == [] {
        return true;
      }
      pending := pending + chunk;
      ok := Drain(false);
    }

    method End() returns (ok: bool)
      modifies this
      ensures Reached(AfterEnd(old(View())), ok)
    {
      ok := Drain(true);
      if !ok {
        return;
      }
      EmitCurrent();
      pending := [];
    }

    method Drain(flush: bool) returns (ok: bool)
      modifies this
      ensures Reached(if flush then AfterFlush(old(View())) else AfterDrain(old(View())), ok)
    {
      var first := StartCodeAt(pending, 0);
      if first < 0 {
        return |pending| <= MAX_HOST_FRAME_BYTES;
      }
      if first > 0 {
        pending := pending[first..];
      }
      while true
        invariant IsStart(pending, 0)
        invariant AfterDrain(old(View())) == DrainLoop(pending, View().assembly)
        decreases |pending|
      {
        first := StartCodeAt(pending, 0);
        if first != 0 {
          return true;
        }
        var header := StartCodeLength(pending, 0);
        var next := StartCodeAt(pending, header);
        if next < 0 {
          if !flush {
            return true;
          }
          var last := pending[header..];
          pending := [];
          ok := AcceptNal(last);
          return;
        }
        var nal := pending[header..next];
        pending := pending[next..];
        ok := AcceptNal(nal);
        if !ok {
          return;
        }
      }
    }

    method AcceptNal(nal: Nal) returns (ok: bool)
      modifies this`current, this`emitted
      ensures Assembly(current, emitted, !ok) == AfterNal(old(View()).assembly, nal)
    {
      if |nal| < 1 {
        return true;
      }
      if NalType(nal) == AUD {
        EmitCurrent();
        return true;
      }
      current := current + [nal];
      var units, bytes := current, 0;
      for i := 0 to |units|
        invariant bytes == AvccBytes(units[..i])
        invariant current == units && emitted == old(emitted)
      {
        AvccBytesSnoc(units[..i], units[i]);
        assert units[..i + 1] == units[..i] + [units[i]];
        bytes := bytes + |units[i]| + 4;
      }
      assert units[..|units|] == units;
      return bytes <= MAX_HOST_FRAME_BYTES - 9;
    }

    method EmitCurrent()
      modifies this`current, this`emitted
      ensures View().assembly == AfterEmit(old(View()).assembly)
    {
      if |current| == 0 {
        return;
      }
      var units := current;
      current := [];
      var keyframe := exists i | 0 <= i < |units| :: units[i] != [] && NalType(units[i]) == IDR;
      emitted := emitted + [AccessUnit(units, keyframe)];
    }
  }

  // ---------------------------------------------------------------- chunk independence

  /** What the bytes received so far determine, whatever chunks they came in. */
  function Parsed(s: seq<Byte>): (r: ParserState)
    ensures FirstStart(s, 0) >= 0 ==> IsStart(r.pending, 0)
  {
    var first := FirstStart(s, 0);
    if first < 0 then ParserState(s, EMPTY_ASSEMBLY)
    else
      assert IsStart(s[first..], 0);
      DrainLoop(s[first..], EMPTY_ASSEMBLY)
  }

  /** Draining a prefix and then the rest is draining everything; a throw is never undone. */
  lemma {:induction false} DrainLoopExtends(p: seq<Byte>, t: seq<Byte>, a: Assembly)
    requires IsStart(p, 0) && !a.threw
    ensures IsStart(p + t, 0)
    ensures var d := DrainLoop(p, a);
      if d.assembly.threw then DrainLoop(p + t, a).assembly == d.assembly
      else DrainLoop(p + t, a) == DrainLoop(d.pending + t, d.assembly)
    decreases |p|
  {
    var header := StartCodeLength(p, 0);
    var next := FirstStart(p, header);
    if next >= 0 {
      FirstStartStable(p, t, header);
      assert (p + t)[header..next] == p[header..next];
      assert (p + t)[next..] == p[next..] + t;
      assert IsStart(p[next..], 0);
      var a' := AfterNal(a, p[header..next]);
      if !a'.threw {
        DrainLoopExtends(p[next..], t, a');
      }
    }
  }

  lemma {:induction false} ParsedExtends(s: seq<Byte>, t: seq<Byte>)
    ensures Parsed(s).assembly.threw ==> Parsed(s + t).assembly.threw
    ensures !Parsed(s).assembly.threw && FirstStart(s, 0) >= 0 ==>
      FirstStart(Parsed(s).pending + t, 0) == 0 &&
      Parsed(s + t) == DrainLoop(Parsed(s).pending + t, Parsed(s).assembly)
  {
    var first := FirstStart(s, 0);
    if first >= 0 {
      FirstStartStable(s, t, 0);
      assert (s + t)[first..] == s[first..] + t;
      assert IsStart(s[first..], 0);
      DrainLoopExtends(s[first..], t, EMPTY_ASSEMBLY);
      assert IsStart(Parsed(s).pending + t, 0);
    }
  }

  /** The parser after a sequence of pushes; a push that throws ends the run. */
  function Pushes(chunks: seq<seq<Byte>>): ParserState {
    if chunks == [] then NEW_PARSER
    else
      var s := Pushes(chunks[..|chunks| - 1]);
      if s.assembly.threw then s else AfterPush(s, chunks[|chunks| - 1])
  }

  /** No push was offered more than the bound while the stream still had no start code. */
  predicate LeadInBounded(chunks: seq<seq<Byte>>) {
    chunks == [] ||
    var received := Flatten(chunks);
    && LeadInBounded(chunks[..|chunks| - 1])
    && (chunks[|chunks| - 1] != [] && FirstStart(received, 0) < 0 ==> |received| <= MAX_HOST_FRAME_BYTES)
  }

  lemma {:induction false} PushParsed(s: seq<Byte>, chunk: seq<Byte>)
    requires !Parsed(s).assembly.threw
    ensures var r := AfterPush(Parsed(s), chunk);
      if FirstStart(s + chunk, 0) < 0 && chunk != [] && |s + chunk| > MAX_HOST_FRAME_BYTES
      then r.assembly.threw && !Parsed(s + chunk).assembly.threw
      else r == Parsed(s + chunk)
  {
    if chunk == [] {
      assert s + chunk == s;
    } else {
      ParsedExtends(s, chunk);
      if FirstStart(s, 0) >= 0 {
        var q := Parsed(s).pending + chunk;
        assert q[0..] == q;
        FirstStartStable(s, chunk, 0);
      }
    }
  }

  /**
   * Chunk independence, with the exact condition under which a run throws: the run survives iff
   * the byte stream itself is acceptable and the lead-in before the first start code was never
   * over the bound at a push; then everything observable depends on the bytes only.
   */
  lemma {:induction false} ChunkIndependence(chunks: seq<seq<Byte>>)
    ensures var whole := Flatten(chunks);
      && (!Pushes(chunks).assembly.threw <==>
            !Parsed(whole).assembly.threw && LeadInBounded(chunks))
      && (!Pushes(chunks).assembly.threw ==> Pushes(chunks) == Parsed(whole))
    decreases |chunks|
  {
    if chunks != [] {
      var n := |chunks| - 1;
      var init, last := chunks[..n], chunks[n];
      assert chunks == init + [last];
      FlattenSnoc(init, last);
      ChunkIndependence(init);
      ParsedExtends(Flatten(init), last);
      if !Pushes(init).assembly.threw {
        PushParsed(Flatten(init), last);
      }
    }
  }

  // ---------------------------------------------------------------- what any delivery emits

  /** An access unit as it is emitted, whatever the bytes were: non-empty units without a delimiter that
      fit a host record, and the flag says whether one of them is an IDR slice. */
  predicate GoodUnit(u: AccessUnit) {
    && u.units != [] && AvccBytes(u.units) <= MAX_HOST_FRAME_BYTES - 9
    && (forall i | 0 <= i < |u.units| :: u.units[i] != [] && u.units[i][0] % 32 != 9)
    && (u.keyframe <==> exists i | 0 <= i < |u.units| :: u.units[i] != [] && u.units[i][0] % 32 == 5)
  }

  predicate GoodAssembly(a: Assembly) {
    && (forall i | 0 <= i < |a.emitted| :: GoodUnit(a.emitted[i]))
    && (forall i | 0 <= i < |a.current| :: a.current[i] != [] && a.current[i][0] % 32 != 9)
    && (!a.threw ==> AvccBytes(a.current) <= MAX_HOST_FRAME_BYTES - 9)
  }

  lemma {:induction false} NalKeepsGood(a: Assembly, nal: Nal)
    requires GoodAssembly(a) && !a.threw
    ensures GoodAssembly(AfterNal(a, nal)) && GoodAssembly(AfterEmit(a))
  {
  }

  lemma {:induction false} DrainKeepsGood(p: seq<Byte>, a: Assembly)
    requires IsStart(p, 0) && GoodAssembly(a) && !a.threw
    ensures GoodAssembly(DrainLoop(p, a).assembly)
    decreases |p|
  {
    hide GoodAssembly, AfterNal;
    var header := StartCodeLength(p, 0);
    var next := FirstStart(p, header);
    if next >= 0 {
      var a' := AfterNal(a, p[header..next]);
      NalKeepsGood(a, p[header..next]);
      assert IsStart(p[next..], 0);
      if !a'.threw {
        DrainKeepsGood(p[next..], a');
      }
    }
  }

  /** Over any delivery of any bytes, also one that throws, and also at the end. */
  lemma {:induction false} EmitsGoodUnits(chunks: seq<seq<Byte>>)
    ensures var s := Pushes(chunks);
      && (forall i | 0 <= i < |s.assembly.emitted| :: GoodUnit(s.assembly.emitted[i]))
      && (!s.assembly.threw ==>
            forall i | 0 <= i < |AfterEnd(s).assembly.emitted| :: GoodUnit(AfterEnd(s).assembly.emitted[i]))
  {
    PushesKeepGood(chunks);
    var s := Pushes(chunks);
    if !s.assembly.threw {
      var first := FirstStart(s.pending, 0);
      hide AfterNal, AfterEmit, DrainLoop, GoodUnit, Pushes;
      if first >= 0 {
        assert IsStart(s.pending[first..], 0);
        DrainKeepsGood(s.pending[first..], s.assembly);
      }
      var d := AfterDrain(s);
      if !d.assembly.threw {
        NalKeepsGood(d.assembly, []);
        if FirstStart(d.pending, 0) == 0 {
          var last := d.pending[StartCodeLength(d.pending, 0)..];
          NalKeepsGood(d.assembly, last);
          if !AfterNal(d.assembly, last).threw {
            NalKeepsGood(AfterNal(d.assembly, last), []);
          }
        }
      }
    }
  }

  lemma {:induction false} PushesKeepGood(chunks: seq<seq<Byte>>)
    ensures GoodAssembly(Pushes(chunks).assembly)
    decreases |chunks|
  {
    if chunks != [] {
      var s := Pushes(chunks[..|chunks| - 1]);
      PushesKeepGood(chunks[..|chunks| - 1]);
      var bytes := s.pending + chunks[|chunks| - 1];
      var first := FirstStart(bytes, 0);
      hide DrainLoop;
      if first >= 0 && !s.assembly.threw {
        assert IsStart(bytes[first..], 0);
        DrainKeepsGood(bytes[first..], s.assembly);
      }
    }
  }

  /** The NAL units between the start codes of bytes that begin with one, but for the last. */
  function UnitsBetween(p: seq<Byte>): seq<Nal>
    requires IsStart(p, 0)
    decreases |p|
  {
    var header := StartCodeLength(p, 0);
    var next := FirstStart(p, header);
    if next < 0 then []
    else
      assert IsStart(p[next..], 0);
      [p[header..next]] + UnitsBetween(p[next..])
  }

  /** What of them belongs to a picture: neither empty ones nor delimiters. */
  function Content(nals: seq<Nal>): seq<Nal> {
    if nals == [] then []
    else (if nals[0] == [] || nals[0][0] % 32 == 9 then [] else [nals[0]]) + Content(nals[1..])
  }

  function Joined(units: seq<AccessUnit>): seq<Nal> {
    if units == [] then [] else Joined(units[..|units| - 1]) + units[|units| - 1].units
  }

  lemma {:induction false} NoContent()
    ensures Content([]) == []
  {
  }

  lemma {:induction false} ContentFirst(nal: Nal, rest: seq<Nal>)
    ensures Content([nal] + rest) == Content([nal]) + Content(rest)
  {
  }

  lemma {:induction false} JoinedAfterNal(a: Assembly, nal: Nal)
    requires !a.threw
    ensures var b := AfterNal(a, nal); Joined(b.emitted) + b.current == Joined(a.emitted) + a.current + Content([nal])
    ensures var b := AfterEmit(a); Joined(b.emitted) + b.current == Joined(a.emitted) + a.current
  {
    var unit := AccessUnit(a.current, HasIdr(a.current));
    assert (a.emitted + [unit])[..|a.emitted|] == a.emitted;
    assert Content([nal]) == if nal == [] || nal[0] % 32 == 9 then [] else [nal];
  }

  lemma {:induction false} DrainJoins(p: seq<Byte>, a: Assembly)
    requires IsStart(p, 0) && !a.threw
    ensures var d := DrainLoop(p, a).assembly;
      !d.threw ==> Joined(d.emitted) + d.current == Joined(a.emitted) + a.current + Content(UnitsBetween(p))
    decreases |p|
  {
    hide AfterNal, Joined, Content;
    var header := StartCodeLength(p, 0);
    var next := FirstStart(p, header);
    var before := Joined(a.emitted) + a.current;
    if next < 0 {
      NoContent();
      assert before + [] == before;
    } else {
      var nal, rest := p[header..next], p[next..];
      assert IsStart(rest, 0);
      var b := AfterNal(a, nal);
      JoinedAfterNal(a, nal);
      if !b.threw {
        DrainJoins(rest, b);
        ContentFirst(nal, UnitsBetween(rest));
        assert before + Content([nal]) + Content(UnitsBetween(rest)) ==
          before + (Content([nal]) + Content(UnitsBetween(rest)));
      }
    }
  }

  /** No NAL unit is lost, repeated or moved: over any delivery that does not throw, what was emitted and what
      is being collected are the units between the start codes received. */
  lemma {:induction false} NothingLost(chunks: seq<seq<Byte>>)
    requires !Pushes(chunks).assembly.threw && FirstStart(Flatten(chunks), 0) >= 0
    ensures var whole, a := Flatten(chunks), Pushes(chunks).assembly;
      IsStart(whole[FirstStart(whole, 0)..], 0) &&
      Joined(a.emitted) + a.current == Content(UnitsBetween(whole[FirstStart(whole, 0)..]))
  {
    var whole := Flatten(chunks);
    var stream := whole[FirstStart(whole, 0)..];
    ChunkIndependence(chunks);
    assert IsStart(stream, 0);
    DrainJoins(stream, EMPTY_ASSEMBLY);
    hide DrainLoop, UnitsBetween, Content;
    assert Joined([]) == [];
    assert [] + [] + Content(UnitsBetween(stream)) == Content(UnitsBetween(stream));
  }

  /** Two deliveries of the same bytes that both survive are indistinguishable, also after `end`. */
  lemma {:induction false} SameBytesSameUnits(left: seq<seq<Byte>>, right: seq<seq<Byte>>)
    requires Flatten(left) == Flatten(right)
    requires !Pushes(left).assembly.threw && !Pushes(right).assembly.threw
    ensures Pushes(left) == Pushes(right)
    ensures AfterEnd(Pushes(left)) == AfterEnd(Pushes(right))
  {
    ChunkIndependence(left);
    ChunkIndependence(right);
  }
}
