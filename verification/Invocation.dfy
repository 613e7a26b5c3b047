/**
 * The bytes `digestToolInvocation` hashes: the tool name, a NUL and the canonical arguments, each
 * encoded in UTF-8, where the encoder replaces a lone surrogate by U+FFFD.
 */
module Invocation {
  import opened Options
  import opened Bytes
  import opened Utf16
  import opened JsonText
  import opened CanonicalJson

  const REPLACEMENT: Unit := 0xFFFD

  /** A Unicode scalar value. */
  type Scalar = c: nat | c < 0x110000 && !(0xD800 <= c < 0xE000)

  function FirstScalar(s: Text): Scalar
    requires s != []
  {
    if Paired(s) then 0x10000 + (s[0] - 0xD800) * 1024 + (s[1] - 0xDC00)
    else if Surrogate(s[0]) then REPLACEMENT
    else s[0]
  }

  function Scalars(s: Text): seq<Scalar> {
    if s == [] then [] else [FirstScalar(s)] + Scalars(s[Width(s)..])
  }

  function Encode(c: Scalar): seq<Byte> {
    var a, b, d := c / 64, c / 64 / 64, c / 64 / 64 / 64;
    if c < 0x80 then [c]
    else if c < 0x800 then [0xC0 + a, 0x80 + c % 64]
    else if c < 0x10000 then [0xE0 + b, 0x80 + a % 64, 0x80 + c % 64]
    else [0xF0 + d, 0x80 + b % 64, 0x80 + a % 64, 0x80 + c % 64]
  }

  function EncodeAll(s: seq<Scalar>): seq<Byte> {
    if s == [] then [] else Encode(s[0]) + EncodeAll(s[1..])
  }

  function Utf8(s: Text): seq<Byte> {
    EncodeAll(Scalars(s))
  }

  function Digested(tool: Text, args: Json): seq<Byte>
    requires Valid(args)
  {
    Utf8(tool) + [0] + Utf8(Print(args))
  }

  // ---------------------------------------------------------------- UTF-8 can be read back

  function Valued(c: int, rest: seq<Byte>): Option<(Scalar, seq<Byte>)> {
    if 0 <= c < 0x110000 && !(0xD800 <= c < 0xE000) then Some((c, rest)) else None
  }

  /** The scalar a byte string begins with and what follows, by the table in section 3 of RFC 3629. */
  function Decode(b: seq<Byte>): (r: Option<(Scalar, seq<Byte>)>)
    ensures r.Some? ==> |r.value.1| < |b|
  {
    if b == [] then None
    else if b[0] < 0x80 then Valued(b[0], b[1..])
    else if b[0] < 0xE0 then
      if |b| < 2 then None else Valued((b[0] as int - 0xC0) * 64 + (b[1] as int - 0x80), b[2..])
    else if b[0] < 0xF0 then
      if |b| < 3 then None
      else Valued(((b[0] as int - 0xE0) * 64 + (b[1] as int - 0x80)) * 64 + (b[2] as int - 0x80), b[3..])
    else if |b| < 4 then None
    else
      var high := ((b[0] as int - 0xF0) * 64 + (b[1] as int - 0x80)) * 64 + (b[2] as int - 0x80);
      Valued(high * 64 + (b[3] as int - 0x80), b[4..])
  }

  lemma {:induction false} EncodeRead(c: Scalar, x: seq<Byte>)
    ensures Decode(Encode(c) + x) == Some((c, x))
  {
    var e, p, a, b := Encode(c), Encode(c) + x, c / 64, c / 64 / 64;
    assert c == a * 64 + c % 64 && a == b * 64 + a % 64 && b == c / 64 / 64 / 64 * 64 + b % 64;
    assert forall i | 0 <= i < |e| :: p[i] == e[i];
    assert p[|e|..] == x;
  }

  function DecodeAll(b: seq<Byte>): Option<seq<Scalar>>
    decreases |b|
  {
    if b == [] then Some([])
    else
      match Decode(b)
      case None => None
      case Some((c, rest)) =>
        match DecodeAll(rest) case None => None case Some(s) => Some([c] + s)
  }

  lemma {:induction false} EncodeAllRead(s: seq<Scalar>)
    ensures DecodeAll(EncodeAll(s)) == Some(s)
    decreases |s|
  {
    if s != [] {
      hide Decode, Encode;
      EncodeRead(s[0], EncodeAll(s[1..]));
      EncodeAllRead(s[1..]);
      assert EncodeAll(s) != [] by {
        assert Decode(EncodeAll(s)).Some?;
      }
      assert s == [s[0]] + s[1..];
    }
  }

  lemma {:induction false} EncodeAllJoin(s: seq<Scalar>, t: seq<Scalar>)
    ensures EncodeAll(s + t) == EncodeAll(s) + EncodeAll(t)
    decreases |s|
  {
    hide Encode;
    if s == [] {
      assert s + t == t;
    } else {
      EncodeAllJoin(s[1..], t);
      assert (s + t)[0] == s[0] && (s + t)[1..] == s[1..] + t;
    }
  }

  /** On well-formed text the scalars determine the units. */
  lemma {:induction false} ScalarsRead(s: Text, t: Text)
    requires WellFormed(s) && WellFormed(t) && Scalars(s) == Scalars(t)
    ensures s == t
    decreases |s|
  {
    if s == [] || t == [] {
    } else {
      assert FirstScalar(s) == Scalars(s)[0] == Scalars(t)[0] == FirstScalar(t);
      assert s[..Width(s)] == t[..Width(t)];
      assert Scalars(s[Width(s)..]) == Scalars(s)[1..] == Scalars(t)[1..] == Scalars(t[Width(t)..]);
      ScalarsRead(s[Width(s)..], t[Width(t)..]);
      assert s == s[..Width(s)] + s[Width(s)..] && t == t[..Width(t)] + t[Width(t)..];
    }
  }

  lemma {:induction false} NoNulScalar(s: Text)
    requires Printable(s)
    ensures 0 !in Scalars(s)
    decreases |s|
  {
    if s != [] {
      assert s[0] in s;
      assert forall u | u in s[Width(s)..] :: u in s;
      NoNulScalar(s[Width(s)..]);
    }
  }

  lemma {:induction false} NulAt(s: seq<Scalar>, x: seq<Scalar>, k: nat, t: seq<Scalar>, y: seq<Scalar>)
    requires s + [0] + x == t + [0] + y && |s| == |t| + 1 + k && k < |y|
    ensures 0 in y
  {
    var p := s + [0] + x;
    assert y[k] == p[|s|];
  }

  /** The last NUL separates. */
  lemma {:induction false} LastNul(s: seq<Scalar>, x: seq<Scalar>, t: seq<Scalar>, y: seq<Scalar>)
    requires s + [0] + x == t + [0] + y && 0 !in x && 0 !in y
    ensures s == t && x == y
  {
    var p := s + [0] + x;
    if |x| < |y| {
      NulAt(s, x, |s| - |t| - 1, t, y);
    } else if |y| < |x| {
      NulAt(t, y, |t| - |s| - 1, s, x);
    } else {
      assert s == p[..|s|] == t && x == p[|s| + 1..] == y;
    }
  }

  // ---------------------------------------------------------------- the theorems

  /** What the encoder makes of a text: lone surrogates replaced. */
  function Scrubbed(s: Text): Text {
    if s == [] then [] else ScrubbedPoint(s) + Scrubbed(s[Width(s)..])
  }

  function ScrubbedPoint(s: Text): Text
    requires s != []
  {
    if !Paired(s) && Surrogate(s[0]) then [REPLACEMENT] else s[..Width(s)]
  }

  lemma {:induction false} PointScalar(s: Text, rest: Text)
    requires s != []
    ensures var t := ScrubbedPoint(s) + rest;
      && t != [] && Width(t) == |ScrubbedPoint(s)| == Width(s) && t[Width(t)..] == rest
      && FirstScalar(t) == FirstScalar(s) && (Paired(t) || !Surrogate(t[0]))
  {
  }

  lemma {:induction false} FirstPoint(s: Text)
    requires s != []
    ensures Scalars(s) == [FirstScalar(s)] + Scalars(s[Width(s)..])
    ensures WellFormed(s) <==> (Paired(s) || !Surrogate(s[0])) && WellFormed(s[Width(s)..])
    ensures Scrubbed(s) == ScrubbedPoint(s) + Scrubbed(s[Width(s)..])
  {
  }

  lemma {:induction false} ScrubbedScalars(s: Text)
    ensures WellFormed(Scrubbed(s)) && Scalars(Scrubbed(s)) == Scalars(s)
    ensures WellFormed(s) ==> Scrubbed(s) == s
    decreases |s|
  {
    if s != [] {
      hide Scalars, WellFormed, Scrubbed, FirstScalar;
      var tail := s[Width(s)..];
      ScrubbedScalars(tail);
      PointScalar(s, Scrubbed(tail));
      FirstPoint(s);
      FirstPoint(Scrubbed(s));
    }
  }

  /** The digested bytes determine the arguments, and the tool name up to lone surrogates: two calls are
      digested alike exactly when the names agree once scrubbed and the arguments are equal with objects
      taken as maps. Names may contain NUL. */
  lemma {:induction false} DigestedAlikeIff(tool: Text, args: Json, tool': Text, args': Json)
    requires Valid(args) && Valid(args')
    ensures Digested(tool, args) == Digested(tool', args') <==>
      Scrubbed(tool) == Scrubbed(tool') && Meaning(args) == Meaning(args')
  {
    hide Print, Scalars, EncodeAll, DecodeAll, Meaning, WellFormed, Scrubbed, Encode;
    DigestedScalars(tool, args);
    DigestedScalars(tool', args');
    PrintsAlikeIffEqual(args, args');
    ScrubbedScalars(tool);
    ScrubbedScalars(tool');
    PrintPlain(args);
    PrintPlain(args');
    var x, y := Scalars(Print(args)), Scalars(Print(args'));
    if Digested(tool, args) == Digested(tool', args') {
      NoNulScalar(Print(args));
      NoNulScalar(Print(args'));
      EncodeAllRead(Scalars(tool) + [0] + x);
      EncodeAllRead(Scalars(tool') + [0] + y);
      LastNul(Scalars(tool), x, Scalars(tool'), y);
      ScalarsRead(Print(args), Print(args'));
      ScalarsRead(Scrubbed(tool), Scrubbed(tool'));
    }
  }

  lemma {:induction false} DigestedScalars(tool: Text, args: Json)
    requires Valid(args)
    ensures Digested(tool, args) == EncodeAll(Scalars(tool) + [0] + Scalars(Print(args)))
  {
    hide Print;
    EncodeAllJoin(Scalars(tool), [0]);
    EncodeAllJoin(Scalars(tool) + [0], Scalars(Print(args)));
    assert EncodeAll([0]) == [0] by {
      assert Encode(0) == [0];
    }
  }

  /** With well-formed names the name itself is determined. */
  lemma {:induction false} WellFormedNamesDetermined(tool: Text, args: Json, tool': Text, args': Json)
    requires Valid(args) && Valid(args') && WellFormed(tool) && WellFormed(tool')
    ensures Digested(tool, args) == Digested(tool', args') <==> tool == tool' && Meaning(args) == Meaning(args')
  {
    DigestedAlikeIff(tool, args, tool', args');
    ScrubbedScalars(tool);
    ScrubbedScalars(tool');
  }

  /** Two different names that are digested alike. */
  lemma {:induction false} LoneSurrogatesCollide(args: Json)
    requires Valid(args)
    ensures Digested([0xD800], args) == Digested([0xDC00], args)
  {
    assert Scalars([0xD800]) == [REPLACEMENT] + Scalars([]) == Scalars([0xDC00]);
    hide Print, EncodeAll;
  }

  // ---------------------------------------------------------------- the scalars of a text

  /** A scalar value in UTF-16, by section 2.1 of RFC 2781. */
  function Units(c: Scalar): Text {
    if c < 0x10000 then [c] else [0xD800 + (c - 0x10000) / 1024, 0xDC00 + (c - 0x10000) % 1024]
  }

  function UnitsOf(scalars: seq<Scalar>): Text {
    if scalars == [] then [] else Units(scalars[0]) + UnitsOf(scalars[1..])
  }

  /** The scalars of a well-formed text stand for that text, and a lone surrogate for U+FFFD. */
  lemma {:induction false} ScalarsStandFor(s: Text)
    ensures WellFormed(s) ==> UnitsOf(Scalars(s)) == s
    ensures s != [] && 0xD800 <= s[0] < 0xE000 && !Paired(s) ==> Scalars(s) == [0xFFFD as Scalar] + Scalars(s[1..])
    decreases |s|
  {
    if s != [] {
      var rest := s[Width(s)..];
      ScalarsStandFor(rest);
      assert Scalars(s)[1..] == Scalars(rest);
      if WellFormed(s) {
        assert Units(FirstScalar(s)) == s[..Width(s)];
      }
    }
  }
}
