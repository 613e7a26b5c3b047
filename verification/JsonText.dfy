/** JSON string literals over UTF-16 code units, as `JSON.stringify` writes them and a JSON reader reads them. */
module JsonText {
  import opened Options
  import opened Utf16

  const QUOTE: Unit := 0x22
  const COMMA: Unit := 0x2C
  const COLON: Unit := 0x3A
  const BACKSLASH: Unit := 0x5C

  /** Lower-case hexadecimal. */
  function Hex(d: nat): Unit
    requires d < 16
  {
    if d < 10 then 0x30 + d else 0x57 + d
  }

  /** The letter of a two-character escape, 0 for none. */
  function Letter(u: Unit): Unit {
    if u == 0x08 then 0x62
    else if u == 0x09 then 0x74
    else if u == 0x0A then 0x6E
    else if u == 0x0C then 0x66
    else if u == 0x0D then 0x72
    else if u == QUOTE then QUOTE
    else if u == BACKSLASH then BACKSLASH
    else 0
  }

  function HexDigits(u: Unit): Text {
    [Hex(u / 16 / 16 / 16), Hex(u / 16 / 16 % 16), Hex(u / 16 % 16), Hex(u % 16)]
  }

  /** One code point: lone surrogates and control characters become \uXXXX. */
  function Escape(s: Text): Text
    requires s != []
  {
    var u := s[0];
    if Paired(s) then s[..2]
    else if Letter(u) != 0 then [BACKSLASH, Letter(u)]
    else if u < 0x20 || Surrogate(u) then [BACKSLASH, 0x75] + HexDigits(u)
    else [u]
  }

  function Escaped(s: Text): Text {
    if s == [] then [] else Escape(s) + Escaped(s[Width(s)..])
  }

  function Quoted(s: Text): Text {
    [QUOTE] + Escaped(s) + [QUOTE]
  }

  // ---------------------------------------------------------------- reading a literal back

  /** The value of a hexadecimal digit of either case. */
  function HexValue(u: Unit): Option<nat> {
    if 0x30 <= u <= 0x39 then Some(u - 0x30)
    else if 0x41 <= u <= 0x46 then Some(u - 0x37)
    else if 0x61 <= u <= 0x66 then Some(u - 0x57)
    else None
  }

  function HexUnit(t: Text): (u: Option<Unit>)
    requires |t| == 4
  {
    var a, b, c, d := HexValue(t[0]), HexValue(t[1]), HexValue(t[2]), HexValue(t[3]);
    if a.None? || b.None? || c.None? || d.None? then None
    else if a.value > 15 || b.value > 15 || c.value > 15 || d.value > 15 then None
    else Some(((a.value * 16 + b.value) * 16 + c.value) * 16 + d.value)
  }

  /** What a two-character escape stands for, section 7 of RFC 8259. */
  function Unletter(u: Unit): Option<Unit> {
    if u == QUOTE || u == BACKSLASH || u == 0x2F then Some(u)
    else if u == 0x62 then Some(0x08)
    else if u == 0x66 then Some(0x0C)
    else if u == 0x6E then Some(0x0A)
    else if u == 0x72 then Some(0x0D)
    else if u == 0x74 then Some(0x09)
    else None
  }

  /** One unit of a literal and what follows it, as a JSON reader takes them. */
  function ReadUnit(t: Text): (r: Option<(Unit, Text)>)
    ensures r.Some? ==> |r.value.1| < |t|
  {
    if t == [] || t[0] == QUOTE || t[0] < 0x20 then None
    else if t[0] != BACKSLASH then Some((t[0], t[1..]))
    else if |t| < 2 then None
    else if t[1] == 0x75 then
      if |t| < 6 || HexUnit(t[2..6]).None? then None else Some((HexUnit(t[2..6]).value, t[6..]))
    else if Unletter(t[1]).None? then None
    else Some((Unletter(t[1]).value, t[2..]))
  }

  function Preceded(s: Text, r: Option<(Text, Text)>): Option<(Text, Text)> {
    match r case None => None case Some((t, after)) => Some((s + t, after))
  }

  /** The rest of a literal up to its closing quote, and what follows it. */
  function ReadString(t: Text): (r: Option<(Text, Text)>)
    ensures r.Some? ==> |r.value.1| < |t|
    decreases |t|
  {
    if t != [] && t[0] == QUOTE then Some(([], t[1..]))
    else
      match ReadUnit(t)
      case None => None
      case Some((u, rest)) => Preceded([u], ReadString(rest))
  }

  lemma {:induction false} HexRead(u: Unit)
    ensures HexUnit(HexDigits(u)) == Some(u)
  {
    var a, b, c := u / 16, u / 16 / 16, u / 16 / 16 / 16;
    assert u == a * 16 + u % 16 && a == b * 16 + a % 16 && b == c * 16 + b % 16;
  }

  /** A unit written alone is read back. */
  lemma {:induction false} UnitRead(s: Text, x: Text)
    requires s != [] && !Paired(s)
    ensures ReadUnit(Escape(s) + x) == Some((s[0], x))
  {
    var e, u := Escape(s), s[0];
    assert (e + x)[|e|..] == x;
    if Letter(u) == 0 && (u < 0x20 || Surrogate(u)) {
      assert (e + x)[2..6] == HexDigits(u);
      HexRead(u);
      hide HexUnit, HexDigits;
    }
  }

  /** A code point is read back, and reading goes on behind it. */
  lemma {:induction false} PointRead(s: Text, after: Text)
    requires s != []
    ensures ReadString(Escape(s) + after) == Preceded(s[..Width(s)], ReadString(after))
  {
    var t := Escape(s) + after;
    var rest := ReadString(after);
    assert t[0] == Escape(s)[0];
    if Paired(s) {
      assert t[1..][0] == s[1] && t[1..][1..] == after;
      assert ReadString(t[1..]) == Preceded([s[1]], rest);
      assert ReadString(t) == Preceded([s[0]], ReadString(t[1..]));
      if rest.Some? {
        assert [s[0]] + ([s[1]] + rest.value.0) == s[..2] + rest.value.0;
      }
    } else {
      UnitRead(s, after);
      assert s[..1] == [s[0]];
      hide ReadUnit;
    }
  }

  lemma {:induction false} Unescaped(s: Text, x: Text)
    requires s != []
    ensures Escaped(s) + [QUOTE] + x == Escape(s) + (Escaped(s[Width(s)..]) + [QUOTE] + x)
  {
    hide Escape, Width;
  }

  /** A literal is read back as the string it was printed for, and ends where it ends. */
  lemma {:induction false} StringRead(s: Text, x: Text)
    ensures ReadString(Escaped(s) + [QUOTE] + x) == Some((s, x))
    decreases |s|
  {
    if s == [] {
      assert (Escaped(s) + [QUOTE] + x)[1..] == x;
    } else {
      hide Escape, Escaped, ReadString, ReadUnit;
      Unescaped(s, x);
      PointRead(s, Escaped(s[Width(s)..]) + [QUOTE] + x);
      StringRead(s[Width(s)..], x);
      assert s == s[..Width(s)] + s[Width(s)..];
    }
  }

  // ---------------------------------------------------------------- what a literal never contains

  predicate Printable(s: Text) {
    forall u | u in s :: u >= 0x20
  }

  lemma {:induction false} EscapePlain(s: Text)
    requires s != []
    ensures Printable(Escape(s)) && WellFormed(Escape(s))
  {
    if Paired(s) {
      assert Escape(s)[2..] == [];
    } else {
      PlainWellFormed(Escape(s));
    }
  }

  /** A literal holds no control character and no lone surrogate, whatever the string holds. */
  lemma {:induction false} QuotedPlain(s: Text)
    ensures Printable(Quoted(s)) && WellFormed(Quoted(s))
  {
    EscapedPlain(s);
    PlainWellFormed([QUOTE]);
    WellFormedJoin([QUOTE], Escaped(s));
    WellFormedJoin([QUOTE] + Escaped(s), [QUOTE]);
  }

  lemma {:induction false} EscapedPlain(s: Text)
    ensures Printable(Escaped(s)) && WellFormed(Escaped(s))
    decreases |s|
  {
    if s != [] {
      EscapePlain(s);
      EscapedPlain(s[Width(s)..]);
      WellFormedJoin(Escape(s), Escaped(s[Width(s)..]));
    }
  }
}
