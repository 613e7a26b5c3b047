/** Canonical JSON unit by unit: what the text of each value is. */
module JsonLayout {
  import opened Options
  import opened Utf16
  import opened JsonNumber
  import opened JsonText
  import opened CanonicalJson

  /** Texts joined by commas. */
  function Joined(texts: seq<Text>): Text {
    if texts == [] then [] else if |texts| == 1 then texts[0] else texts[0] + [0x2C] + Joined(texts[1..])
  }

  lemma {:induction false} JoinedFirst(first: Text, rest: seq<Text>)
    ensures Joined([first] + rest) == first + (if rest == [] then [] else [0x2C] + Joined(rest))
  {
    assert ([first] + rest)[1..] == rest;
  }

  lemma {:induction false} JoinedNone()
    ensures Joined([]) == []
  {
  }

  const DIGITS: Text := [0x30, 0x31, 0x32, 0x33, 0x34, 0x35, 0x36, 0x37, 0x38, 0x39, 0x61, 0x62, 0x63, 0x64, 0x65, 0x66]

  lemma {:induction false} HexText(u: Unit)
    ensures HexDigits(u) == [DIGITS[u / 4096], DIGITS[u / 256 % 16], DIGITS[u / 16 % 16], DIGITS[u % 16]]
  {
    forall d | 0 <= d < 16
      ensures Hex(d) == DIGITS[d]
    {
    }
    assert u / 16 / 16 / 16 == u / 4096 && u / 16 / 16 % 16 == u / 256 % 16;
  }

  /** A code point in a literal, by the table of `JSON.stringify`. */
  lemma {:induction false} EscapeText(s: Text)
    requires s != []
    ensures var u := s[0];
      Escape(s) ==
        if |s| > 1 && 0xD800 <= u < 0xDC00 && 0xDC00 <= s[1] < 0xE000 then s[..2]
        else if u == 0x22 || u == 0x5C then [0x5C, u]
        else if u == 0x08 then [0x5C, 0x62]
        else if u == 0x09 then [0x5C, 0x74]
        else if u == 0x0A then [0x5C, 0x6E]
        else if u == 0x0C then [0x5C, 0x66]
        else if u == 0x0D then [0x5C, 0x72]
        else if u < 0x20 || 0xD800 <= u < 0xE000 then
          [0x5C, 0x75, DIGITS[u / 4096], DIGITS[u / 256 % 16], DIGITS[u / 16 % 16], DIGITS[u % 16]]
        else [u]
  {
    HexText(s[0]);
    hide HexDigits;
  }

  /** A literal is the text between quotes, code point by code point. */
  lemma {:induction false} LiteralText(s: Text)
    ensures Quoted(s) == [0x22] + Escaped(s) + [0x22]
    ensures Escaped([]) == []
    ensures s != [] ==>
      var width := if |s| > 1 && 0xD800 <= s[0] < 0xDC00 && 0xDC00 <= s[1] < 0xE000 then 2 else 1;
      Escaped(s) == Escape(s) + Escaped(s[width..])
  {
    hide Escape;
  }

  /** The elements of an array from `i` on. */
  function ItemTexts(v: Json, i: nat): seq<Text>
    requires Valid(v) && v.Arr? && i <= |v.items|
    decreases |v.items| - i
  {
    if i == |v.items| then [] else [Print(v.items[i])] + ItemTexts(v, i + 1)
  }

  lemma {:induction false} ItemsJoined(v: Json, i: nat)
    requires Valid(v) && v.Arr? && i <= |v.items|
    ensures |ItemTexts(v, i)| == |v.items| - i
    ensures PrintItems(v, i) == (if 0 < i < |v.items| then [0x2C] else []) + Joined(ItemTexts(v, i))
    decreases |v.items| - i
  {
    hide Print, Joined;
    if i < |v.items| {
      ItemsJoined(v, i + 1);
      JoinedFirst(Print(v.items[i]), ItemTexts(v, i + 1));
    } else {
      JoinedNone();
    }
  }

  /** The fields of an object, for the keys from `i` on. */
  function FieldTexts(v: Json, keys: seq<Text>, i: nat): seq<Text>
    requires Valid(v) && v.Obj? && i <= |keys| && Elements(keys) == KeySet(v.entries)
    decreases |keys| - i
  {
    if i == |keys| then []
    else
      assert keys[i] in Elements(keys);
      [Quoted(keys[i]) + [0x3A] + Print(Field(v, keys[i]))] + FieldTexts(v, keys, i + 1)
  }

  lemma {:induction false} FieldsJoined(v: Json, keys: seq<Text>, i: nat)
    requires Valid(v) && v.Obj? && i <= |keys| && Elements(keys) == KeySet(v.entries)
    ensures |FieldTexts(v, keys, i)| == |keys| - i
    ensures PrintFields(v, keys, i) == (if 0 < i < |keys| then [0x2C] else []) + Joined(FieldTexts(v, keys, i))
    decreases |keys| - i
  {
    hide Print, Quoted, Joined;
    if i < |keys| {
      FieldsJoined(v, keys, i + 1);
      assert keys[i] in Elements(keys);
      JoinedFirst(Quoted(keys[i]) + [0x3A] + Print(Field(v, keys[i])), FieldTexts(v, keys, i + 1));
    } else {
      JoinedNone();
    }
  }

  /** The texts part at some code unit with the smaller one in s, or s is a proper start of t. */
  predicate Before(s: Text, t: Text) {
    exists n | 0 <= n <= |s| && n < |t| :: s[..n] == t[..n] && (n == |s| || s[n] < t[n])
  }

  lemma {:induction false} LessIsBefore(s: Text, t: Text)
    ensures Less(s, t) <==> Before(s, t)
    decreases |s|
  {
    if s == [] || t == [] || s[0] != t[0] {
      assert s[..0] == t[..0];
    } else {
      LessIsBefore(s[1..], t[1..]);
      if Before(s[1..], t[1..]) {
        var n :| 0 <= n <= |s[1..]| && n < |t[1..]| && s[1..][..n] == t[1..][..n] &&
          (n == |s[1..]| || s[1..][n] < t[1..][n]);
        assert s[..n + 1] == [s[0]] + s[1..][..n] && t[..n + 1] == [t[0]] + t[1..][..n];
      }
      if Before(s, t) {
        var n :| 0 <= n <= |s| && n < |t| && s[..n] == t[..n] && (n == |s| || s[n] < t[n]);
        assert n > 0;
        assert s[1..][..n - 1] == s[..n][1..] && t[1..][..n - 1] == t[..n][1..];
      }
    }
  }

  /** The text of a value: literals, numbers as given, arrays in order, and objects with their keys in ascending
      order of code units, whichever way they were listed. */
  lemma {:induction false} ValueText(v: Json, keys: seq<Text>)
    requires Valid(v)
    requires v.Obj? ==>
      (forall i, j | 0 <= i < j < |keys| :: Before(keys[i], keys[j])) && Elements(keys) == KeySet(v.entries)
    ensures match v
      case Null => Print(v) == [0x6E, 0x75, 0x6C, 0x6C]
      case Bool(b) => Print(v) == if b then [0x74, 0x72, 0x75, 0x65] else [0x66, 0x61, 0x6C, 0x73, 0x65]
      case Num(text) => Print(v) == text
      case Str(s) => Print(v) == Quoted(s)
      case Arr(items) => Print(v) == [0x5B] + Joined(ItemTexts(v, 0)) + [0x5D]
      case Obj(entries) => Print(v) == [0x7B] + Joined(FieldTexts(v, keys, 0)) + [0x7D]
  {
    hide PrintItems, PrintFields, SortedKeys, Joined, ItemTexts, FieldTexts, Quoted, Before, Less;
    match v {
      case Arr(_) => ItemsJoined(v, 0);
      case Obj(entries) =>
        SortedKeysOk(entries);
        forall i, j | 0 <= i < j < |keys|
          ensures Less(keys[i], keys[j])
        {
          LessIsBefore(keys[i], keys[j]);
        }
        AscendingUnique(keys, SortedKeys(entries));
        FieldsJoined(v, keys, 0);
      case _ =>
    }
  }
}
