/** Strings joined with NUL, decimal numerals, and the alphabet of opaque tokens. */
module Fields {

  const NUL: char := '\0'

  predicate NulFree(s: string) {
    NUL !in s
  }

  /** The first field of a NUL-joined message. */
  function UpToNul(m: string): string {
    if m == [] || m[0] == NUL then [] else [m[0]] + UpToNul(m[1..])
  }

  lemma {:induction false} UpToNulJoined(a: string, s: string)
    requires NulFree(a)
    ensures UpToNul(a + [NUL] + s) == a
  {
    var m := a + [NUL] + s;
    if a == [] {
      assert m[0] == NUL;
    } else {
      assert m[0] == a[0] && m[1..] == a[1..] + [NUL] + s;
      UpToNulJoined(a[1..], s);
    }
  }

  /** A NUL-free first field can be read back, and so can what follows it. */
  lemma {:induction false} FirstField(a: string, b: string, s: string, t: string)
    requires NulFree(a) && NulFree(b)
    requires a + [NUL] + s == b + [NUL] + t
    ensures a == b && s == t
  {
    UpToNulJoined(a, s);
    UpToNulJoined(b, t);
    assert s == (a + [NUL] + s)[|a| + 1..] && t == (b + [NUL] + t)[|b| + 1..];
  }

  function Digit(d: nat): (c: char)
    requires d < 10
    ensures '0' <= c <= '9'
  {
    '0' + d as char
  }

  /** `String(n)` for a non-negative integer. */
  function Decimal(n: nat): (s: string)
    ensures NulFree(s) && s != []
  {
    if n < 10 then [Digit(n)] else Decimal(n / 10) + [Digit(n % 10)]
  }

  function Value(s: string): int {
    if s == [] then 0 else Value(s[..|s| - 1]) * 10 + (s[|s| - 1] as int - '0' as int)
  }

  lemma {:induction false} ValueOfDecimal(n: nat)
    ensures Value(Decimal(n)) == n
  {
    var s := Decimal(n);
    if n >= 10 {
      ValueOfDecimal(n / 10);
      assert s[..|s| - 1] == Decimal(n / 10);
    }
  }

  lemma {:induction false} DecimalInjective(m: nat, n: nat)
    requires Decimal(m) == Decimal(n)
    ensures m == n
  {
    ValueOfDecimal(m);
    ValueOfDecimal(n);
  }

  predicate TokenChar(c: char) {
    'A' <= c <= 'Z' || 'a' <= c <= 'z' || '0' <= c <= '9' || c == '_' || c == '-'
  }

  /** The regular expression `^[A-Za-z0-9_-]{low,high}$`. */
  predicate Shaped(s: string, low: nat, high: nat) {
    low <= |s| <= high && forall c | c in s :: TokenChar(c)
  }

  lemma {:induction false} ShapedNulFree(s: string, low: nat, high: nat)
    requires Shaped(s, low, high)
    ensures NulFree(s)
  {
  }
}
