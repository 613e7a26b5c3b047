/** UTF-16 text: code units, surrogate pairs and code points. */
module Utf16 {
  type Unit = u: nat | u < 0x10000

  type Text = seq<Unit>

  predicate Leading(u: Unit) {
    0xD800 <= u < 0xDC00
  }

  predicate Trailing(u: Unit) {
    0xDC00 <= u < 0xE000
  }

  predicate Surrogate(u: Unit) {
    Leading(u) || Trailing(u)
  }

  /** The text begins with a surrogate pair. */
  predicate Paired(s: Text) {
    |s| > 1 && Leading(s[0]) && Trailing(s[1])
  }

  /** Units of the first code point of the text. */
  function Width(s: Text): nat
    requires s != []
  {
    if Paired(s) then 2 else 1
  }

  /** Every surrogate is half of a pair. */
  predicate WellFormed(s: Text) {
    s == [] || ((Paired(s) || !Surrogate(s[0])) && WellFormed(s[Width(s)..]))
  }

  lemma {:induction false} WellFormedJoin(s: Text, t: Text)
    requires WellFormed(s) && WellFormed(t)
    ensures WellFormed(s + t)
    decreases |s|
  {
    if s == [] {
      assert s + t == t;
    } else {
      assert Width(s + t) == Width(s);
      assert (s + t)[Width(s)..] == s[Width(s)..] + t;
      WellFormedJoin(s[Width(s)..], t);
    }
  }

  /** Text without surrogates is well formed. */
  lemma {:induction false} PlainWellFormed(s: Text)
    requires forall u | u in s :: !Surrogate(u)
    ensures WellFormed(s)
    decreases |s|
  {
    if s != [] {
      PlainWellFormed(s[1..]);
    }
  }
}
