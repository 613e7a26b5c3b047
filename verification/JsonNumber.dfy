/** The numbers of section 6 of RFC 8259: how many units of a text are one. */
module JsonNumber {
  import opened Utf16

  const MINUS: Unit := 0x2D
  const PLUS: Unit := 0x2B
  const POINT: Unit := 0x2E
  const ZERO: Unit := 0x30

  predicate Digit(u: Unit) {
    0x30 <= u <= 0x39
  }

  predicate Exponent(u: Unit) {
    u == 0x65 || u == 0x45
  }

  function Digits(t: Text): (n: nat)
    ensures n <= |t|
  {
    if t == [] || !Digit(t[0]) then 0 else 1 + Digits(t[1..])
  }

  /** One zero, or digits that do not begin with zero; 0 for none. */
  function IntSize(t: Text): (n: nat)
    ensures n <= |t|
  {
    if t != [] && t[0] == ZERO then 1 else Digits(t)
  }

  /** A point and at least one digit; 0 for none. */
  function FracSize(t: Text): (n: nat)
    ensures n <= |t|
  {
    if t == [] || t[0] != POINT || Digits(t[1..]) == 0 then 0 else 1 + Digits(t[1..])
  }

  function SignSize(t: Text): (n: nat)
    ensures n <= |t|
  {
    if t != [] && (t[0] == MINUS || t[0] == PLUS) then 1 else 0
  }

  /** An `e` of either case, an optional sign and at least one digit; 0 for none. */
  function ExpSize(t: Text): (n: nat)
    ensures n <= |t|
  {
    if t == [] || !Exponent(t[0]) then 0
    else
      var sign := SignSize(t[1..]);
      var digits := Digits(t[1 + sign..]);
      if digits == 0 then 0 else 1 + sign + digits
  }

  function MinusSize(t: Text): (n: nat)
    ensures n <= |t|
  {
    if t != [] && t[0] == MINUS then 1 else 0
  }

  /** The longest number the text begins with; 0 for none. */
  function NumberSize(t: Text): (n: nat)
    ensures n <= |t|
  {
    var a := MinusSize(t);
    var b := a + IntSize(t[a..]);
    if b == a then 0
    else
      var d := b + FracSize(t[b..]);
      d + ExpSize(t[d..])
  }

  /** The whole text is one number. */
  predicate NumberText(t: Text) {
    t != [] && NumberSize(t) == |t|
  }

  // ---------------------------------------------------------------- where a number ends

  /** Nothing in front of which a number could go on. */
  predicate Ends(x: Text) {
    x == [] || !(Digit(x[0]) || Exponent(x[0]) || x[0] == POINT || x[0] == PLUS || x[0] == MINUS)
  }

  lemma {:induction false} DigitsEnd(s: Text, x: Text)
    requires Ends(x)
    ensures Digits(s + x) == Digits(s)
    decreases |s|
  {
    if s == [] {
      assert s + x == x;
    } else {
      assert (s + x)[0] == s[0] && (s + x)[1..] == s[1..] + x;
      DigitsEnd(s[1..], x);
    }
  }

  lemma {:induction false} Shift(s: Text, x: Text, n: nat)
    requires n <= |s|
    ensures (s + x)[n..] == s[n..] + x
  {
  }

  lemma {:induction false} PartsEnd(s: Text, x: Text)
    requires Ends(x)
    ensures MinusSize(s + x) == MinusSize(s) && SignSize(s + x) == SignSize(s)
    ensures IntSize(s + x) == IntSize(s) && FracSize(s + x) == FracSize(s)
  {
    DigitsEnd(s, x);
    if s == [] {
      assert s + x == x;
    } else {
      assert (s + x)[0] == s[0];
      Shift(s, x, 1);
      DigitsEnd(s[1..], x);
    }
  }

  lemma {:induction false} ExpEnd(s: Text, x: Text)
    requires Ends(x)
    ensures ExpSize(s + x) == ExpSize(s)
  {
    if s == [] {
      assert s + x == x;
    } else {
      assert (s + x)[0] == s[0];
      Shift(s, x, 1);
      PartsEnd(s[1..], x);
      var sign := SignSize(s[1..]);
      Shift(s, x, 1 + sign);
      DigitsEnd(s[1 + sign..], x);
    }
  }

  /** A number is read to its end, whatever comes after it that could not belong to it. */
  lemma {:induction false} NumberEnds(s: Text, x: Text)
    requires Ends(x)
    ensures NumberSize(s + x) == NumberSize(s)
  {
    hide MinusSize, IntSize, FracSize, ExpSize, Ends;
    PartsEnd(s, x);
    var a := MinusSize(s);
    Shift(s, x, a);
    PartsEnd(s[a..], x);
    var b := a + IntSize(s[a..]);
    Shift(s, x, b);
    PartsEnd(s[b..], x);
    var d := b + FracSize(s[b..]);
    Shift(s, x, d);
    ExpEnd(s[d..], x);
  }

  // ---------------------------------------------------------------- what a number holds

  predicate NumberUnit(u: Unit) {
    Digit(u) || Exponent(u) || u == POINT || u == PLUS || u == MINUS
  }

  predicate AllNumberUnits(s: Text) {
    forall u | u in s :: NumberUnit(u)
  }

  lemma {:induction false} DigitsHold(t: Text)
    ensures AllNumberUnits(t[..Digits(t)])
    decreases |t|
  {
    if t != [] && Digit(t[0]) {
      DigitsHold(t[1..]);
      assert t[..Digits(t)] == [t[0]] + t[1..][..Digits(t[1..])];
    }
  }

  lemma {:induction false} Joined(t: Text, i: nat, j: nat)
    requires i <= j <= |t| && AllNumberUnits(t[..i]) && AllNumberUnits(t[i..][..j - i])
    ensures AllNumberUnits(t[..j])
  {
    assert t[..j] == t[..i] + t[i..][..j - i];
  }

  lemma {:induction false} IntHolds(t: Text)
    ensures AllNumberUnits(t[..IntSize(t)]) && AllNumberUnits(t[..MinusSize(t)]) && AllNumberUnits(t[..SignSize(t)])
  {
    DigitsHold(t);
  }

  lemma {:induction false} FracHolds(t: Text)
    ensures AllNumberUnits(t[..FracSize(t)])
  {
    if FracSize(t) > 0 {
      DigitsHold(t[1..]);
      Joined(t, 1, FracSize(t));
    }
  }

  lemma {:induction false} ExpHolds(t: Text)
    ensures AllNumberUnits(t[..ExpSize(t)])
  {
    if ExpSize(t) > 0 {
      var sign := SignSize(t[1..]);
      IntHolds(t[1..]);
      Joined(t, 1, 1 + sign);
      DigitsHold(t[1 + sign..]);
      Joined(t, 1 + sign, ExpSize(t));
    }
  }

  lemma {:induction false} NumberHolds(t: Text)
    ensures AllNumberUnits(t[..NumberSize(t)])
  {
    hide AllNumberUnits, MinusSize, IntSize, FracSize, ExpSize;
    var a := MinusSize(t);
    var b := a + IntSize(t[a..]);
    IntHolds(t);
    IntHolds(t[a..]);
    Joined(t, a, b);
    var d := b + FracSize(t[b..]);
    FracHolds(t[b..]);
    Joined(t, b, d);
    ExpHolds(t[d..]);
    Joined(t, d, d + ExpSize(t[d..]));
    NothingHeld(t);
  }

  lemma {:induction false} NothingHeld(t: Text)
    ensures AllNumberUnits(t[..0])
  {
  }

  /** A number holds digits, signs, points and exponent letters only, and begins with a digit or minus. */
  lemma {:induction false} NumberTextUnits(t: Text)
    requires NumberText(t)
    ensures AllNumberUnits(t) && (Digit(t[0]) || t[0] == MINUS)
  {
    NumberHolds(t);
    assert t[..|t|] == t && t[0..] == t;
  }
}
