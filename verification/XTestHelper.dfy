/**
 * The XTEST helper process: a command loop that owns at most one button press and one key press. Every
 * answer of Xlib is arbitrary.
 */
module XTestHelper {
  import opened Options
  import opened Fields

  datatype HeldKey = NoKey | ReturnKey | BackspaceKey

  /** The requests made to the X server, with what came of them. A motion or a release is `verified` if the
      server was then seen to have it, and a release is a `cleanup` if the helper gives its claim up either
      way. */
  datatype Event =
    | Motion(x: int, y: int, accepted: bool, verified: bool)
    | ButtonPress(accepted: bool)
    | ButtonRelease(accepted: bool, verified: bool, cleanup: bool)
    | KeySeenUp(code: nat) // the check before a press
    | KeyPress(code: nat, accepted: bool)
    | KeyRelease(code: nat, accepted: bool, verified: bool, cleanup: bool)

  datatype Reason = Protocol | State | XTest

  datatype Reply = Ready | Okay(command: string) | Error(reason: Reason)

  /** An input line cut at white space, or one that does not fit the line buffer. */
  datatype Line = TooLong | Words(words: seq<string>)

  const MAX_TOKENS := 5
  const INT_MAX := 0x7FFF_FFFF
  const LONG_MAX := 0x7FFF_FFFF_FFFF_FFFF

  // ---------------------------------------------------------------- what a log says

  /** The helper holds the button: an accepted press without a verified release or a cleanup since. */
  predicate ButtonHeld(log: seq<Event>) {
    log != [] &&
    var before, last := ButtonHeld(log[..|log| - 1]), log[|log| - 1];
    match last
    case ButtonPress(accepted) => before || accepted
    case ButtonRelease(accepted, verified, cleanup) => before && !cleanup && !(accepted && verified)
    case _ => before
  }

  /** The key code the helper holds, in the same sense. */
  function KeyHeld(log: seq<Event>): Option<nat> {
    if log == [] then None
    else
      var before, last := KeyHeld(log[..|log| - 1]), log[|log| - 1];
      match last
      case KeyPress(code, accepted) => if accepted then Some(code) else before
      case KeyRelease(code, accepted, verified, cleanup) =>
        if before == Some(code) && (cleanup || (accepted && verified)) then None else before
      case _ => before
  }

  /** When a request may follow a log: presses only with nothing held, and of a key only right after it was
      seen up; releases only of what is held. */
  predicate MayFollow(log: seq<Event>, e: Event) {
    match e
    case Motion(_, _, _, _) => true
    case ButtonPress(_) => !ButtonHeld(log)
    case ButtonRelease(_, _, _) => ButtonHeld(log)
    case KeySeenUp(_) => true
    case KeyPress(code, _) => KeyHeld(log).None? && log != [] && log[|log| - 1] == KeySeenUp(code)
    case KeyRelease(code, _, _, _) => KeyHeld(log) == Some(code)
  }

  predicate Disciplined(log: seq<Event>) {
    log == [] || (Disciplined(log[..|log| - 1]) && MayFollow(log[..|log| - 1], log[|log| - 1]))
  }

  lemma {:induction false} Snoc(log: seq<Event>, e: Event)
    ensures (log + [e])[..|log|] == log && (log + [e])[|log|] == e
    ensures Disciplined(log) && MayFollow(log, e) ==> Disciplined(log + [e])
    ensures ButtonHeld(log + [e]) ==
      (match e
       case ButtonPress(accepted) => ButtonHeld(log) || accepted
       case ButtonRelease(accepted, verified, cleanup) => ButtonHeld(log) && !cleanup && !(accepted && verified)
       case _ => ButtonHeld(log))
    ensures KeyHeld(log + [e]) ==
      (match e
       case KeyPress(code, accepted) => if accepted then Some(code) else KeyHeld(log)
       case KeyRelease(code, accepted, verified, cleanup) =>
         if KeyHeld(log) == Some(code) && (cleanup || (accepted && verified)) then None else KeyHeld(log)
       case _ => KeyHeld(log))
  {
    assert (log + [e])[..|log|] == log;
  }

  /** Every release was accepted and verified. */
  predicate Settled(log: seq<Event>) {
    forall e | e in log :: e.ButtonRelease? || e.KeyRelease? ==> e.accepted && e.verified
  }

  /** The log has grown, and with a good outcome only by settled releases. */
  predicate Grew(before: seq<Event>, after: seq<Event>, good: bool) {
    before <= after && (good && Settled(before) ==> Settled(after))
  }

  /** The server granted all that it was asked since then, and was asked something. */
  predicate Granted(before: seq<bool>, after: seq<bool>) {
    before < after && forall i | |before| <= i < |after| :: after[i]
  }

  lemma {:induction false} GrantedAll(before: seq<bool>, asked: seq<bool>)
    ensures Granted(before, before + asked) <==> asked != [] && false !in asked
  {
    if Granted(before, before + asked) {
      assert forall i | 0 <= i < |asked| :: asked[i] == (before + asked)[|before| + i];
    }
  }

  /** What was denied stays denied. */
  lemma {:induction false} DeniedStays(before: seq<bool>, asked: seq<bool>, after: seq<bool>)
    requires before + asked <= after && false in asked
    ensures before < after && !Granted(before, after)
  {
    var i :| 0 <= i < |asked| && !asked[i];
    assert !after[|before| + i];
  }

  /** ... or was asked nothing. */
  predicate Undenied(before: seq<bool>, after: seq<bool>) {
    after == before || Granted(before, after)
  }

  lemma {:induction false} UndeniedTwice(before: seq<bool>, between: seq<bool>, after: seq<bool>)
    requires before <= between <= after
    ensures Undenied(before, after) <==> Undenied(before, between) && Undenied(between, after)
  {
    if Granted(before, after) {
      assert forall i | |before| <= i < |between| :: between[i] == after[i];
    }
  }

  lemma {:induction false} GrewBy(before: seq<Event>, e: Event)
    ensures Grew(before, before + [e], e.ButtonRelease? || e.KeyRelease? ==> e.accepted && e.verified)
  {
  }

  // ---------------------------------------------------------------- reading a line

  predicate Digits(s: string) {
    forall i | 0 <= i < |s| :: '0' <= s[i] <= '9'
  }

  /** Vertical tabs and form feeds, the white space that `strtol` skips and that does not cut a line. */
  predicate Skipped(c: char) {
    c as int == 0x0B || c as int == 0x0C
  }

  function Unspaced(s: string): string {
    if s != [] && Skipped(s[0]) then Unspaced(s[1..]) else s
  }

  /** `strtol` over the whole token; None for anything else than a number in the range of a long. */
  function ParseLong(token: string): Option<int> {
    ParseSigned(Unspaced(token))
  }

  function ParseSigned(s: string): Option<int> {
    var signed := s != [] && (s[0] == '-' || s[0] == '+');
    var digits := if signed then s[1..] else s;
    if digits == [] || !Digits(digits) then None
    else
      var n := Value(digits);
      if signed && s[0] == '-' then if n > LONG_MAX + 1 then None else Some(-n)
      else if n > LONG_MAX then None
      else Some(n)
  }

  function Zeros(n: nat): string {
    seq(n, _ => '0')
  }

  function Signed(sign: string, n: nat): int {
    if sign == "-" then -(n as int) else n
  }

  /** The token is a numeral of v: space, a sign and leading zeros may stand before its digits. */
  predicate NumeralWith(token: string, v: int, space: string, sign: string, zeros: nat, n: nat) {
    && (forall c | c in space :: Skipped(c)) && sign in {"", "+", "-"}
    && token == space + sign + Zeros(zeros) + Decimal(n) && v == Signed(sign, n)
  }

  ghost predicate Numeral(token: string, v: int) {
    exists space, sign, zeros, n :: NumeralWith(token, v, space, sign, zeros, n)
  }

  lemma {:induction false} UnspacedSplit(s: string) returns (space: string)
    ensures s == space + Unspaced(s) && forall c | c in space :: Skipped(c)
    ensures Unspaced(s) != [] ==> !Skipped(Unspaced(s)[0])
  {
    if s != [] && Skipped(s[0]) {
      var rest := UnspacedSplit(s[1..]);
      space := [s[0]] + rest;
    } else {
      space := [];
    }
  }

  lemma {:induction false} UnspacedJoined(space: string, s: string)
    requires (forall c | c in space :: Skipped(c)) && (s != [] ==> !Skipped(s[0]))
    ensures Unspaced(space + s) == s
  {
    if space == [] {
      assert space + s == s;
    } else {
      UnspacedJoined(space[1..], s);
      assert (space + s)[1..] == space[1..] + s;
    }
  }

  lemma {:induction false} ZerosValue(zeros: nat)
    ensures Digits(Zeros(zeros)) && Value(Zeros(zeros)) == 0
  {
    if zeros > 0 {
      ZerosValue(zeros - 1);
      assert Zeros(zeros)[..zeros - 1] == Zeros(zeros - 1);
    }
  }

  lemma {:induction false} ValueSnoc(s: string, d: nat)
    requires d < 10
    ensures Value(s + [Digit(d)]) == Value(s) * 10 + d
    ensures Digits(s + [Digit(d)]) <==> Digits(s)
  {
    var t := s + [Digit(d)];
    assert t[..|t| - 1] == s;
    assert Digits(t) ==> forall i | 0 <= i < |s| :: s[i] == t[i];
  }

  lemma {:induction false} NumeralValue(zeros: nat, n: nat)
    ensures var digits := Zeros(zeros) + Decimal(n);
      digits != [] && Digits(digits) && Value(digits) == n
    decreases n
  {
    if n < 10 {
      ZerosValue(zeros);
      hide Value, Digits;
      ValueSnoc(Zeros(zeros), n);
    } else {
      NumeralValue(zeros, n / 10);
      hide Zeros, Value, Digits;
      ValueSnoc(Zeros(zeros) + Decimal(n / 10), n % 10);
      assert Zeros(zeros) + Decimal(n) == Zeros(zeros) + Decimal(n / 10) + [Digit(n % 10)];
    }
  }

  lemma {:induction false} DigitsAreNumeral(d: string) returns (zeros: nat, n: nat)
    requires Digits(d) && d != []
    ensures d == Zeros(zeros) + Decimal(n)
    decreases |d|
  {
    var last := d[|d| - 1] as int - '0' as int;
    assert d == d[..|d| - 1] + [Digit(last)];
    if |d| == 1 {
      zeros, n := 0, last;
    } else {
      zeros, n := DigitsAreNumeral(d[..|d| - 1]);
      if n == 0 {
        zeros, n := zeros + 1, last;
      } else {
        n := n * 10 + last;
        assert Decimal(n) == Decimal(n / 10) + [Digit(n % 10)];
      }
    }
  }

  lemma {:induction false} SignedRead(sign: string, digits: string)
    requires sign in {"", "+", "-"} && digits != [] && Digits(digits) && Value(digits) >= 0
    ensures var s, v := sign + digits, Signed(sign, Value(digits));
      && !Skipped(s[0])
      && ParseSigned(s) == if -0x8000_0000_0000_0000 <= v < 0x8000_0000_0000_0000 then Some(v) else None
  {
    var s := sign + digits;
    assert '0' <= digits[0] <= '9';
    hide Digits, Value;
    if sign == "" {
      assert s == digits;
    } else {
      assert s[0] == sign[0] && s[1..] == digits;
    }
  }

  lemma {:induction false} SignSplit(s: string) returns (sign: string, digits: string)
    requires ParseSigned(s).Some?
    ensures s == sign + digits && sign in {"", "+", "-"} && digits != [] && Digits(digits)
  {
    if s[0] == '-' {
      sign, digits := "-", s[1..];
    } else if s[0] == '+' {
      sign, digits := "+", s[1..];
    } else {
      sign, digits := "", s;
    }
  }

  lemma {:induction false} NumeralParsed(token: string, v: int, space: string, sign: string, zeros: nat, n: nat)
    requires NumeralWith(token, v, space, sign, zeros, n)
    ensures ParseLong(token) == if -0x8000_0000_0000_0000 <= v < 0x8000_0000_0000_0000 then Some(v) else None
  {
    hide ParseSigned, Digits, Value, Zeros, Decimal, Unspaced, Skipped;
    var digits := Zeros(zeros) + Decimal(n);
    NumeralValue(zeros, n);
    SignedRead(sign, digits);
    UnspacedJoined(space, sign + digits);
    assert token == space + (sign + digits);
  }

  lemma {:induction false} ParsedNumeral(token: string)
    requires ParseLong(token).Some?
    ensures Numeral(token, ParseLong(token).value)
  {
    hide ParseSigned, Value, Zeros, Decimal, Unspaced, Digits;
    var space := UnspacedSplit(token);
    var sign, digits := SignSplit(Unspaced(token));
    var zeros, n := DigitsAreNumeral(digits);
    NumeralValue(zeros, n);
    SignedRead(sign, digits);
    assert NumeralWith(token, ParseLong(token).value, space, sign, zeros, n);
  }

  /** A token is read as v exactly if it is a numeral of v, and v fits into a long. */
  lemma {:induction false} LongRead(token: string, v: int)
    ensures ParseLong(token) == Some(v) <==>
      Numeral(token, v) && -0x8000_0000_0000_0000 <= v < 0x8000_0000_0000_0000
  {
    hide ParseLong, NumeralWith;
    if ParseLong(token).Some? {
      ParsedNumeral(token);
      var w := ParseLong(token).value;
      var space, sign, zeros, n :| NumeralWith(token, w, space, sign, zeros, n);
      NumeralParsed(token, w, space, sign, zeros, n);
    }
    if Numeral(token, v) {
      var space, sign, zeros, n :| NumeralWith(token, v, space, sign, zeros, n);
      NumeralParsed(token, v, space, sign, zeros, n);
    }
  }

  function KeyNamed(name: string): HeldKey {
    if name == "RETURN" then ReturnKey else if name == "BACKSPACE" then BackspaceKey else NoKey
  }

  /** The commands that lines hold, in order; a line that is too long counts as one. */
  function Commands(lines: seq<Line>): seq<string> {
    if lines == [] then []
    else
      Commands(lines[..|lines| - 1]) +
      match lines[|lines| - 1]
      case TooLong => [""]
      case Words(words) => if 0 < |words| <= 5 then [words[0]] else []
  }

  function OkayAll(commands: seq<string>): seq<Reply> {
    seq(|commands|, i requires 0 <= i < |commands| => Okay(commands[i]))
  }

  lemma {:induction false} CommandsSnoc(lines: seq<Line>, i: nat)
    requires i < |lines|
    ensures Commands(lines[..i + 1]) == Commands(lines[..i]) + Commands([lines[i]])
    ensures Commands([lines[i]]) ==
      match lines[i]
      case TooLong => [""]
      case Words(words) => if 0 < |words| <= 5 then [words[0]] else []
  {
    assert lines[..i + 1][..i] == lines[..i];
    assert [lines[i]][..0] == [];
  }

  lemma {:induction false} NoCommands(lines: seq<Line>)
    ensures [Ready] == [Ready] + OkayAll(Commands(lines[..0]))
  {
  }

  lemma {:induction false} OkaySnoc(commands: seq<string>, command: string)
    ensures [Ready] + OkayAll(commands + [command]) == [Ready] + OkayAll(commands) + [Okay(command)]
    ensures forall last: Reply | last == Okay(command) || last.Error? ::
      Answered([Ready] + OkayAll(commands) + [last], commands + [command])
  {
  }

  lemma {:induction false} OkayAnswers(commands: seq<string>)
    ensures Answered([Ready] + OkayAll(commands), commands)
  {
  }

  /** After the greeting one reply for each command, all of them OK but perhaps for the last. */
  predicate Answered(replies: seq<Reply>, commands: seq<string>) {
    && |replies| == 1 + |commands| && replies[0] == Ready
    && forall i | 0 <= i < |commands| ::
         replies[1 + i] == Okay(commands[i]) || (i == |commands| - 1 && replies[1 + i].Error?)
  }

  /** The last reply is what ends the loop, and its code. */
  predicate Ended(replies: seq<Reply>, code: nat) {
    replies != [] &&
    match replies[|replies| - 1]
    case Ready => false
    case Okay(command) => command == "CLOSE" && code == 0
    case Error(reason) => code == if reason == XTest then 3 else 2
  }

  // ---------------------------------------------------------------- the process

  class InputState {
    const width: nat
    const height: nat
    const returnKeycode: nat
    const backspaceKeycode: nat
    var primaryPressed: bool
    var pointerPositionKnown: bool
    var pointerX: int
    var pointerY: int
    var cleanupX: int
    var cleanupY: int
    var heldKey: HeldKey
    var log: seq<Event>
    var replies: seq<Reply>
    var answers: seq<bool> // what the server granted and what not, so far

    function KeycodeFor(key: HeldKey): nat {
      match key
      case NoKey => 0
      case ReturnKey => returnKeycode
      case BackspaceKey => backspaceKeycode
    }

    /** The fields are what the log says is held. */
    ghost predicate Valid()
      reads this
    {
      && 0 < returnKeycode < 256 && 0 < backspaceKeycode < 256
      && Disciplined(log)
      && primaryPressed == ButtonHeld(log)
      && KeyHeld(log) == (if heldKey.NoKey? then None else Some(KeycodeFor(heldKey)))
    }

    constructor (width: nat, height: nat, returnKeycode: nat, backspaceKeycode: nat)
      requires 0 < returnKeycode < 256 && 0 < backspaceKeycode < 256
      ensures Valid() && log == [] && replies == [] && answers == []
    {
      this.width, this.height := width, height;
      this.returnKeycode, this.backspaceKeycode := returnKeycode, backspaceKeycode;
      primaryPressed, pointerPositionKnown, heldKey := false, false, NoKey;
      pointerX, pointerY, cleanupX, cleanupY := 0, 0, 0, 0;
      log, replies, answers := [], [], [];
    }

    /** An answer of the X server: a request accepted, a sync without an error, a state observed. */
    method Answer() returns (yes: bool)
      modifies `answers
      ensures answers == old(answers) + [yes]
    {
      yes := *;
      answers := answers + [yes];
    }

    method InjectMove(x: int, y: int) returns (ok: bool)
      requires Valid()
      modifies `pointerPositionKnown, `pointerX, `pointerY, `log, `answers
      ensures Valid() && pointerPositionKnown == ok && (ok ==> pointerX == x && pointerY == y)
      ensures exists accepted, verified ::
        log == old(log) + [Motion(x, y, accepted, verified)] && ok == (accepted && verified)
      ensures old(answers) < answers && ok == Granted(old(answers), answers)
      ensures Grew(old(log), log, true)
    {
      hide Disciplined, ButtonHeld, KeyHeld, Grew;
      pointerPositionKnown := false;
      var accepted := Answer();
      var synced := Answer();
      var there := Answer();
      var verified := accepted && synced && there;
      ghost var asked := [accepted, synced, there];
      assert answers == old(answers) + asked;
      GrantedAll(old(answers), asked);
      Snoc(log, Motion(x, y, accepted, verified));
      GrewBy(log, Motion(x, y, accepted, verified));
      log := log + [Motion(x, y, accepted, verified)];
      if !accepted || !verified {
        return false;
      }
      pointerX, pointerY, pointerPositionKnown := x, y, true;
      return true;
    }

    /** A press the server accepted is cleaned up at once if it cannot be verified. */
    method InjectButtonDown() returns (ok: bool)
      requires Valid() && !primaryPressed
      modifies `primaryPressed, `log, `answers
      ensures Valid() && primaryPressed == ok
      ensures !old(pointerPositionKnown) ==> !ok && log == old(log) && answers == old(answers)
      ensures old(pointerPositionKnown) ==> |log| > |old(log)| && log[|old(log)|].ButtonPress? && old(log) <= log
      ensures old(pointerPositionKnown) ==> old(answers) < answers && ok == Granted(old(answers), answers)
      ensures ok ==> log == old(log) + [ButtonPress(true)]
      ensures Grew(old(log), log, ok)
    {
      hide Disciplined, ButtonHeld, KeyHeld;
      if !pointerPositionKnown {
        return false;
      }
      var accepted := Answer();
      Snoc(log, ButtonPress(accepted));
      log := log + [ButtonPress(accepted)];
      GrantedAll(old(answers), [accepted]);
      if !accepted {
        return false;
      }
      primaryPressed := true;
      var synced := Answer();
      var pressed := Answer();
      var there := Answer();
      ghost var asked := [accepted, synced, pressed, there];
      assert answers == old(answers) + asked;
      GrantedAll(old(answers), asked);
      if synced && pressed && there {
        return true;
      }
      var _ := CleanupPressedButton();
      DeniedStays(old(answers), asked, answers);
      return false;
    }

    method InjectButtonUp() returns (ok: bool)
      requires Valid() && primaryPressed
      modifies `primaryPressed, `log, `answers
      ensures Valid() && primaryPressed == !ok
      ensures exists accepted, verified ::
        log == old(log) + [ButtonRelease(accepted, verified, false)] && ok == (accepted && verified)
      ensures old(answers) < answers && ok == Granted(old(answers), answers)
      ensures Grew(old(log), log, ok)
    {
      hide Disciplined, ButtonHeld, KeyHeld;
      var accepted := Answer();
      var synced := Answer();
      var observed := Answer();
      var verified := accepted && synced && observed;
      ghost var asked := [accepted, synced, observed];
      assert answers == old(answers) + asked;
      GrantedAll(old(answers), asked);
      Snoc(log, ButtonRelease(accepted, verified, false));
      log := log + [ButtonRelease(accepted, verified, false)];
      if !accepted || !verified {
        return false;
      }
      primaryPressed := false;
      return true;
    }

    /** Nothing without a press of its own; otherwise one more release attempt, and the claim is given up. */
    method CleanupPressedButton() returns (ok: bool)
      requires Valid()
      modifies `primaryPressed, `log, `answers
      ensures Valid() && !primaryPressed
      ensures !old(primaryPressed) ==> ok && log == old(log) && answers == old(answers)
      ensures old(primaryPressed) ==> old(answers) < answers && ok == Granted(old(answers), answers)
      ensures old(primaryPressed) ==> exists moved, accepted, verified ::
        log == old(log) + [Motion(cleanupX, cleanupY, moved, false)] + [ButtonRelease(accepted, verified, true)]
        && ok == (moved && accepted && verified)
      ensures Grew(old(log), log, ok)
    {
      hide Disciplined, ButtonHeld, KeyHeld;
      ok := true;
      if !primaryPressed {
        return true;
      }
      var moved := Answer();
      Snoc(log, Motion(cleanupX, cleanupY, moved, false));
      log := log + [Motion(cleanupX, cleanupY, moved, false)];
      if !moved {
        ok := false;
      }
      var accepted := Answer();
      if !accepted {
        ok := false;
      }
      var synced := Answer();
      if !synced {
        ok := false;
      }
      var observed := Answer();
      if !observed {
        ok := false;
      }
      ghost var asked := [moved, accepted, synced, observed];
      assert answers == old(answers) + asked;
      GrantedAll(old(answers), asked);
      Snoc(log, ButtonRelease(accepted, synced && observed, true));
      log := log + [ButtonRelease(accepted, synced && observed, true)];
      primaryPressed := false;
      assert log ==
        old(log) + [Motion(cleanupX, cleanupY, moved, false)] + [ButtonRelease(accepted, synced && observed, true)];
    }

    /** A key is pressed only after it was seen up. */
    method InjectKeyDown(key: HeldKey) returns (ok: bool)
      requires Valid()
      modifies `heldKey, `log, `answers
      ensures Valid()
      ensures ok ==>
        heldKey == key && log == old(log) + [KeySeenUp(KeycodeFor(key))] + [KeyPress(KeycodeFor(key), true)]
      ensures !ok ==> heldKey == old(heldKey)
      ensures Grew(old(log), log, ok)
      ensures key.NoKey? || !old(heldKey).NoKey? ==> !ok && log == old(log) && answers == old(answers)
      ensures !key.NoKey? && old(heldKey).NoKey? ==> old(answers) < answers && ok == Granted(old(answers), answers)
    {
      hide Disciplined, ButtonHeld, KeyHeld;
      var keycode := KeycodeFor(key);
      if key.NoKey? || keycode == 0 || !heldKey.NoKey? {
        return false;
      }
      var up := Answer();
      GrantedAll(old(answers), [up]);
      if !up {
        return false;
      }
      Snoc(log, KeySeenUp(keycode));
      log := log + [KeySeenUp(keycode)];
      var accepted := Answer();
      Snoc(log, KeyPress(keycode, accepted));
      log := log + [KeyPress(keycode, accepted)];
      assert answers == old(answers) + [up, accepted];
      GrantedAll(old(answers), [up, accepted]);
      if !accepted {
        return false;
      }
      heldKey := key;
      var synced := Answer();
      var down := Answer();
      ghost var asked := [up, accepted, synced, down];
      assert answers == old(answers) + asked;
      GrantedAll(old(answers), asked);
      if synced && down {
        return true;
      }
      var _ := CleanupPressedKey();
      DeniedStays(old(answers), asked, answers);
      return false;
    }

    method InjectKeyUp(key: HeldKey) returns (ok: bool)
      requires Valid()
      modifies `heldKey, `log, `answers
      ensures Valid() && heldKey == if ok then NoKey else old(heldKey)
      ensures key.NoKey? || old(heldKey) != key ==> !ok && log == old(log) && answers == old(answers)
      ensures !key.NoKey? && old(heldKey) == key ==> old(answers) < answers && ok == Granted(old(answers), answers)
      ensures !key.NoKey? && old(heldKey) == key ==> exists accepted, verified ::
        log == old(log) + [KeyRelease(KeycodeFor(key), accepted, verified, false)] && ok == (accepted && verified)
      ensures Grew(old(log), log, ok)
    {
      hide Disciplined, ButtonHeld, KeyHeld;
      var keycode := KeycodeFor(key);
      if key.NoKey? || keycode == 0 || heldKey != key {
        return false;
      }
      var accepted := Answer();
      var synced := Answer();
      var observed := Answer();
      var verified := accepted && synced && observed;
      ghost var asked := [accepted, synced, observed];
      assert answers == old(answers) + asked;
      GrantedAll(old(answers), asked);
      Snoc(log, KeyRelease(keycode, accepted, verified, false));
      log := log + [KeyRelease(keycode, accepted, verified, false)];
      if !accepted || !verified {
        return false;
      }
      heldKey := NoKey;
      return true;
    }

    method CleanupPressedKey() returns (ok: bool)
      requires Valid()
      modifies `heldKey, `log, `answers
      ensures Valid() && heldKey.NoKey?
      ensures old(heldKey).NoKey? ==> ok && log == old(log) && answers == old(answers)
      ensures !old(heldKey).NoKey? ==> old(answers) < answers && ok == Granted(old(answers), answers)
      ensures !old(heldKey).NoKey? ==> exists accepted, verified ::
        log == old(log) + [KeyRelease(KeycodeFor(old(heldKey)), accepted, verified, true)]
        && ok == (accepted && verified)
      ensures Grew(old(log), log, ok)
    {
      hide Disciplined, ButtonHeld, KeyHeld;
      var key := heldKey;
      var keycode := KeycodeFor(key);
      ok := true;
      if key.NoKey? {
        return true;
      }
      var accepted := Answer();
      if keycode == 0 || !accepted {
        ok := false;
      }
      var synced := Answer();
      if !synced {
        ok := false;
      }
      var observed := Answer();
      if keycode != 0 && !observed {
        ok := false;
      }
      ghost var asked := [accepted, synced, observed];
      assert answers == old(answers) + asked;
      GrantedAll(old(answers), asked);
      Snoc(log, KeyRelease(keycode, accepted, synced && observed, true));
      log := log + [KeyRelease(keycode, accepted, synced && observed, true)];
      heldKey := NoKey;
    }

    /** Afterwards nothing is held, whatever the server answered; and it succeeds only if every release it
        made was accepted and verified. */
    method CleanupAll() returns (ok: bool)
      requires Valid()
      modifies `primaryPressed, `heldKey, `log, `answers
      ensures Valid() && !primaryPressed && heldKey.NoKey?
      ensures Grew(old(log), log, ok)
      ensures !old(primaryPressed) && old(heldKey).NoKey? ==> ok && log == old(log)
      ensures old(answers) <= answers && ok == Undenied(old(answers), answers)
    {
      hide Disciplined, ButtonHeld, KeyHeld;
      var keyOk := CleanupPressedKey();
      ghost var between := answers;
      var pointerOk := CleanupPressedButton();
      UndeniedTwice(old(answers), between, answers);
      return keyOk && pointerOk;
    }

    function InBounds(value: Option<int>, horizontal: bool): bool {
      value.Some? && 0 <= value.value < (if horizontal then width else height) && value.value <= INT_MAX
    }

    method Refuse(reason: Reason, code: nat) returns (result: Option<nat>)
      modifies `replies
      ensures replies == old(replies) + [Error(reason)] && result == Some(code)
    {
      replies := replies + [Error(reason)];
      return Some(code);
    }

    /** The answer to a command the server was asked about. */
    method Conclude(ok: bool, command: string) returns (result: Option<nat>)
      modifies `replies
      ensures replies == old(replies) + [if ok then Okay(command) else Error(XTest)]
      ensures result == if ok then None else Some(3)
    {
      if !ok {
        result := Refuse(XTest, 3);
        return;
      }
      replies := replies + [Okay(command)];
      return None;
    }

    // -------------------------------------------------------------- the commands

    /** Why a command is refused without asking the server; None if it is not. */
    function MoveRefusal(words: seq<string>): Option<Reason>
      requires words != []
    {
      if |words| == 3 && InBounds(ParseLong(words[1]), true) && InBounds(ParseLong(words[2]), false) then None
      else Some(Protocol)
    }

    function DownRefusal(words: seq<string>): Option<Reason>
      requires words != []
      reads this
    {
      if primaryPressed then Some(State)
      else if |words| == 4 && words[1] == "1"
        && InBounds(ParseLong(words[2]), true) && InBounds(ParseLong(words[3]), false)
      then None
      else Some(Protocol)
    }

    function UpRefusal(words: seq<string>): Option<Reason>
      requires words != []
      reads this
    {
      if !primaryPressed then Some(State) else if |words| == 2 && words[1] == "1" then None else Some(Protocol)
    }

    function CancelRefusal(words: seq<string>): Option<Reason>
      requires words != []
    {
      if |words| == 2 && words[1] == "1" then None else Some(Protocol)
    }

    function KeyDownRefusal(words: seq<string>): Option<Reason>
      requires words != []
      reads this
    {
      if !heldKey.NoKey? then Some(State)
      else if |words| == 2 && (words[1] == "RETURN" || words[1] == "BACKSPACE") then None
      else Some(Protocol)
    }

    function KeyUpRefusal(words: seq<string>): Option<Reason>
      requires words != []
      reads this
    {
      if heldKey.NoKey? then Some(State)
      else if |words| == 2 && words[1] == (if heldKey.ReturnKey? then "RETURN" else "BACKSPACE") then None
      else Some(Protocol)
    }

    function BareRefusal(words: seq<string>): Option<Reason> {
      if |words| == 1 then None else Some(Protocol)
    }

    function Refusal(words: seq<string>): Option<Reason>
      requires words != []
      reads this
    {
      match words[0]
      case "MOVE" => MoveRefusal(words)
      case "DOWN" => DownRefusal(words)
      case "UP" => UpRefusal(words)
      case "CANCEL" => CancelRefusal(words)
      case "KEYDOWN" => KeyDownRefusal(words)
      case "KEYUP" => KeyUpRefusal(words)
      case "CANCELKEY" => BareRefusal(words)
      case "CLOSE" => BareRefusal(words)
      case _ => Some(Protocol)
    }

    /** A coordinate on the screen. */
    ghost predicate OnScreen(token: string, size: nat) {
      exists v :: 0 <= v < size && v < 0x8000_0000 && Numeral(token, v)
    }

    lemma {:induction false} BoundsRead(token: string, horizontal: bool)
      ensures InBounds(ParseLong(token), horizontal) <==> OnScreen(token, if horizontal then width else height)
    {
      var size := if horizontal then width else height;
      if InBounds(ParseLong(token), horizontal) {
        LongRead(token, ParseLong(token).value);
      }
      if OnScreen(token, size) {
        var v :| 0 <= v < size && v < 0x8000_0000 && Numeral(token, v);
        LongRead(token, v);
      }
    }

    /** The commands that are not refused, and what the others are refused for. */
    lemma {:induction false} CommandsTaken(words: seq<string>)
      requires words != []
      ensures Refusal(words).None? <==>
        || (words[0] == "MOVE" && |words| == 3 && OnScreen(words[1], width) && OnScreen(words[2], height))
        || (words[0] == "DOWN" && |words| == 4 && words[1] == "1" && OnScreen(words[2], width)
            && OnScreen(words[3], height) && !primaryPressed)
        || (words == ["UP", "1"] && primaryPressed)
        || words == ["CANCEL", "1"]
        || (words in {["KEYDOWN", "RETURN"], ["KEYDOWN", "BACKSPACE"]} && heldKey.NoKey?)
        || (words == ["KEYUP", "RETURN"] && heldKey.ReturnKey?)
        || (words == ["KEYUP", "BACKSPACE"] && heldKey.BackspaceKey?)
        || words in {["CANCELKEY"], ["CLOSE"]}
      ensures Refusal(words) == Some(State) <==>
        || (words[0] == "DOWN" && primaryPressed) || (words[0] == "UP" && !primaryPressed)
        || (words[0] == "KEYDOWN" && !heldKey.NoKey?) || (words[0] == "KEYUP" && heldKey.NoKey?)
      ensures Refusal(words) != Some(XTest)
    {
      if |words| > 1 {
        BoundsRead(words[1], true);
      }
      if |words| > 2 {
        BoundsRead(words[2], true);
        BoundsRead(words[2], false);
      }
      if |words| > 3 {
        BoundsRead(words[3], false);
      }
      hide InBounds, ParseLong, OnScreen;
      assert |words| == 1 ==> words == [words[0]];
      assert |words| == 2 ==> words == [words[0], words[1]];
    }

    /** The command was refused, and nothing was asked of the server. */
    twostate predicate RefusedFor(reason: Reason, new result: Option<nat>)
      reads this
    {
      && result == Some(2) && replies == old(replies) + [Error(reason)]
      && log == old(log) && answers == old(answers)
      && primaryPressed == old(primaryPressed) && heldKey == old(heldKey)
    }

    /** The server was asked; the command is answered OK exactly if all went well, and else ends the loop. */
    twostate predicate Concluded(good: bool, command: string, new result: Option<nat>)
      reads this
    {
      && replies == old(replies) + [if good then Okay(command) else Error(XTest)]
      && result == if good then None else Some(3)
    }

    /** MOVE: one motion to the given place. */
    method RunMove(words: seq<string>) returns (result: Option<nat>)
      requires Valid() && 0 < |words| <= MAX_TOKENS
      modifies `pointerPositionKnown, `pointerX, `pointerY, `log, `replies, `answers
      ensures Valid() && Grew(old(log), log, result.None?)
      ensures var refusal := MoveRefusal(words);
        if refusal.Some? then RefusedFor(refusal.value, result)
        else
          && Concluded(Granted(old(answers), answers), "MOVE", result) && old(answers) < answers
          && exists accepted, verified ::
               log == old(log) + [Motion(ParseLong(words[1]).value, ParseLong(words[2]).value, accepted, verified)]
      ensures result.None? ==>
        && |words| == 3 && pointerPositionKnown
        && ParseLong(words[1]) == Some(pointerX) && ParseLong(words[2]) == Some(pointerY)
        && 0 <= pointerX < width && 0 <= pointerY < height
        && log == old(log) + [Motion(pointerX, pointerY, true, true)]
    {
      hide ParseLong, Disciplined, ButtonHeld, KeyHeld, Settled;
      if |words| != 3 || !InBounds(ParseLong(words[1]), true) || !InBounds(ParseLong(words[2]), false) {
        result := Refuse(Protocol, 2);
        return;
      }
      var ok := InjectMove(ParseLong(words[1]).value, ParseLong(words[2]).value);
      result := Conclude(ok, "MOVE");
    }

    /** DOWN: one press, where the pointer is known to be. */
    method RunDown(words: seq<string>) returns (result: Option<nat>)
      requires Valid() && 0 < |words| <= MAX_TOKENS
      modifies `cleanupX, `cleanupY, `primaryPressed, `log, `replies, `answers
      ensures Valid() && Grew(old(log), log, result.None?)
      ensures var refusal := old(DownRefusal(words));
        if refusal.Some? then RefusedFor(refusal.value, result)
        else
          && Concluded(old(pointerPositionKnown) && Granted(old(answers), answers), "DOWN", result)
          && ParseLong(words[2]) == Some(cleanupX) && ParseLong(words[3]) == Some(cleanupY)
          && (old(pointerPositionKnown) ==>
                old(answers) < answers && |log| > |old(log)| && log[|old(log)|].ButtonPress?)
      ensures result.None? ==>
        !old(primaryPressed) && primaryPressed && pointerPositionKnown && log == old(log) + [ButtonPress(true)]
    {
      hide ParseLong, Disciplined, ButtonHeld, KeyHeld, Settled;
      if |words| != 4 || words[1] != "1" || primaryPressed
        || !InBounds(ParseLong(words[2]), true) || !InBounds(ParseLong(words[3]), false)
      {
        result := Refuse(if primaryPressed then State else Protocol, 2);
        return;
      }
      cleanupX, cleanupY := ParseLong(words[2]).value, ParseLong(words[3]).value;
      var ok := InjectButtonDown();
      result := Conclude(ok, "DOWN");
    }

    /** UP: one release of the button the helper pressed. */
    method RunUp(words: seq<string>) returns (result: Option<nat>)
      requires Valid() && 0 < |words| <= MAX_TOKENS
      modifies `primaryPressed, `log, `replies, `answers
      ensures Valid() && Grew(old(log), log, result.None?)
      ensures var refusal := old(UpRefusal(words));
        if refusal.Some? then RefusedFor(refusal.value, result)
        else
          && Concluded(Granted(old(answers), answers), "UP", result) && old(answers) < answers
          && exists accepted, verified :: log == old(log) + [ButtonRelease(accepted, verified, false)]
      ensures result.None? ==>
        old(primaryPressed) && !primaryPressed && log == old(log) + [ButtonRelease(true, true, false)]
    {
      if |words| != 2 || words[1] != "1" || !primaryPressed {
        result := Refuse(if primaryPressed then Protocol else State, 2);
        return;
      }
      var ok := InjectButtonUp();
      result := Conclude(ok, "UP");
    }

    /** CANCEL: the button is up afterwards. */
    method RunCancel(words: seq<string>) returns (result: Option<nat>)
      requires Valid() && 0 < |words| <= MAX_TOKENS
      modifies `primaryPressed, `log, `replies, `answers
      ensures Valid() && Grew(old(log), log, result.None?)
      ensures var refusal := CancelRefusal(words);
        if refusal.Some? then RefusedFor(refusal.value, result)
        else Concluded(Undenied(old(answers), answers), "CANCEL", result) && !primaryPressed
    {
      if |words| != 2 || words[1] != "1" {
        result := Refuse(Protocol, 2);
        return;
      }
      var ok := CleanupPressedButton();
      result := Conclude(ok, "CANCEL");
    }

    /** KEYDOWN: the named key is held afterwards. */
    method RunKeyDown(words: seq<string>) returns (result: Option<nat>)
      requires Valid() && 0 < |words| <= MAX_TOKENS
      modifies `heldKey, `log, `replies, `answers
      ensures Valid() && Grew(old(log), log, result.None?)
      ensures var refusal := old(KeyDownRefusal(words));
        if refusal.Some? then RefusedFor(refusal.value, result)
        else Concluded(Granted(old(answers), answers), "KEYDOWN", result) && old(answers) < answers
      ensures result.None? ==>
        && |words| == 2 && old(heldKey).NoKey?
        && (words[1] == "RETURN" || words[1] == "BACKSPACE")
        && heldKey == (if words[1] == "RETURN" then ReturnKey else BackspaceKey)
        && var code := if words[1] == "RETURN" then returnKeycode else backspaceKeycode;
           log == old(log) + [KeySeenUp(code)] + [KeyPress(code, true)]
    {
      var key := if |words| == 2 then KeyNamed(words[1]) else NoKey;
      if |words| != 2 || key.NoKey? || !heldKey.NoKey? {
        result := Refuse(if !heldKey.NoKey? then State else Protocol, 2);
        return;
      }
      var ok := InjectKeyDown(key);
      result := Conclude(ok, "KEYDOWN");
    }

    /** KEYUP: one release of the named key, which the helper holds. */
    method RunKeyUp(words: seq<string>) returns (result: Option<nat>)
      requires Valid() && 0 < |words| <= MAX_TOKENS
      modifies `heldKey, `log, `replies, `answers
      ensures Valid() && Grew(old(log), log, result.None?)
      ensures var refusal := old(KeyUpRefusal(words));
        if refusal.Some? then RefusedFor(refusal.value, result)
        else
          && Concluded(Granted(old(answers), answers), "KEYUP", result) && old(answers) < answers
          && var code := if words[1] == "RETURN" then returnKeycode else backspaceKeycode;
             exists accepted, verified :: log == old(log) + [KeyRelease(code, accepted, verified, false)]
      ensures result.None? ==>
        && |words| == 2 && heldKey.NoKey?
        && old(heldKey) == (if words[1] == "RETURN" then ReturnKey else BackspaceKey)
        && var code := if words[1] == "RETURN" then returnKeycode else backspaceKeycode;
           log == old(log) + [KeyRelease(code, true, true, false)]
    {
      var key := if |words| == 2 then KeyNamed(words[1]) else NoKey;
      if |words| != 2 || key.NoKey? || heldKey != key {
        result := Refuse(if heldKey.NoKey? then State else Protocol, 2);
        return;
      }
      var ok := InjectKeyUp(key);
      result := Conclude(ok, "KEYUP");
    }

    /** CANCELKEY: no key is held afterwards. */
    method RunCancelKey(words: seq<string>) returns (result: Option<nat>)
      requires Valid() && 0 < |words| <= MAX_TOKENS
      modifies `heldKey, `log, `replies, `answers
      ensures Valid() && Grew(old(log), log, result.None?)
      ensures var refusal := BareRefusal(words);
        if refusal.Some? then RefusedFor(refusal.value, result)
        else Concluded(Undenied(old(answers), answers), "CANCELKEY", result) && heldKey.NoKey?
    {
      if |words| != 1 {
        result := Refuse(Protocol, 2);
        return;
      }
      var ok := CleanupPressedKey();
      result := Conclude(ok, "CANCELKEY");
    }

    /** CLOSE ends the loop: with 0 exactly if the server denied nothing of the cleanup. */
    method RunClose(words: seq<string>) returns (result: Option<nat>)
      requires Valid() && 0 < |words| <= MAX_TOKENS
      modifies `primaryPressed, `heldKey, `log, `replies, `answers
      ensures Valid() && Grew(old(log), log, result == Some(0))
      ensures var refusal := BareRefusal(words);
        if refusal.Some? then RefusedFor(refusal.value, result)
        else
          var good := Undenied(old(answers), answers);
          && !primaryPressed && heldKey.NoKey?
          && replies == old(replies) + [if good then Okay("CLOSE") else Error(XTest)]
          && result == Some(if good then 0 else 3)
    {
      if |words| != 1 {
        result := Refuse(Protocol, 2);
        return;
      }
      var ok := CleanupAll();
      var _ := Conclude(ok, "CLOSE");
      return Some(if ok then 0 else 3);
    }

    /** Whether a command that is not refused can do without asking the server. */
    predicate Blind(words: seq<string>)
      requires words != []
      reads this
    {
      words[0] == "DOWN" && !pointerPositionKnown
    }

    /** One line: Some(code) when the loop returns. A line of more tokens than fit is skipped, like an
        empty one: the test for too many tokens comes after the test for none. */
    method RunLine(words: seq<string>) returns (result: Option<nat>)
      requires Valid()
      modifies this
      ensures Valid() && Grew(old(log), log, result.None? || result == Some(0))
      ensures words == [] || |words| > MAX_TOKENS ==>
        result.None? && replies == old(replies) && log == old(log) && answers == old(answers)
      ensures 0 < |words| <= MAX_TOKENS ==>
        var refusal := old(Refusal(words));
        if refusal.Some? then RefusedFor(refusal.value, result)
        else
          var good := !old(Blind(words)) && Undenied(old(answers), answers);
          && replies == old(replies) + [if good then Okay(words[0]) else Error(XTest)]
          && result == if !good then Some(3) else if words[0] == "CLOSE" then Some(0) else None
      ensures result == Some(0) ==> words == ["CLOSE"] && !primaryPressed && heldKey.NoKey?
    {
      hide Settled, Granted;
      if |words| == 0 || |words| > MAX_TOKENS {
        return None;
      }
      match words[0] {
        case "MOVE" => result := RunMove(words);
        case "DOWN" => result := RunDown(words);
        case "UP" => result := RunUp(words);
        case "CANCEL" => result := RunCancel(words);
        case "KEYDOWN" => result := RunKeyDown(words);
        case "KEYUP" => result := RunKeyUp(words);
        case "CANCELKEY" => result := RunCancelKey(words);
        case "CLOSE" => result := RunClose(words);
        case _ => result := Refuse(Protocol, 2);
      }
    }

    /** The command loop over the lines of the input, up to its end. The commands are answered in turn, with OK
        up to the last answer; the loop ends early only with an error or after CLOSE. Code 0 means that all went
        well: nothing is held, and every release was accepted and verified. */
    method RunProtocol(lines: seq<Line>) returns (code: nat)
      requires Valid() && replies == []
      modifies this
      ensures Valid() && Grew(old(log), log, code == 0)
      ensures code == 0 ==> !primaryPressed && heldKey.NoKey?
      ensures exists n | 0 <= n <= |lines| ::
        && Answered(replies, Commands(lines[..n]))
        && (Ended(replies, code) || (n == |lines| && code in {0, 3} && replies == [Ready] + OkayAll(Commands(lines))))
    {
      hide Settled, Commands, OkayAll, Answered, Undenied, Granted;
      replies := replies + [Ready];
      assert replies == [Ready] + OkayAll(Commands(lines[..0])) by { NoCommands(lines); }
      for i := 0 to |lines|
        invariant Valid() && Grew(old(log), log, true)
        invariant replies == [Ready] + OkayAll(Commands(lines[..i]))
      {
        ghost var before := Commands(lines[..i]);
        CommandsSnoc(lines, i);
        if lines[i].TooLong? {
          OkaySnoc(before, "");
          var refused := Refuse(Protocol, 2);
          assert Answered(replies, Commands(lines[..i + 1]));
          return refused.value;
        }
        var words := lines[i].words;
        if 0 < |words| <= MAX_TOKENS {
          OkaySnoc(before, words[0]);
        } else {
          assert before + [] == before;
        }
        var result := RunLine(words);
        if result.Some? {
          assert Answered(replies, Commands(lines[..i + 1]));
          return result.value;
        }
      }
      assert lines[..|lines|] == lines;
      OkayAnswers(Commands(lines));
      var ok := CleanupAll();
      return if ok then 0 else 3;
    }
  }

  /** What a display is to the helper: whether it opened, its size and key codes, whether it has the extension,
      and whether the first button is the primary one. */
  datatype Display = Display(
    open: bool, width: nat, height: nat, returnKeycode: nat, backspaceKeycode: nat, extension: bool, mapped: bool)

  predicate Usable(d: Display) {
    d.open && d.width >= 2 && d.height >= 2 && d.returnKeycode > 0 && d.backspaceKeycode > 0 && d.extension && d.mapped
  }

  /** `main`: what the process asked of the X server over its whole life, and what it replied. It serves exactly
      the displays that are usable. Every path out of the loop ends in a cleanup; exit code 0 means that every
      release ever made was accepted and verified. */
  method RunHelper(lines: seq<Line>, display: Display) returns (code: nat, log: seq<Event>, replies: seq<Reply>)
    requires display.returnKeycode < 256 && display.backspaceKeycode < 256
    ensures Disciplined(log) && !ButtonHeld(log) && KeyHeld(log).None?
    ensures code == 0 ==> Settled(log)
    ensures !Usable(display) ==> code == 3 && log == [] && replies == []
    ensures Usable(display) ==> exists n | 0 <= n <= |lines| ::
      && Answered(replies, Commands(lines[..n]))
      && (Ended(replies, code) || (n == |lines| && code in {0, 3} && replies == [Ready] + OkayAll(Commands(lines))))
  {
    hide Commands, OkayAll, Answered, Ended, Undenied, Granted;
    if !display.open {
      return 3, [], [];
    }
    if display.width < 2 || display.height < 2 || display.returnKeycode == 0 || display.backspaceKeycode == 0
      || !display.extension || !display.mapped
    {
      return 3, [], [];
    }
    var state := new InputState(display.width, display.height, display.returnKeycode, display.backspaceKeycode);
    code := state.RunProtocol(lines);
    replies := state.replies;
    var _ := state.CleanupAll();
    return code, state.log, replies;
  }

  // ---------------------------------------------------------------- what such a log means

  lemma {:induction false} PrefixDisciplined(log: seq<Event>, k: nat)
    requires Disciplined(log) && k < |log|
    ensures Disciplined(log[..k]) && MayFollow(log[..k], log[k])
    decreases |log|
  {
    if k < |log| - 1 {
      PrefixDisciplined(log[..|log| - 1], k);
      assert log[..|log| - 1][..k] == log[..k];
    }
  }

  /** A button press stays held until some release. */
  lemma {:induction false} ButtonStaysHeld(log: seq<Event>, j: nat, k: nat)
    requires j < k <= |log| && log[j] == ButtonPress(true)
    requires forall r | j < r < k :: !log[r].ButtonRelease?
    ensures ButtonHeld(log[..k])
    decreases k
  {
    assert log[..k][..k - 1] == log[..k - 1];
    if j < k - 1 {
      ButtonStaysHeld(log, j, k - 1);
    }
  }

  /** Every accepted button press is followed by a release attempt before exit. */
  lemma {:induction false} EveryButtonPressIsReleased(log: seq<Event>, j: nat)
    requires Disciplined(log) && !ButtonHeld(log) && j < |log| && log[j] == ButtonPress(true)
    ensures exists r | j < r < |log| :: log[r].ButtonRelease?
  {
    assert log[..|log|] == log;
    if forall r | j < r < |log| :: !log[r].ButtonRelease? {
      ButtonStaysHeld(log, j, |log|);
    }
  }

  /** The press that makes the button held, with no settled release after it. */
  lemma {:induction false} HeldSince(log: seq<Event>) returns (j: nat)
    requires ButtonHeld(log)
    ensures j < |log| && log[j] == ButtonPress(true)
    ensures forall r | j < r < |log| && log[r].ButtonRelease? ::
      !log[r].cleanup && !(log[r].accepted && log[r].verified)
    decreases |log|
  {
    var n := |log| - 1;
    if log[n] == ButtonPress(true) {
      j := n;
    } else {
      j := HeldSince(log[..n]);
      assert forall r | j < r < n :: log[r] == log[..n][r];
    }
  }

  /** No release is issued outside an episode begun by the helper's own accepted press: between the
      press and the release nothing verified the release or gave it up. */
  lemma {:induction false} ButtonReleasesAreOwn(log: seq<Event>, k: nat) returns (j: nat)
    requires Disciplined(log) && k < |log| && log[k].ButtonRelease?
    ensures j < k && log[j] == ButtonPress(true)
    ensures forall r | j < r < k && log[r].ButtonRelease? :: !log[r].cleanup && !(log[r].accepted && log[r].verified)
  {
    PrefixDisciplined(log, k);
    j := HeldSince(log[..k]);
    assert forall r | j <= r < k :: log[r] == log[..k][r];
  }

  lemma {:induction false} KeyStaysHeld(log: seq<Event>, j: nat, k: nat)
    requires Disciplined(log) && j < k <= |log| && log[j].KeyPress? && log[j].accepted
    requires forall r | j < r < k :: !(log[r].KeyRelease? && log[r].code == log[j].code)
    ensures KeyHeld(log[..k]) == Some(log[j].code)
    decreases k
  {
    assert log[..k][..k - 1] == log[..k - 1];
    if j < k - 1 {
      KeyStaysHeld(log, j, k - 1);
      PrefixDisciplined(log, k - 1);
    }
  }

  /** Every accepted key press is followed by an attempt to release the same key before exit. */
  lemma {:induction false} EveryKeyPressIsReleased(log: seq<Event>, j: nat)
    requires Disciplined(log) && KeyHeld(log).None? && j < |log| && log[j].KeyPress? && log[j].accepted
    ensures exists r | j < r < |log| :: log[r].KeyRelease? && log[r].code == log[j].code
  {
    assert log[..|log|] == log;
    if forall r | j < r < |log| :: !(log[r].KeyRelease? && log[r].code == log[j].code) {
      KeyStaysHeld(log, j, |log|);
    }
  }

  /** No key is pressed that some other source holds: each press follows the sight of that key up. */
  lemma {:induction false} KeyPressesAreOfFreeKeys(log: seq<Event>, k: nat)
    requires Disciplined(log) && k < |log| && log[k].KeyPress?
    ensures k > 0 && log[k - 1] == KeySeenUp(log[k].code)
  {
    PrefixDisciplined(log, k);
  }

  lemma {:induction false} KeyHeldSince(log: seq<Event>) returns (j: nat)
    requires KeyHeld(log).Some?
    ensures j < |log| && log[j] == KeyPress(KeyHeld(log).value, true)
    ensures forall r | j < r < |log| && log[r].KeyRelease? && log[r].code == log[j].code ::
      !log[r].cleanup && !(log[r].accepted && log[r].verified)
    decreases |log|
  {
    var n := |log| - 1;
    if log[n].KeyPress? && log[n].accepted {
      j := n;
    } else {
      j := KeyHeldSince(log[..n]);
      assert forall r | j <= r < n :: log[r] == log[..n][r];
    }
  }

  /** No key is released but the one the helper itself pressed, with no settled release in between. */
  lemma {:induction false} KeyReleasesAreOwn(log: seq<Event>, k: nat) returns (j: nat)
    requires Disciplined(log) && k < |log| && log[k].KeyRelease?
    ensures j < k && log[j] == KeyPress(log[k].code, true)
    ensures forall r | j < r < k && log[r].KeyRelease? && log[r].code == log[j].code ::
      !log[r].cleanup && !(log[r].accepted && log[r].verified)
  {
    PrefixDisciplined(log, k);
    j := KeyHeldSince(log[..k]);
    assert forall r | j <= r < k :: log[r] == log[..k][r];
  }
}
