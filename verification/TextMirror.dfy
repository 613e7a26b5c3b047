/**
 * Keeping a remote text field equal to a local one by backspaces and insertions at its end. Strings are
 * UTF-16; a backspace removes one code point.
 */
module TextMirror {
  import opened Options
  import opened Bytes
  import opened Utf16

  /** `Array.from`: the code points of a string, lone surrogates on their own. */
  function Points(s: Text): (points: seq<Text>)
    ensures Flatten(points) == s
  {
    if s == [] then [] else [s[..Width(s)]] + Points(s[Width(s)..])
  }

  datatype Delta = Delta(backspaces: nat, insert: Text)

  datatype Mutation = Mutation(backspaces: nat, insert: Text, next: Text)

  /** What the remote field holds after the backspaces and the insertion. */
  function Applied(remote: Text, backspaces: nat, insert: Text): Text {
    var points := Points(remote);
    Flatten(points[..if backspaces <= |points| then |points| - backspaces else 0]) + insert
  }

  function CommonPrefix(before: seq<Text>, after: seq<Text>): (n: nat)
    ensures n <= |before| && n <= |after| && before[..n] == after[..n]
    ensures n < |before| && n < |after| ==> before[n] != after[n]
  {
    if before == [] || after == [] || before[0] != after[0] then 0
    else
      var n := CommonPrefix(before[1..], after[1..]);
      assert before[..n + 1] == [before[0]] + before[1..][..n] && after[..n + 1] == [after[0]] + after[1..][..n];
      n + 1
  }

  function DeltaOf(previous: Text, current: Text): (delta: Delta)
    ensures delta.backspaces <= |Points(previous)|
  {
    var before, after := Points(previous), Points(current);
    var prefix := CommonPrefix(before, after);
    Delta(|before| - prefix, Flatten(after[prefix..]))
  }

  lemma {:induction false} CommonAtLeast(before: seq<Text>, after: seq<Text>, k: nat)
    requires k <= |before| && k <= |after| && before[..k] == after[..k]
    ensures k <= CommonPrefix(before, after)
    decreases k
  {
    if k > 0 {
      assert before[0] == before[..k][0] == after[..k][0] == after[0];
      assert before[1..][..k - 1] == before[..k][1..] == after[..k][1..] == after[1..][..k - 1];
      CommonAtLeast(before[1..], after[1..], k - 1);
    }
  }

  lemma {:induction false} CommonAtMost(before: seq<Text>, after: seq<Text>, k: nat)
    requires k <= |before| && k <= |after|
    requires k < |before| && k < |after| ==> before[k] != after[k]
    ensures CommonPrefix(before, after) <= k
    decreases k
  {
    if k > 0 {
      CommonAtMost(before[1..], after[1..], k - 1);
    }
  }

  method TextReplacementDelta(previous: Text, current: Text) returns (delta: Delta)
    ensures delta == DeltaOf(previous, current)
  {
    var before, after := Points(previous), Points(current);
    var prefix := 0;
    while prefix < |before| && prefix < |after| && before[prefix] == after[prefix]
      invariant prefix <= |before| && prefix <= |after| && before[..prefix] == after[..prefix]
    {
      assert before[..prefix + 1] == before[..prefix] + [before[prefix]];
      assert after[..prefix + 1] == after[..prefix] + [after[prefix]];
      prefix := prefix + 1;
    }
    CommonAtLeast(before, after, prefix);
    CommonAtMost(before, after, prefix);
    delta := Delta(|before| - prefix, Flatten(after[prefix..]));
  }

  /** A keyboard that reports more than the field shows yet extends the insertion: a string payload that
      the insertion is a proper start of, if that only adds to the field. */
  predicate Extends(previous: Text, current: Text, insertText: bool, data: Option<Text>) {
    var delta := DeltaOf(previous, current);
    && insertText && data.Some? && data.value != [] && delta.insert != [] && delta.insert != data.value
    && delta.insert <= data.value
    && current <= Applied(previous, delta.backspaces, data.value)
    && |Points(Applied(previous, delta.backspaces, data.value))| > |Points(current)|
  }

  function MutationOf(previous: Text, current: Text, insertText: bool, data: Option<Text>): Mutation {
    var delta := DeltaOf(previous, current);
    if Extends(previous, current, insertText, data) then
      Mutation(delta.backspaces, data.value, Applied(previous, delta.backspaces, data.value))
    else Mutation(delta.backspaces, delta.insert, current)
  }

  method TextReplacementMutation(previous: Text, current: Text, insertText: bool, data: Option<Text>)
    returns (mutation: Mutation)
    ensures mutation == MutationOf(previous, current, insertText, data)
  {
    hide DeltaOf, Points, Flatten;
    var delta := TextReplacementDelta(previous, current);
    var insert, next := delta.insert, current;
    if insertText && data.Some? && |data.value| > 0 && |insert| > 0 && insert != data.value && insert <= data.value {
      var before := Points(previous);
      var retained := Flatten(before[..|before| - delta.backspaces]);
      var candidate := retained + data.value;
      if current <= candidate && |Points(candidate)| > |Points(current)| {
        insert, next := data.value, candidate;
      }
    }
    mutation := Mutation(delta.backspaces, insert, next);
  }

  // ---------------------------------------------------------------- the mirror

  /** Applied to what was there before, the delta gives the new value; the mutation gives `next`, which
      extends it. */
  lemma {:induction false} MutationMirrors(previous: Text, current: Text, insertText: bool, data: Option<Text>)
    ensures var d := DeltaOf(previous, current); Applied(previous, d.backspaces, d.insert) == current
    ensures var m := MutationOf(previous, current, insertText, data);
      && m.backspaces == DeltaOf(previous, current).backspaces
      && Applied(previous, m.backspaces, m.insert) == m.next
      && current <= m.next
  {
    var before, after := Points(previous), Points(current);
    var n := CommonPrefix(before, after);
    FlattenSplit(after, n);
    assert |before| - (|before| - n) == n;
  }

  /** An edit as the client sees it: the field's new value, and the event that brought it. */
  datatype Edit = Edit(current: Text, insertText: bool, data: Option<Text>)

  /** The mirror and the remote field, edit after edit. */
  function Mirrored(mirror: Text, edits: seq<Edit>): Text
    decreases |edits|
  {
    if edits == [] then mirror
    else Mirrored(MutationOf(mirror, edits[0].current, edits[0].insertText, edits[0].data).next, edits[1..])
  }

  function Remote(mirror: Text, remote: Text, edits: seq<Edit>): Text
    decreases |edits|
  {
    if edits == [] then remote
    else
      var m := MutationOf(mirror, edits[0].current, edits[0].insertText, edits[0].data);
      Remote(m.next, Applied(remote, m.backspaces, m.insert), edits[1..])
  }

  /** Over any session the remote field stays equal to the mirror, lone surrogates included. */
  lemma {:induction false} RemoteFollowsMirror(mirror: Text, edits: seq<Edit>)
    ensures Remote(mirror, mirror, edits) == Mirrored(mirror, edits)
    decreases |edits|
  {
    if edits != [] {
      var e := edits[0];
      MutationMirrors(mirror, e.current, e.insertText, e.data);
      hide MutationOf, Applied;
      RemoteFollowsMirror(MutationOf(mirror, e.current, e.insertText, e.data).next, edits[1..]);
    }
  }

  // ---------------------------------------------------------------- fewest backspaces

  /** No leading surrogate stands alone. */
  predicate Settled(s: Text) {
    s == [] || ((Paired(s) || !Leading(s[0])) && Settled(s[Width(s)..]))
  }

  /** A rewrite of the end of `previous` into `current` with the given number of backspaces. */
  predicate Rewrites(previous: Text, current: Text, backspaces: nat, insert: Text) {
    backspaces <= |Points(previous)| && Applied(previous, backspaces, insert) == current
  }

  /** Where it is not a lone leading surrogate, the first code point stays one whatever follows. */
  lemma {:induction false} WidthOfStart(s: Text, tail: Text)
    requires s != [] && (Paired(s) || !Leading(s[0]))
    ensures var w := Width(s); Width(s[..w] + tail) == w
  {
  }

  lemma {:induction false} PointsHead(s: Text)
    requires s != []
    ensures Points(s) == [s[..Width(s)]] + Points(s[Width(s)..])
  {
  }

  lemma {:induction false} FlattenHead(point: Text, rest: seq<Text>)
    ensures Flatten([point] + rest) == point + Flatten(rest)
  {
  }

  lemma {:induction false} KeptPoint(previous: Text, current: Text, m: nat, insert: Text)
    requires previous != [] && 0 < m <= |Points(previous)| && (Paired(previous) || !Leading(previous[0]))
    requires Flatten(Points(previous)[..m]) + insert == current
    ensures var w := Width(previous);
      && w <= |current| && Width(current) == w && current[..w] == previous[..w]
      && current[w..] == Flatten(Points(previous[w..])[..m - 1]) + insert
  {
    hide Points, Flatten;
    PointsHead(previous);
    var w, rest := Width(previous), Points(previous[Width(previous)..]);
    assert ([previous[..w]] + rest)[..m] == [previous[..w]] + rest[..m - 1];
    FlattenHead(previous[..w], rest[..m - 1]);
    assert current == previous[..w] + (Flatten(rest[..m - 1]) + insert);
    WidthOfStart(previous, Flatten(rest[..m - 1]) + insert);
  }

  /** Where no leading surrogate is alone, a common start is a common start of code points. */
  lemma {:induction false} KeptPoints(previous: Text, current: Text, m: nat, insert: Text)
    requires Settled(previous) && m <= |Points(previous)| && Flatten(Points(previous)[..m]) + insert == current
    ensures m <= |Points(current)| && Points(previous)[..m] == Points(current)[..m]
    decreases m
  {
    if m > 0 {
      var w := Width(previous);
      KeptPoint(previous, current, m, insert);
      KeptPoints(previous[w..], current[w..], m - 1, insert);
      assert Points(previous)[..m] == [previous[..w]] + Points(previous[w..])[..m - 1];
      assert Points(current)[..m] == [current[..w]] + Points(current[w..])[..m - 1];
    }
  }

  lemma {:induction false} FewestBackspaces(previous: Text, current: Text, backspaces: nat, insert: Text)
    requires Settled(previous) && Rewrites(previous, current, backspaces, insert)
    ensures DeltaOf(previous, current).backspaces <= backspaces
  {
    var m := |Points(previous)| - backspaces;
    KeptPoints(previous, current, m, insert);
    CommonAtLeast(Points(previous), Points(current), m);
  }

  /** The first lone leading surrogate can be completed to a pair by what is inserted after it. */
  lemma {:induction false} FirstLone(previous: Text) returns (m: nat, current: Text)
    requires !Settled(previous)
    ensures m < |Points(previous)| && |Points(previous)[m]| == 1
    ensures current == Flatten(Points(previous)[..m + 1]) + [0xDC00]
    ensures Points(current) == Points(previous)[..m] + [Points(previous)[m] + [0xDC00]]
    decreases |previous|
  {
    var w := Width(previous);
    var rest := Points(previous[w..]);
    if !Paired(previous) && Leading(previous[0]) {
      m, current := 0, [previous[0], 0xDC00];
      assert Points(previous)[..1] == [previous[..1]];
      assert Flatten([previous[..1]]) == previous[..1] + Flatten([]);
      assert current[2..] == [] && current[..2] == previous[..1] + [0xDC00];
    } else {
      var k, tail := FirstLone(previous[w..]);
      m, current := k + 1, previous[..w] + tail;
      CompletedBehind(previous, k, tail);
    }
  }

  lemma {:induction false} CompletedBehind(previous: Text, k: nat, tail: Text)
    requires previous != [] && (Paired(previous) || !Leading(previous[0]))
    requires var rest := Points(previous[Width(previous)..]);
      && k < |rest| && tail == Flatten(rest[..k + 1]) + [0xDC00]
      && Points(tail) == rest[..k] + [rest[k] + [0xDC00]]
    ensures var w, points, current := Width(previous), Points(previous), previous[..Width(previous)] + tail;
      && k + 1 < |points| && points[k + 1] == Points(previous[w..])[k]
      && current == Flatten(points[..k + 2]) + [0xDC00]
      && Points(current) == points[..k + 1] + [points[k + 1] + [0xDC00]]
  {
    hide Points, Flatten;
    var w := Width(previous);
    var rest, points, current := Points(previous[w..]), Points(previous), previous[..w] + tail;
    PointsHead(previous);
    assert points[..k + 2] == [previous[..w]] + rest[..k + 1];
    FlattenHead(previous[..w], rest[..k + 1]);
    assert points[..k + 1] == [previous[..w]] + rest[..k];
    WidthOfStart(previous, tail);
    assert current[..w] == previous[..w] && current[w..] == tail;
    PointsHead(current);
  }

  /** The delta uses the fewest backspaces for every new value exactly when no leading surrogate of the
      old value stands alone; in particular for every well-formed one. */
  lemma {:induction false} FewestBackspacesIff(previous: Text)
    ensures Settled(previous) <==>
      forall current, backspaces, insert | Rewrites(previous, current, backspaces, insert) ::
        DeltaOf(previous, current).backspaces <= backspaces
  {
    if Settled(previous) {
      forall current, backspaces, insert | Rewrites(previous, current, backspaces, insert)
        ensures DeltaOf(previous, current).backspaces <= backspaces
      {
        FewestBackspaces(previous, current, backspaces, insert);
      }
    } else {
      var m, current := FirstLone(previous);
      var before := Points(previous);
      assert Rewrites(previous, current, |before| - (m + 1), [0xDC00]);
      CommonAtMost(before, Points(current), m);
    }
  }

  lemma {:induction false} WellFormedSettled(s: Text)
    requires WellFormed(s)
    ensures Settled(s)
    decreases |s|
  {
    if s != [] {
      WellFormedSettled(s[Width(s)..]);
    }
  }

  /** A keyboard's payload that goes on where the insertion ends is typed as a whole; nothing else about a payload
      matters. */
  lemma {:induction false} PayloadKept(previous: Text, current: Text, insertText: bool, data: Option<Text>)
    ensures var d, m := DeltaOf(previous, current), MutationOf(previous, current, insertText, data);
      if insertText && data.Some? && d.insert != [] && d.insert < data.value
        && |Points(current + data.value[|d.insert|..])| > |Points(current)|
      then m == Mutation(d.backspaces, data.value, current + data.value[|d.insert|..])
      else m == Mutation(d.backspaces, d.insert, current)
  {
    var d := DeltaOf(previous, current);
    MutationMirrors(previous, current, insertText, data);
    hide DeltaOf, Points, Flatten;
    if data.Some? && d.insert <= data.value {
      var kept, more := Applied(previous, d.backspaces, []), data.value[|d.insert|..];
      AppliedSplits(previous, d.backspaces, d.insert);
      AppliedSplits(previous, d.backspaces, data.value);
      assert data.value == d.insert + more;
      assert kept + d.insert + more == kept + data.value;
    }
  }

  lemma {:induction false} AppliedSplits(remote: Text, backspaces: nat, insert: Text)
    ensures Applied(remote, backspaces, insert) == Applied(remote, backspaces, []) + insert
  {
    hide Points, Flatten;
  }
}
