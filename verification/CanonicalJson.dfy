/**
 * `canonicalJson`: nested printing with object keys sorted by code units. Numbers are represented by
 * the text `JSON.stringify` prints for them; an object is its entries in the order `Object.keys`
 * lists them.
 */
module CanonicalJson {
  import opened Options
  import opened Utf16
  import opened JsonNumber
  import opened JsonText

  datatype Json =
    | Null
    | Bool(b: bool)
    | Num(text: Text)
    | Str(s: Text)
    | Arr(items: seq<Json>)
    | Obj(entries: seq<(Text, Json)>)

  /** The value meant: an object is a map from its keys. */
  datatype Value =
    | NullValue
    | BoolValue(b: bool)
    | NumValue(text: Text)
    | StrValue(s: Text)
    | ArrValue(items: seq<Value>)
    | ObjValue(fields: map<Text, Value>)

  const OPEN_BRACKET: Unit := 0x5B
  const CLOSE_BRACKET: Unit := 0x5D
  const OPEN_BRACE: Unit := 0x7B
  const CLOSE_BRACE: Unit := 0x7D
  const NULL_TEXT: Text := [0x6E, 0x75, 0x6C, 0x6C]
  const TRUE_TEXT: Text := [0x74, 0x72, 0x75, 0x65]
  const FALSE_TEXT: Text := [0x66, 0x61, 0x6C, 0x73, 0x65]

  function KeySet(entries: seq<(Text, Json)>): set<Text> {
    set i | 0 <= i < |entries| :: entries[i].0
  }

  /** Where a key's entry is. */
  function Find(entries: seq<(Text, Json)>, key: Text): (i: nat)
    requires key in KeySet(entries)
    ensures i < |entries| && entries[i].0 == key
  {
    if entries[0].0 == key then 0
    else
      assert key in KeySet(entries[1..]) by {
        var i :| 0 <= i < |entries| && entries[i].0 == key;
        assert entries[1..][i - 1].0 == key;
      }
      1 + Find(entries[1..], key)
  }

  predicate Valid(v: Json) {
    match v
    case Num(text) => NumberText(text)
    case Arr(items) => forall i | 0 <= i < |items| :: Valid(items[i])
    case Obj(entries) =>
      && (forall i | 0 <= i < |entries| :: Valid(entries[i].1))
      && (forall i, j | 0 <= i < j < |entries| :: entries[i].0 != entries[j].0)
    case _ => true
  }

  function Meaning(v: Json): Value {
    match v
    case Null => NullValue
    case Bool(b) => BoolValue(b)
    case Num(text) => NumValue(text)
    case Str(s) => StrValue(s)
    case Arr(items) => ArrValue(seq(|items|, i requires 0 <= i < |items| => Meaning(items[i])))
    case Obj(entries) => ObjValue(map k | k in KeySet(entries) :: Meaning(entries[Find(entries, k)].1))
  }

  // ---------------------------------------------------------------- sorting keys

  /** Order by code units, a prefix first. */
  predicate Less(s: Text, t: Text) {
    t != [] && (s == [] || s[0] < t[0] || (s[0] == t[0] && Less(s[1..], t[1..])))
  }

  function Insert(key: Text, keys: seq<Text>): seq<Text> {
    if keys == [] || Less(key, keys[0]) then [key] + keys else [keys[0]] + Insert(key, keys[1..])
  }

  /** `Object.keys(object).sort()`. */
  function SortedKeys(entries: seq<(Text, Json)>): seq<Text> {
    if entries == [] then [] else Insert(entries[0].0, SortedKeys(entries[1..]))
  }

  predicate Ascending(keys: seq<Text>) {
    forall i, j | 0 <= i < j < |keys| :: Less(keys[i], keys[j])
  }

  function Elements(keys: seq<Text>): set<Text> {
    set k | k in keys
  }

  lemma {:induction false} LessTrans(s: Text, t: Text, u: Text)
    requires Less(s, t) && Less(t, u)
    ensures Less(s, u)
    decreases |s|
  {
    if s != [] && s[0] == t[0] == u[0] {
      LessTrans(s[1..], t[1..], u[1..]);
    }
  }

  lemma {:induction false} LessTotal(s: Text, t: Text)
    ensures Less(s, t) || s == t || Less(t, s)
    ensures !(Less(s, t) && Less(t, s)) && !Less(s, s)
    decreases |s|
  {
    if s != [] && t != [] && s[0] == t[0] {
      LessTotal(s[1..], t[1..]);
      assert s == [s[0]] + s[1..] && t == [t[0]] + t[1..];
    }
    if s != [] {
      LessTotal(s[1..], s[1..]);
    }
  }

  lemma {:induction false} InsertOk(key: Text, keys: seq<Text>)
    requires Ascending(keys) && key !in keys
    ensures Ascending(Insert(key, keys)) && Elements(Insert(key, keys)) == Elements(keys) + {key}
    decreases |keys|
  {
    if keys == [] {
    } else if Less(key, keys[0]) {
      forall j | 0 <= j < |keys|
        ensures Less(key, keys[j])
      {
        if j > 0 {
          LessTrans(key, keys[0], keys[j]);
        }
      }
      assert Elements([key] + keys) == Elements(keys) + {key};
    } else {
      LessTotal(key, keys[0]);
      InsertOk(key, keys[1..]);
      var rest := Insert(key, keys[1..]);
      forall j | 0 <= j < |rest|
        ensures Less(keys[0], rest[j])
      {
        assert rest[j] in Elements(rest);
      }
      assert Elements(keys) == Elements(keys[1..]) + {keys[0]};
      assert Elements([keys[0]] + rest) == Elements(rest) + {keys[0]};
    }
  }

  lemma {:induction false} SortedKeysOk(entries: seq<(Text, Json)>)
    requires forall i, j | 0 <= i < j < |entries| :: entries[i].0 != entries[j].0
    ensures Ascending(SortedKeys(entries)) && Elements(SortedKeys(entries)) == KeySet(entries)
    decreases |entries|
  {
    if entries != [] {
      SortedKeysOk(entries[1..]);
      assert KeySet(entries) == KeySet(entries[1..]) + {entries[0].0} by {
        forall k | k in KeySet(entries)
          ensures k in KeySet(entries[1..]) + {entries[0].0}
        {
          var i :| 0 <= i < |entries| && entries[i].0 == k;
          assert i > 0 ==> entries[1..][i - 1].0 == k;
        }
      }
      assert entries[0].0 !in KeySet(entries[1..]);
      assert entries[0].0 !in SortedKeys(entries[1..]) by {
        assert forall k | k in SortedKeys(entries[1..]) :: k in Elements(SortedKeys(entries[1..]));
      }
      InsertOk(entries[0].0, SortedKeys(entries[1..]));
    }
  }

  lemma {:induction false} FirstElement(s: seq<Text>)
    requires s != []
    ensures s[0] in Elements(s)
  {
  }

  /** Sorting forgets the order: equal sets of keys are sorted alike. */
  lemma {:induction false} AscendingUnique(s: seq<Text>, t: seq<Text>)
    requires Ascending(s) && Ascending(t) && Elements(s) == Elements(t)
    ensures s == t
    decreases |s|
  {
    if s == [] || t == [] {
      if s != [] {
        FirstElement(s);
      } else if t != [] {
        FirstElement(t);
      }
    } else {
      assert s[0] in Elements(t) && t[0] in Elements(s);
      LessTotal(s[0], t[0]);
      assert s[0] == t[0];
      forall k
        ensures k in Elements(s[1..]) <==> k in Elements(s) && k != s[0]
        ensures k in Elements(t[1..]) <==> k in Elements(t) && k != t[0]
      {
        LessTotal(s[0], s[0]);
        assert s == [s[0]] + s[1..] && t == [t[0]] + t[1..];
      }
      AscendingUnique(s[1..], t[1..]);
      assert s == [s[0]] + s[1..] && t == [t[0]] + t[1..];
    }
  }

  // ---------------------------------------------------------------- printing

  function Print(v: Json): Text
    requires Valid(v)
    decreases v, 1, 0
  {
    match v
    case Null => NULL_TEXT
    case Bool(b) => if b then TRUE_TEXT else FALSE_TEXT
    case Num(text) => text
    case Str(s) => Quoted(s)
    case Arr(items) => [OPEN_BRACKET] + PrintItems(v, 0) + [CLOSE_BRACKET]
    case Obj(entries) =>
      SortedKeysOk(entries);
      [OPEN_BRACE] + PrintFields(v, SortedKeys(entries), 0) + [CLOSE_BRACE]
  }

  function Separator(i: nat): Text {
    if i == 0 then [] else [COMMA]
  }

  /** The elements from `i` on, joined by commas. */
  function PrintItems(v: Json, i: nat): Text
    requires Valid(v) && v.Arr? && i <= |v.items|
    decreases v, 0, |v.items| - i
  {
    if i == |v.items| then [] else Separator(i) + (Print(v.items[i]) + PrintItems(v, i + 1))
  }

  function Field(v: Json, key: Text): (field: Json)
    requires v.Obj? && key in KeySet(v.entries)
    ensures Valid(v) ==> Valid(field)
  {
    v.entries[Find(v.entries, key)].1
  }

  /** The fields of the keys from `i` on, joined by commas. */
  function PrintFields(v: Json, keys: seq<Text>, i: nat): Text
    requires Valid(v) && v.Obj? && i <= |keys| && Elements(keys) == KeySet(v.entries)
    decreases v, 0, |keys| - i
  {
    if i == |keys| then []
    else
      assert keys[i] in Elements(keys);
      Separator(i) + (Quoted(keys[i]) + ([COLON] + (Print(Field(v, keys[i])) + PrintFields(v, keys, i + 1))))
  }

  // ---------------------------------------------------------------- equal values print alike

  lemma {:induction false} SameFields(a: Json, b: Json)
    requires a.Obj? && b.Obj? && Meaning(a) == Meaning(b)
    ensures KeySet(a.entries) == KeySet(b.entries)
    ensures forall k | k in KeySet(a.entries) :: Meaning(Field(a, k)) == Meaning(Field(b, k))
  {
    var m, n := Meaning(a).fields, Meaning(b).fields;
    assert m.Keys == KeySet(a.entries) && n.Keys == KeySet(b.entries);
    forall k | k in KeySet(a.entries)
      ensures Meaning(Field(a, k)) == Meaning(Field(b, k))
    {
      assert m[k] == Meaning(Field(a, k)) && n[k] == Meaning(Field(b, k));
    }
  }

  lemma {:induction false} SameKeys(a: Json, b: Json)
    requires a.Obj? && b.Obj? && Valid(a) && Valid(b) && KeySet(a.entries) == KeySet(b.entries)
    ensures SortedKeys(a.entries) == SortedKeys(b.entries)
  {
    SortedKeysOk(a.entries);
    SortedKeysOk(b.entries);
    AscendingUnique(SortedKeys(a.entries), SortedKeys(b.entries));
  }

  lemma {:induction false} EqualPrintAlike(a: Json, b: Json)
    requires Valid(a) && Valid(b) && Meaning(a) == Meaning(b)
    ensures Print(a) == Print(b)
    decreases a, 1, 0
  {
    match a {
      case Arr(items) =>
        assert |items| == |Meaning(a).items| == |Meaning(b).items| == |b.items|;
        ItemsPrintAlike(a, b, 0);
      case Obj(entries) =>
        SameFields(a, b);
        SameKeys(a, b);
        SortedKeysOk(entries);
        FieldsPrintAlike(a, b, SortedKeys(entries), 0);
      case _ =>
    }
  }

  lemma {:induction false} ItemsPrintAlike(a: Json, b: Json, i: nat)
    requires Valid(a) && Valid(b) && a.Arr? && b.Arr? && Meaning(a) == Meaning(b)
    requires i <= |a.items| == |b.items|
    ensures PrintItems(a, i) == PrintItems(b, i)
    decreases a, 0, |a.items| - i
  {
    if i < |a.items| {
      assert Meaning(a).items[i] == Meaning(a.items[i]) && Meaning(b).items[i] == Meaning(b.items[i]);
      EqualPrintAlike(a.items[i], b.items[i]);
      ItemsPrintAlike(a, b, i + 1);
    }
  }

  lemma {:induction false} FieldsPrintAlike(a: Json, b: Json, keys: seq<Text>, i: nat)
    requires Valid(a) && Valid(b) && a.Obj? && b.Obj? && i <= |keys|
    requires Elements(keys) == KeySet(a.entries) == KeySet(b.entries)
    requires forall k | k in KeySet(a.entries) :: Meaning(Field(a, k)) == Meaning(Field(b, k))
    ensures PrintFields(a, keys, i) == PrintFields(b, keys, i)
    decreases a, 0, |keys| - i
  {
    hide Print, Meaning, Quoted;
    if i < |keys| {
      assert keys[i] in Elements(keys);
      EqualPrintAlike(Field(a, keys[i]), Field(b, keys[i]));
      FieldsPrintAlike(a, b, keys, i + 1);
    }
  }

  // ---------------------------------------------------------------- reading

  /** A reader of the JSON text of RFC 8259 without white space: the value and what follows it. A repeated key counts
      with its last value. */
  function Read(t: Text): (r: Option<(Value, Text)>)
    ensures r.Some? ==> |r.value.1| < |t|
    decreases |t|, 0
  {
    if t == [] then None
    else if NULL_TEXT <= t then Some((NullValue, t[4..]))
    else if TRUE_TEXT <= t then Some((BoolValue(true), t[4..]))
    else if FALSE_TEXT <= t then Some((BoolValue(false), t[5..]))
    else if t[0] == QUOTE then
      match ReadString(t[1..]) case None => None case Some((s, after)) => Some((StrValue(s), after))
    else if t[0] == OPEN_BRACKET then
      if |t| > 1 && t[1] == CLOSE_BRACKET then Some((ArrValue([]), t[2..])) else ReadElements(t[1..], [])
    else if t[0] == OPEN_BRACE then
      if |t| > 1 && t[1] == CLOSE_BRACE then Some((ObjValue(map[]), t[2..])) else ReadMembers(t[1..], map[])
    else if NumberSize(t) > 0 then Some((NumValue(t[..NumberSize(t)]), t[NumberSize(t)..]))
    else None
  }

  /** Elements up to the closing bracket, after those already read. */
  function ReadElements(t: Text, done: seq<Value>): (r: Option<(Value, Text)>)
    ensures r.Some? ==> |r.value.1| < |t|
    decreases |t|, 1
  {
    match Read(t)
    case None => None
    case Some((v, rest)) =>
      if rest == [] then None
      else if rest[0] == COMMA then ReadElements(rest[1..], done + [v])
      else if rest[0] == CLOSE_BRACKET then Some((ArrValue(done + [v]), rest[1..]))
      else None
  }

  /** Members up to the closing brace, after those already read. */
  function ReadMembers(t: Text, done: map<Text, Value>): (r: Option<(Value, Text)>)
    ensures r.Some? ==> |r.value.1| < |t|
    decreases |t|, 1
  {
    if t == [] || t[0] != QUOTE then None
    else
      match ReadString(t[1..])
      case None => None
      case Some((key, after)) =>
        if after == [] || after[0] != COLON then None
        else
          match Read(after[1..])
          case None => None
          case Some((v, rest)) =>
            if rest == [] then None
            else if rest[0] == COMMA then ReadMembers(rest[1..], done[key := v])
            else if rest[0] == CLOSE_BRACE then Some((ObjValue(done[key := v]), rest[1..]))
            else None
  }

  /** What can come after a value: nothing, or the next separator or closing bracket. */
  predicate Follows(x: Text) {
    x == [] || x[0] == COMMA || x[0] == CLOSE_BRACKET || x[0] == CLOSE_BRACE
  }

  /** No value begins with a closing bracket. */
  lemma {:induction false} FirstUnit(v: Json)
    requires Valid(v)
    ensures Print(v) != [] && Print(v)[0] != CLOSE_BRACKET
  {
    if v.Num? {
      NumberTextUnits(v.text);
    }
    hide NumberText;
  }

  lemma {:induction false} ReadsNumber(t: Text)
    requires t != [] && (Digit(t[0]) || t[0] == MINUS) && NumberSize(t) > 0
    ensures Read(t) == Some((NumValue(t[..NumberSize(t)]), t[NumberSize(t)..]))
  {
    hide ReadElements, ReadMembers, ReadString, NumberSize;
  }

  lemma {:induction false} NumberRead(text: Text, x: Text)
    requires NumberText(text) && Follows(x)
    ensures Read(text + x) == Some((NumValue(text), x))
  {
    hide Read, NumberSize;
    NumberEnds(text, x);
    NumberTextUnits(text);
    ReadsNumber(text + x);
    assert (text + x)[..|text|] == text && (text + x)[|text|..] == x;
  }

  lemma {:induction false} LiteralRead(v: Json, x: Text)
    requires v.Null? || v.Bool?
    ensures Read(Print(v) + x) == Some((Meaning(v), x))
  {
    assert Print(v) + x != [] && (Print(v) + x)[0] == Print(v)[0];
    assert (Print(v) + x)[|Print(v)|..] == x;
    hide ReadElements, ReadMembers, ReadString, NumberSize;
  }

  lemma {:induction false} ReadsString(t: Text)
    requires t != [] && t[0] == QUOTE
    ensures Read(t) == match ReadString(t[1..]) case None => None case Some((s, after)) => Some((StrValue(s), after))
  {
    hide ReadElements, ReadMembers, ReadString, NumberSize;
  }

  lemma {:induction false} StrRead(s: Text, x: Text)
    ensures Read(Quoted(s) + x) == Some((StrValue(s), x))
  {
    hide Read, ReadString, Escaped;
    var t := Quoted(s) + x;
    StringRead(s, x);
    assert t[0] == QUOTE && t[1..] == Escaped(s) + [QUOTE] + x;
    ReadsString(t);
  }

  /** What was printed is read back as the value meant, whatever follows it. */
  lemma {:induction false} ReadPrinted(v: Json, x: Text)
    requires Valid(v) && Follows(x)
    ensures Read(Print(v) + x) == Some((Meaning(v), x))
    decreases v, 1, 0
  {
    hide Read;
    match v {
      case Num(text) => NumberRead(text, x);
      case Arr(_) => ArrayRead(v, x);
      case Obj(_) => ObjectRead(v, x);
      case Str(s) => StrRead(s, x);
      case _ => LiteralRead(v, x);
    }
  }

  /** The rest of an array from element `i`, and what follows the array. */
  function ItemsThen(v: Json, i: nat, x: Text): Text
    requires Valid(v) && v.Arr? && i <= |v.items|
  {
    PrintItems(v, i) + ([CLOSE_BRACKET] + x)
  }

  lemma {:induction false} ItemsUnfold(v: Json, i: nat, x: Text)
    requires Valid(v) && v.Arr? && i <= |v.items|
    ensures i == |v.items| ==> ItemsThen(v, i, x) == [CLOSE_BRACKET] + x
    ensures i < |v.items| ==> ItemsThen(v, i, x) == Separator(i) + (Print(v.items[i]) + ItemsThen(v, i + 1, x))
    ensures i > 0 ==> Follows(ItemsThen(v, i, x))
  {
    if i < |v.items| {
      var item, rest := Print(v.items[i]), PrintItems(v, i + 1);
      hide Print;
      assert PrintItems(v, i) == Separator(i) + (item + rest);
      hide PrintItems;
      Joined(Separator(i), item, rest, [CLOSE_BRACKET] + x);
    }
  }

  lemma {:induction false} Joined(separator: Text, item: Text, rest: Text, x: Text)
    ensures separator + (item + rest) + x == separator + (item + (rest + x))
  {
  }

  lemma {:induction false} ReadsArray(t: Text)
    requires |t| > 1 && t[0] == OPEN_BRACKET
    ensures Read(t) == if t[1] == CLOSE_BRACKET then Some((ArrValue([]), t[2..])) else ReadElements(t[1..], [])
  {
  }

  lemma {:induction false} ArrayUnfold(v: Json, x: Text)
    requires Valid(v) && v.Arr?
    ensures Print(v) + x == [OPEN_BRACKET] + ItemsThen(v, 0, x)
    ensures Meaning(v).ArrValue? && |Meaning(v).items| == |v.items|
  {
    hide PrintItems;
  }

  lemma {:induction false} ArrayRead(v: Json, x: Text)
    requires Valid(v) && v.Arr?
    ensures Read(Print(v) + x) == Some((Meaning(v), x))
    decreases v, 0, |v.items| + 1
  {
    hide PrintItems, ItemsThen, Print, Read, ReadElements, Meaning, Valid;
    var t := Print(v) + x;
    ArrayUnfold(v, x);
    ItemsUnfold(v, 0, x);
    assert t[0] == OPEN_BRACKET && t[1..] == ItemsThen(v, 0, x);
    if v.items == [] {
      assert t[1] == CLOSE_BRACKET && t[2..] == x;
      assert Meaning(v) == ArrValue([]);
    } else {
      FirstItem(v, x);
      assert t[1] == t[1..][0];
      ElementsRead(v, x, 0);
      assert Meaning(v).items[..0] == [];
    }
    ReadsArray(t);
  }

  lemma {:induction false} FirstItem(v: Json, x: Text)
    requires Valid(v) && v.Arr? && v.items != []
    ensures ItemsThen(v, 0, x) == Print(v.items[0]) + ItemsThen(v, 1, x)
    ensures ItemsThen(v, 0, x) != [] && ItemsThen(v, 0, x)[0] != CLOSE_BRACKET
  {
    hide ItemsThen, Print;
    ItemsUnfold(v, 0, x);
    FirstUnit(v.items[0]);
    assert Separator(0) + (Print(v.items[0]) + ItemsThen(v, 1, x)) == Print(v.items[0]) + ItemsThen(v, 1, x);
  }

  lemma {:induction false} ElementsRead(v: Json, x: Text, i: nat)
    requires Valid(v) && v.Arr? && i < |v.items|
    ensures ReadElements(Print(v.items[i]) + ItemsThen(v, i + 1, x), Meaning(v).items[..i]) == Some((Meaning(v), x))
    decreases v, 0, |v.items| - i
  {
    var rest, all := ItemsThen(v, i + 1, x), Meaning(v).items;
    ItemsUnfold(v, i + 1, x);
    ReadPrinted(v.items[i], rest);
    assert all[..i + 1] == all[..i] + [Meaning(v.items[i])];
    hide Print, Read, ItemsThen;
    if i + 1 < |v.items| {
      assert rest[1..] == Print(v.items[i + 1]) + ItemsThen(v, i + 2, x);
      ElementsRead(v, x, i + 1);
    } else {
      assert rest[1..] == x && all[..i + 1] == all;
    }
  }

  /** The rest of an object from field `i`, and what follows the object. */
  function FieldsThen(v: Json, keys: seq<Text>, i: nat, x: Text): Text
    requires Valid(v) && v.Obj? && i <= |keys| && Elements(keys) == KeySet(v.entries)
  {
    PrintFields(v, keys, i) + ([CLOSE_BRACE] + x)
  }

  /** A field and what comes after it. */
  function FieldThen(v: Json, key: Text, x: Text): Text
    requires Valid(v) && v.Obj? && key in KeySet(v.entries)
  {
    Quoted(key) + ([COLON] + (Print(Field(v, key)) + x))
  }

  lemma {:induction false} FieldsUnfold(v: Json, keys: seq<Text>, i: nat, x: Text)
    requires Valid(v) && v.Obj? && i <= |keys| && Elements(keys) == KeySet(v.entries)
    ensures i == |keys| ==> FieldsThen(v, keys, i, x) == [CLOSE_BRACE] + x
    ensures i < |keys| ==>
      && keys[i] in KeySet(v.entries)
      && FieldsThen(v, keys, i, x) == Separator(i) + FieldThen(v, keys[i], FieldsThen(v, keys, i + 1, x))
    ensures i > 0 ==> Follows(FieldsThen(v, keys, i, x))
  {
    hide Print, Field, Quoted;
    if i < |keys| {
      assert keys[i] in Elements(keys);
      Regrouped(
        Separator(i), Quoted(keys[i]), Print(Field(v, keys[i])), PrintFields(v, keys, i + 1), [CLOSE_BRACE] + x);
    }
  }

  lemma {:induction false} Regrouped(separator: Text, key: Text, value: Text, rest: Text, x: Text)
    ensures separator + (key + ([COLON] + (value + rest))) + x == separator + (key + ([COLON] + (value + (rest + x))))
  {
  }

  /** One member, up to what comes after its value. */
  lemma {:induction false} MemberRead(v: Json, key: Text, rest: Text, done: map<Text, Value>)
    requires Valid(v) && v.Obj? && key in KeySet(v.entries) && Follows(rest) && rest != []
    ensures ReadMembers(FieldThen(v, key, rest), done) ==
      var value := Meaning(Field(v, key));
      if rest[0] == COMMA then ReadMembers(rest[1..], done[key := value])
      else if rest[0] == CLOSE_BRACE then Some((ObjValue(done[key := value]), rest[1..]))
      else None
    decreases v, 0, 0
  {
    hide Print, Read, ReadMembers, ReadString, Meaning, KeySet, Valid, Escaped;
    var value := Print(Field(v, key));
    var t, after := FieldThen(v, key, rest), [COLON] + (value + rest);
    assert t == Quoted(key) + after;
    assert t[0] == QUOTE && t[1..] == Escaped(key) + [QUOTE] + after;
    StringRead(key, after);
    assert after[0] == COLON && after[1..] == value + rest;
    ReadPrinted(Field(v, key), rest);
    MembersTurn(t, key, after, Meaning(Field(v, key)), rest, done);
  }

  lemma {:induction false} MembersTurn(
      t: Text, key: Text, after: Text, value: Value, rest: Text, done: map<Text, Value>)
    requires t != [] && t[0] == QUOTE && ReadString(t[1..]) == Some((key, after))
    requires after != [] && after[0] == COLON && Read(after[1..]) == Some((value, rest)) && rest != []
    ensures ReadMembers(t, done) ==
      if rest[0] == COMMA then ReadMembers(rest[1..], done[key := value])
      else if rest[0] == CLOSE_BRACE then Some((ObjValue(done[key := value]), rest[1..]))
      else None
  {
    hide Read, ReadString;
  }

  /** The map of the first keys. */
  ghost function FieldsUpTo(v: Json, keys: seq<Text>, i: nat): map<Text, Value>
    requires v.Obj? && i <= |keys| && Elements(keys) == KeySet(v.entries)
  {
    if i == 0 then map[]
    else
      assert keys[i - 1] in Elements(keys);
      FieldsUpTo(v, keys, i - 1)[keys[i - 1] := Meaning(Field(v, keys[i - 1]))]
  }

  lemma {:induction false} AllFields(v: Json, keys: seq<Text>, i: nat)
    requires v.Obj? && i <= |keys| && Elements(keys) == KeySet(v.entries)
    ensures FieldsUpTo(v, keys, i).Keys == Elements(keys[..i])
    ensures forall k | k in FieldsUpTo(v, keys, i) ::
      k in KeySet(v.entries) && FieldsUpTo(v, keys, i)[k] == Meaning(Field(v, k))
  {
    hide Meaning, Field, KeySet;
    if i > 0 {
      AllFields(v, keys, i - 1);
      assert keys[i - 1] in Elements(keys);
      assert keys[..i] == keys[..i - 1] + [keys[i - 1]];
      assert Elements(keys[..i]) == Elements(keys[..i - 1]) + {keys[i - 1]};
    }
  }

  lemma {:induction false} MembersRead(v: Json, keys: seq<Text>, x: Text, i: nat)
    requires Valid(v) && v.Obj? && i < |keys| && Elements(keys) == KeySet(v.entries) && keys[i] in KeySet(v.entries)
    ensures ReadMembers(FieldThen(v, keys[i], FieldsThen(v, keys, i + 1, x)), FieldsUpTo(v, keys, i)) ==
      Some((ObjValue(FieldsUpTo(v, keys, |keys|)), x))
    decreases v, 0, |keys| - i
  {
    var rest := FieldsThen(v, keys, i + 1, x);
    hide FieldThen, FieldsThen, Read, ReadMembers, KeySet, Elements, Valid, Field, Meaning;
    FieldsUnfold(v, keys, i + 1, x);
    MemberRead(v, keys[i], rest, FieldsUpTo(v, keys, i));
    if i + 1 < |keys| {
      assert rest[1..] == FieldThen(v, keys[i + 1], FieldsThen(v, keys, i + 2, x));
      MembersRead(v, keys, x, i + 1);
    } else {
      assert rest[1..] == x;
    }
  }

  lemma {:induction false} ObjectMeaning(v: Json, keys: seq<Text>)
    requires v.Obj? && Elements(keys) == KeySet(v.entries)
    ensures Meaning(v) == ObjValue(FieldsUpTo(v, keys, |keys|))
  {
    AllFields(v, keys, |keys|);
    assert keys[..|keys|] == keys;
    var fields := Meaning(v).fields;
    assert forall k | k in KeySet(v.entries) :: fields[k] == Meaning(Field(v, k));
    assert fields == FieldsUpTo(v, keys, |keys|);
  }

  lemma {:induction false} ObjectUnfold(v: Json, x: Text)
    requires Valid(v) && v.Obj?
    ensures Elements(SortedKeys(v.entries)) == KeySet(v.entries)
    ensures Print(v) + x == [OPEN_BRACE] + FieldsThen(v, SortedKeys(v.entries), 0, x)
  {
    SortedKeysOk(v.entries);
    hide PrintFields;
  }

  lemma {:induction false} ReadsObject(t: Text)
    requires |t| > 1 && t[0] == OPEN_BRACE
    ensures Read(t) == if t[1] == CLOSE_BRACE then Some((ObjValue(map[]), t[2..])) else ReadMembers(t[1..], map[])
  {
  }

  lemma {:induction false} ObjectRead(v: Json, x: Text)
    requires Valid(v) && v.Obj?
    ensures Read(Print(v) + x) == Some((Meaning(v), x))
    decreases v, 0, |SortedKeys(v.entries)| + 1
  {
    hide Print, PrintFields, FieldsThen, Meaning, SortedKeys, KeySet, Elements, Valid, Field, Read, ReadMembers;
    var keys, t := SortedKeys(v.entries), Print(v) + x;
    ObjectUnfold(v, x);
    ObjectMeaning(v, keys);
    FieldsUnfold(v, keys, 0, x);
    assert t[0] == OPEN_BRACE && t[1..] == FieldsThen(v, keys, 0, x);
    if keys == [] {
      assert t[1] == CLOSE_BRACE && t[2..] == x;
    } else {
      assert t[1..] == FieldThen(v, keys[0], FieldsThen(v, keys, 1, x));
      assert t[1] == QUOTE;
      MembersRead(v, keys, x, 0);
    }
    ReadsObject(t);
  }

  /** The canonical text is JSON text: reading it gives the value back, with objects as maps. */
  lemma {:induction false} CanonicalTextReadsBack(v: Json)
    requires Valid(v)
    ensures Read(Print(v)) == Some((Meaning(v), []))
  {
    ReadPrinted(v, []);
    assert Print(v) + [] == Print(v);
  }

  /** Two JSON values print alike exactly when they are equal with objects taken as maps. */
  lemma {:induction false} PrintsAlikeIffEqual(a: Json, b: Json)
    requires Valid(a) && Valid(b)
    ensures Print(a) == Print(b) <==> Meaning(a) == Meaning(b)
  {
    if Meaning(a) == Meaning(b) {
      EqualPrintAlike(a, b);
    }
    CanonicalTextReadsBack(a);
    CanonicalTextReadsBack(b);
    hide Print, Read, Meaning;
  }

  // ---------------------------------------------------------------- what printing never contains

  /** Well-formed text without control characters, whatever strings and keys the value holds. */
  predicate Plain(s: Text) {
    Printable(s) && WellFormed(s)
  }

  lemma {:induction false} PlainJoin(s: Text, t: Text)
    requires Plain(s) && Plain(t)
    ensures Plain(s + t)
  {
    WellFormedJoin(s, t);
    hide WellFormed;
  }

  lemma {:induction false} PlainUnits(s: Text)
    requires forall u | u in s :: 0x20 <= u < 0xD800
    ensures Plain(s)
  {
    PlainWellFormed(s);
  }

  lemma {:induction false} PrintPlain(v: Json)
    requires Valid(v)
    ensures Plain(Print(v))
    decreases v, 1, 0
  {
    hide Printable, WellFormed, Plain, Quoted;
    match v {
      case Null => PlainUnits(NULL_TEXT);
      case Bool(_) => PlainUnits(Print(v));
      case Num(text) =>
        NumberTextUnits(text);
        PlainUnits(text);
      case Str(s) => QuotedIsPlain(s);
      case Arr(_) =>
        PlainUnits([OPEN_BRACKET]);
        PlainUnits([CLOSE_BRACKET]);
        ItemsPlain(v, 0);
        PlainJoin([OPEN_BRACKET], PrintItems(v, 0));
        PlainJoin([OPEN_BRACKET] + PrintItems(v, 0), [CLOSE_BRACKET]);
      case Obj(entries) =>
        SortedKeysOk(entries);
        var keys := SortedKeys(entries);
        PlainUnits([OPEN_BRACE]);
        PlainUnits([CLOSE_BRACE]);
        FieldsPlain(v, keys, 0);
        PlainJoin([OPEN_BRACE], PrintFields(v, keys, 0));
        PlainJoin([OPEN_BRACE] + PrintFields(v, keys, 0), [CLOSE_BRACE]);
    }
  }

  lemma {:induction false} QuotedIsPlain(s: Text)
    ensures Plain(Quoted(s))
  {
    QuotedPlain(s);
  }

  lemma {:induction false} ItemsPlain(v: Json, i: nat)
    requires Valid(v) && v.Arr? && i <= |v.items|
    ensures Plain(PrintItems(v, i))
    decreases v, 0, |v.items| - i
  {
    PlainUnits([]);
    if i < |v.items| {
      PlainUnits(Separator(i));
      PrintPlain(v.items[i]);
      ItemsPlain(v, i + 1);
      PlainJoin(Print(v.items[i]), PrintItems(v, i + 1));
      PlainJoin(Separator(i), Print(v.items[i]) + PrintItems(v, i + 1));
    }
  }

  lemma {:induction false} FieldsPlain(v: Json, keys: seq<Text>, i: nat)
    requires Valid(v) && v.Obj? && i <= |keys| && Elements(keys) == KeySet(v.entries)
    ensures Plain(PrintFields(v, keys, i))
    decreases v, 0, |keys| - i
  {
    hide Printable, WellFormed, Plain, Quoted, Separator;
    PlainSeparators(i);
    if i < |keys| {
      assert keys[i] in Elements(keys);
      var value, rest := Print(Field(v, keys[i])), PrintFields(v, keys, i + 1);
      PrintPlain(Field(v, keys[i]));
      FieldsPlain(v, keys, i + 1);
      QuotedIsPlain(keys[i]);
      PlainJoin(value, rest);
      PlainJoin([COLON], value + rest);
      PlainJoin(Quoted(keys[i]), [COLON] + (value + rest));
      PlainJoin(Separator(i), Quoted(keys[i]) + ([COLON] + (value + rest)));
    }
  }

  lemma {:induction false} PlainSeparators(i: nat)
    ensures Plain([]) && Plain([COLON]) && Plain(Separator(i))
  {
    PlainUnits([COLON]);
    PlainUnits(Separator(i));
  }
}
