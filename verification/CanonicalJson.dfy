/**
 * canonicalJson of apps/api/src/m2/idempotency.service.ts: the text of a request with object members
 * sorted by key. Text is a sequence of UTF-16 code units.
 */
module CanonicalJson {
  import opened Numerals

  datatype Json =
    | Null
    | Bool(value: bool)
    | Number(number: Finite)
    | Str(text: Text)
    | Arr(elements: seq<Json>)
    | Obj(members: seq<Member>)
  datatype Member = Member(key: Text, value: Json)

  /** The JSON value a request denotes: members have no order. */
  datatype Meaning =
    | MNull
    | MBool(value: bool)
    | MNumber(number: Finite)
    | MStr(text: Text)
    | MArr(elements: seq<Meaning>)
    | MObj(members: map<Text, Meaning>)

  predicate DistinctKeys(members: seq<Member>) {
    forall i, j :: 0 <= i < j < |members| ==> members[i].key != members[j].key
  }

  /** Objects of the language have one member per key. */
  ghost predicate Proper(json: Json) {
    match json
    case Arr(elements) => forall i :: 0 <= i < |elements| ==> Proper(elements[i])
    case Obj(members) => DistinctKeys(members) && forall i :: 0 <= i < |members| ==> Proper(members[i].value)
    case _ => true
  }

  ghost function MeaningOf(json: Json): Meaning
    requires Proper(json)
  {
    match json
    case Null => MNull
    case Bool(value) => MBool(value)
    case Number(number) => MNumber(number)
    case Str(text) => MStr(text)
    case Arr(elements) => MArr(seq(|elements|, i requires 0 <= i < |elements| => MeaningOf(elements[i])))
    case Obj(members) =>
      MObj(map key | key in KeysOf(members) :: MeaningOf(members[IndexOf(members, key)].value))
  }

  function KeysOf(members: seq<Member>): set<Text> {
    set i | 0 <= i < |members| :: members[i].key
  }

  ghost function IndexOf(members: seq<Member>, key: Text): (i: nat)
    requires key in KeysOf(members)
    ensures i < |members| && members[i].key == key
  {
    var i :| 0 <= i < |members| && members[i].key == key; i
  }

  // ----- characters --------------------------------------------------------------------------

  const QUOTE: Unit := 34
  const COMMA: Unit := 44
  const COLON: Unit := 58
  const OPEN_BRACKET: Unit := 91
  const BACKSLASH: Unit := 92
  const CLOSE_BRACKET: Unit := 93
  const OPEN_BRACE: Unit := 123
  const CLOSE_BRACE: Unit := 125

  const NULL_TEXT: Text := [110, 117, 108, 108]
  const TRUE_TEXT: Text := [116, 114, 117, 101]
  const FALSE_TEXT: Text := [102, 97, 108, 115, 101]

  // ----- strings -----------------------------------------------------------------------------

  predicate High(u: Unit) {
    0xD800 <= u <= 0xDBFF
  }

  predicate Low(u: Unit) {
    0xDC00 <= u <= 0xDFFF
  }

  /** A surrogate with no partner is written as an escape. */
  predicate Lone(s: Text, i: nat)
    requires i < |s|
  {
    (High(s[i]) && !(i + 1 < |s| && Low(s[i + 1]))) || (Low(s[i]) && !(i > 0 && High(s[i - 1])))
  }

  function Hex(digit: nat): Unit
    requires digit < 16
  {
    if digit < 10 then ZERO + digit else 87 + digit
  }

  function UnicodeEscape(u: Unit): Text {
    [BACKSLASH, 117, Hex(u / 4096), Hex(u / 256 % 16), Hex(u / 16 % 16), Hex(u % 16)]
  }

  function Piece(u: Unit, lone: bool): (piece: Text)
    ensures |piece| > 0 && piece[0] != QUOTE
  {
    if u == QUOTE || u == BACKSLASH then [BACKSLASH, u]
    else if u == 8 then [BACKSLASH, 98]
    else if u == 9 then [BACKSLASH, 116]
    else if u == 10 then [BACKSLASH, 110]
    else if u == 12 then [BACKSLASH, 102]
    else if u == 13 then [BACKSLASH, 114]
    else if u < 32 || lone then UnicodeEscape(u)
    else [u]
  }

  function EscapeFrom(s: Text, i: nat): Text
    requires i <= |s|
    decreases |s| - i
  {
    if i == |s| then [] else Piece(s[i], Lone(s, i)) + EscapeFrom(s, i + 1)
  }

  /** JSON.stringify of a string. */
  function Quoted(s: Text): Text {
    [QUOTE] + EscapeFrom(s, 0) + [QUOTE]
  }

  /** A piece can be read back from the front of any text. */
  lemma PieceUnique(u: Unit, lone: bool, v: Unit, other: bool, r: Text, q: Text)
    requires Piece(u, lone) + r == Piece(v, other) + q
    ensures u == v && r == q
  {
    var a := Piece(u, lone);
    var b := Piece(v, other);
    assert (a + r)[0] == a[0] && (b + q)[0] == b[0];
    if |a| > 1 {
      assert (a + r)[1] == a[1] && (b + q)[1] == b[1];
    }
    if |a| == 6 {
      assert forall k :: 0 <= k < 6 ==> (a + r)[k] == a[k] && (b + q)[k] == b[k];
      HexUnique(u, v);
    }
    assert |a| == |b|;
    assert r == (a + r)[|a|..] && q == (b + q)[|b|..];
  }

  lemma HexInjective(d: nat, e: nat)
    requires d < 16 && e < 16 && Hex(d) == Hex(e)
    ensures d == e
  {
  }

  lemma FourDigits(u: Unit)
    ensures u == 4096 * (u / 4096) + 256 * (u / 256 % 16) + 16 * (u / 16 % 16) + u % 16
  {
    assert u / 256 == 16 * (u / 256 / 16) + u / 256 % 16;
    assert u / 16 == 16 * (u / 16 / 16) + u / 16 % 16;
  }

  lemma HexUnique(u: Unit, v: Unit)
    requires UnicodeEscape(u) == UnicodeEscape(v)
    ensures u == v
  {
    hide Hex;
    var a, b := UnicodeEscape(u), UnicodeEscape(v);
    assert a[2] == b[2] && a[3] == b[3] && a[4] == b[4] && a[5] == b[5];
    HexInjective(u / 4096, v / 4096);
    HexInjective(u / 256 % 16, v / 256 % 16);
    HexInjective(u / 16 % 16, v / 16 % 16);
    HexInjective(u % 16, v % 16);
    FourDigits(u);
    FourDigits(v);
  }

  lemma {:induction false} EscapeUnique(s: Text, i: nat, t: Text, j: nat, r: Text, q: Text)
    requires i <= |s| && j <= |t|
    requires EscapeFrom(s, i) + [QUOTE] + r == EscapeFrom(t, j) + [QUOTE] + q
    ensures s[i..] == t[j..] && r == q
    decreases |s| - i
  {
    hide Piece, Lone;
    var left := EscapeFrom(s, i) + [QUOTE] + r;
    var right := EscapeFrom(t, j) + [QUOTE] + q;
    assert left[0] == if i < |s| then Piece(s[i], Lone(s, i))[0] else QUOTE;
    assert right[0] == if j < |t| then Piece(t[j], Lone(t, j))[0] else QUOTE;
    if i < |s| && j < |t| {
      var rest := EscapeFrom(s, i + 1) + [QUOTE] + r;
      var other := EscapeFrom(t, j + 1) + [QUOTE] + q;
      assert left == Piece(s[i], Lone(s, i)) + rest;
      assert right == Piece(t[j], Lone(t, j)) + other;
      PieceUnique(s[i], Lone(s, i), t[j], Lone(t, j), rest, other);
      EscapeUnique(s, i + 1, t, j + 1, r, q);
      assert s[i..] == [s[i]] + s[i + 1..] && t[j..] == [t[j]] + t[j + 1..];
    } else {
      assert r == left[1..] && q == right[1..];
    }
  }

  lemma QuotedUnique(s: Text, t: Text, r: Text, q: Text)
    requires Quoted(s) + r == Quoted(t) + q
    ensures s == t && r == q
  {
    assert (Quoted(s) + r)[1..] == EscapeFrom(s, 0) + [QUOTE] + r;
    assert (Quoted(t) + q)[1..] == EscapeFrom(t, 0) + [QUOTE] + q;
    EscapeUnique(s, 0, t, 0, r, q);
    assert s[0..] == s && t[0..] == t;
  }

  // ----- numbers -----------------------------------------------------------------------------

  /** What may follow a value inside an array or object, or at the end. */
  predicate Ender(r: Text) {
    r == [] || r[0] == COMMA || r[0] == CLOSE_BRACKET || r[0] == CLOSE_BRACE
  }

  lemma NumeralUnique(m: Finite, n: Finite, r: Text, q: Text)
    requires Ender(r) && Ender(q) && Numeral(m) + r == Numeral(n) + q
    ensures m == n
  {
    hide Numeral;
    NumeralUnits(m);
    NumeralUnits(n);
    assert Numeral(m) == (Numeral(m) + r)[..|Numeral(m)|] && Numeral(n) == (Numeral(n) + q)[..|Numeral(n)|];
    NumeralInjective(m, n);
  }

  // ----- sorting -----------------------------------------------------------------------------

  datatype Entry = Entry(key: Text, text: Text)

  /** The order of Array.prototype.sort on strings: by code unit. */
  predicate Less(a: Text, b: Text) {
    b != [] && (a == [] || a[0] < b[0] || (a[0] == b[0] && Less(a[1..], b[1..])))
  }

  lemma {:induction false} LessTotal(a: Text, b: Text)
    ensures (Less(a, b) || Less(b, a)) <==> a != b
    ensures !(Less(a, b) && Less(b, a))
  {
    if a != [] && b != [] && a[0] == b[0] {
      LessTotal(a[1..], b[1..]);
      assert a == [a[0]] + a[1..] && b == [b[0]] + b[1..];
    }
  }

  lemma {:induction false} LessTransitive(a: Text, b: Text, c: Text)
    requires Less(a, b) && Less(b, c)
    ensures Less(a, c)
  {
    if a != [] && a[0] == b[0] && b[0] == c[0] {
      LessTransitive(a[1..], b[1..], c[1..]);
    }
  }

  function Insert(entry: Entry, sorted: seq<Entry>): seq<Entry> {
    if sorted == [] then [entry]
    else if Less(entry.key, sorted[0].key) then [entry] + sorted
    else [sorted[0]] + Insert(entry, sorted[1..])
  }

  function Sort(entries: seq<Entry>): seq<Entry> {
    if entries == [] then [] else Insert(entries[0], Sort(entries[1..]))
  }

  ghost predicate Ascending(entries: seq<Entry>) {
    forall i, j :: 0 <= i < j < |entries| ==> Less(entries[i].key, entries[j].key)
  }

  ghost predicate SameEntries(a: seq<Entry>, b: seq<Entry>) {
    forall e :: e in a <==> e in b
  }

  lemma {:induction false} InsertAscending(entry: Entry, sorted: seq<Entry>)
    requires Ascending(sorted) && forall e :: e in sorted ==> e.key != entry.key
    ensures Ascending(Insert(entry, sorted))
    ensures forall e :: e in Insert(entry, sorted) <==> e == entry || e in sorted
  {
    if sorted != [] {
      var head := sorted[0];
      assert sorted == [head] + sorted[1..];
      if Less(entry.key, head.key) {
        forall j | 0 <= j < |sorted| ensures Less(entry.key, sorted[j].key) {
          if j > 0 {
            LessTransitive(entry.key, head.key, sorted[j].key);
          }
        }
      } else {
        LessTotal(entry.key, head.key);
        InsertAscending(entry, sorted[1..]);
        forall e | e in Insert(entry, sorted[1..]) ensures Less(head.key, e.key) {
        }
      }
    }
  }

  predicate DistinctEntries(entries: seq<Entry>) {
    forall i, j :: 0 <= i < j < |entries| ==> entries[i].key != entries[j].key
  }

  lemma {:induction false} SortAscending(entries: seq<Entry>)
    requires DistinctEntries(entries)
    ensures Ascending(Sort(entries)) && SameEntries(Sort(entries), entries)
  {
    if entries != [] {
      SortAscending(entries[1..]);
      assert forall e :: e in entries[1..] ==> e.key != entries[0].key;
      InsertAscending(entries[0], Sort(entries[1..]));
      assert entries == [entries[0]] + entries[1..];
    }
  }

  lemma EmptySame(a: seq<Entry>, b: seq<Entry>)
    requires SameEntries(a, b)
    ensures a == [] <==> b == []
  {
    if a != [] {
      assert a[0] in b;
    }
    if b != [] {
      assert b[0] in a;
    }
  }

  /** An ascending list is determined by what it holds. */
  lemma {:induction false} AscendingUnique(a: seq<Entry>, b: seq<Entry>)
    requires Ascending(a) && Ascending(b) && SameEntries(a, b)
    ensures a == b
  {
    EmptySame(a, b);
    if a != [] {
      assert a[0] in b;
      assert b[0] in a;
      LessTotal(a[0].key, b[0].key);
      assert a[0] == b[0];
      forall e ensures e in a[1..] <==> e in b[1..] {
        LessTotal(a[0].key, a[0].key);
        assert e in a[1..] ==> e in a && e != a[0];
        assert e in b[1..] ==> e in b && e != b[0];
      }
      AscendingUnique(a[1..], b[1..]);
    }
  }

  // ----- printing ----------------------------------------------------------------------------

  function Join(lines: seq<Text>): Text {
    if lines == [] then [] else if |lines| == 1 then lines[0] else lines[0] + [COMMA] + Join(lines[1..])
  }

  function Line(entry: Entry): Text {
    Quoted(entry.key) + [COLON] + entry.text
  }

  function Lines(entries: seq<Entry>): seq<Text> {
    seq(|entries|, i requires 0 <= i < |entries| => Line(entries[i]))
  }

  /** canonicalJson. */
  function Print(json: Json): Text {
    match json
    case Null => NULL_TEXT
    case Bool(value) => if value then TRUE_TEXT else FALSE_TEXT
    case Number(number) => Numeral(number)
    case Str(text) => Quoted(text)
    case Arr(elements) =>
      [OPEN_BRACKET] + Join(seq(|elements|, i requires 0 <= i < |elements| => Print(elements[i]))) + [CLOSE_BRACKET]
    case Obj(members) =>
      var entries := seq(|members|, i requires 0 <= i < |members| => Entry(members[i].key, Print(members[i].value)));
      [OPEN_BRACE] + Join(Lines(Sort(entries))) + [CLOSE_BRACE]
  }

  function Texts(elements: seq<Json>): seq<Text> {
    seq(|elements|, i requires 0 <= i < |elements| => Print(elements[i]))
  }

  function Entries(members: seq<Member>): seq<Entry> {
    seq(|members|, i requires 0 <= i < |members| => Entry(members[i].key, Print(members[i].value)))
  }

  lemma PrintParts(json: Json)
    ensures json.Arr? ==> Print(json) == [OPEN_BRACKET] + Join(Texts(json.elements)) + [CLOSE_BRACKET]
    ensures json.Obj? ==> Print(json) == [OPEN_BRACE] + Join(Lines(Sort(Entries(json.members)))) + [CLOSE_BRACE]
  {
    if json.Arr? {
      assert Texts(json.elements) ==
             seq(|json.elements|, i requires 0 <= i < |json.elements| => Print(json.elements[i]));
    }
    if json.Obj? {
      assert Entries(json.members) ==
             seq(|json.members|, i requires 0 <= i < |json.members| =>
                 Entry(json.members[i].key, Print(json.members[i].value)));
    }
  }

  /** Which kind of value a text begins. */
  function Kind(u: Unit): nat {
    if u == 110 then 0 else if u == 116 || u == 102 then 1 else if u == MINUS || IsDigit(u) then 2
    else if u == QUOTE then 3 else if u == OPEN_BRACKET then 4 else if u == OPEN_BRACE then 5 else 6
  }

  lemma FirstUnit(json: Json)
    ensures Print(json) != []
    ensures Kind(Print(json)[0]) ==
            match json
            case Null => 0
            case Bool(_) => 1
            case Number(_) => 2
            case Str(_) => 3
            case Arr(_) => 4
            case Obj(_) => 5
    ensures !Ender(Print(json))
  {
    PrintParts(json);
    if json.Number? {
      NumeralUnits(json.number);
    }
  }

  // ----- reading back ------------------------------------------------------------------------

  /** A text that can be read back from in front of anything that may follow it. */
  ghost predicate Solid(a: Text, b: Text) {
    forall r: Text, q: Text :: Ender(r) && Ender(q) && a + r == b + q ==> a == b
  }

  /** What follows the first of some joined lines. */
  function Following(lines: seq<Text>, close: Unit, r: Text): Text {
    if |lines| <= 1 then [close] + r else [COMMA] + Join(lines[1..]) + [close] + r
  }

  lemma JoinHead(lines: seq<Text>, close: Unit, r: Text)
    requires lines != []
    ensures Join(lines) + [close] + r == lines[0] + Following(lines, close, r)
    ensures Following(lines, close, r)[0] == if |lines| == 1 then close else COMMA
    ensures |lines| == 1 ==> Following(lines, close, r)[1..] == r
    ensures |lines| > 1 ==> Following(lines, close, r)[1..] == Join(lines[1..]) + [close] + r
  {
    hide Join;
    JoinParts(lines);
    if |lines| == 1 {
      LastOne(lines[0], close, r);
    } else {
      Regroup(lines[0], Join(lines[1..]), close, r);
      Uncons(COMMA, Join(lines[1..]), close, r);
    }
  }

  lemma LastOne(line: Text, close: Unit, r: Text)
    ensures line + [close] + r == line + ([close] + r)
    ensures ([close] + r)[0] == close && ([close] + r)[1..] == r
  {
  }

  lemma JoinParts(lines: seq<Text>)
    requires lines != []
    ensures |lines| == 1 ==> Join(lines) == lines[0]
    ensures |lines| > 1 ==> Join(lines) == lines[0] + [COMMA] + Join(lines[1..])
  {
  }

  lemma Regroup(head: Text, rest: Text, close: Unit, r: Text)
    ensures head + [COMMA] + rest + [close] + r == head + ([COMMA] + rest + [close] + r)
  {
  }

  lemma Uncons(first: Unit, rest: Text, close: Unit, r: Text)
    ensures ([first] + rest + [close] + r)[0] == first
    ensures ([first] + rest + [close] + r)[1..] == rest + [close] + r
  {
  }

  lemma {:induction false} JoinUnique(a: seq<Text>, b: seq<Text>, close: Unit, r: Text, q: Text)
    requires close == CLOSE_BRACKET || close == CLOSE_BRACE
    requires forall i :: 0 <= i < |a| ==> !Ender(a[i])
    requires forall i :: 0 <= i < |b| ==> !Ender(b[i])
    requires forall i, j :: 0 <= i < |a| && 0 <= j < |b| ==> Solid(a[i], b[j])
    requires Join(a) + [close] + r == Join(b) + [close] + q
    ensures a == b && r == q
  {
    hide Join, Following, Solid;
    var left := Join(a) + [close] + r;
    assert Join([]) == [] by { EmptyJoin(); }
    if a != [] {
      JoinHead(a, close, r);
    }
    if b != [] {
      JoinHead(b, close, q);
    }
    assert left[0] == if a == [] then close else a[0][0];
    assert left[0] == if b == [] then close else b[0][0];
    if a == [] {
      assert r == left[1..] && q == left[1..];
    } else {
      var x, y := Following(a, close, r), Following(b, close, q);
      FirstSolid(a[0], b[0], x, y);
      if |a| > 1 {
        JoinUnique(a[1..], b[1..], close, r, q);
      }
      assert a == [a[0]] + a[1..] && b == [b[0]] + b[1..];
    }
  }

  lemma EmptyJoin()
    ensures Join([]) == []
  {
  }

  lemma FirstSolid(a: Text, b: Text, x: Text, y: Text)
    requires Solid(a, b) && Ender(x) && Ender(y) && a + x == b + y
    ensures a == b && x == y
  {
    assert x == (a + x)[|a|..] && y == (b + y)[|b|..];
  }

  lemma LineUnique(e: Entry, f: Entry, r: Text, q: Text)
    requires Ender(r) && Ender(q) && Line(e) + r == Line(f) + q
    ensures e.key == f.key && e.text + r == f.text + q
  {
    hide Quoted;
    KeyFirst(Quoted(e.key), e.text, r);
    KeyFirst(Quoted(f.key), f.text, q);
    QuotedUnique(e.key, f.key, [COLON] + (e.text + r), [COLON] + (f.text + q));
    assert ([COLON] + (e.text + r))[1..] == e.text + r && ([COLON] + (f.text + q))[1..] == f.text + q;
  }

  lemma KeyFirst(key: Text, text: Text, r: Text)
    ensures key + [COLON] + text + r == key + ([COLON] + (text + r))
  {
  }

  lemma SolidLines(e: Entry, f: Entry)
    requires Solid(e.text, f.text)
    ensures Solid(Line(e), Line(f))
  {
    forall r: Text, q: Text | Ender(r) && Ender(q) && Line(e) + r == Line(f) + q ensures Line(e) == Line(f) {
      LineUnique(e, f, r, q);
    }
  }

  lemma SortedFrom(members: seq<Member>)
    ensures forall e :: e in Sort(Entries(members)) ==> exists i :: 0 <= i < |members| && e == Entries(members)[i]
  {
    SortKeeps(Entries(members));
  }

  lemma {:induction false} SortKeeps(entries: seq<Entry>)
    ensures forall e :: e in Sort(entries) ==> e in entries
  {
    if entries != [] {
      SortKeeps(entries[1..]);
      InsertKeeps(entries[0], Sort(entries[1..]));
    }
  }

  lemma {:induction false} InsertKeeps(entry: Entry, sorted: seq<Entry>)
    ensures forall e :: e in Insert(entry, sorted) ==> e == entry || e in sorted
  {
    if sorted != [] {
      InsertKeeps(entry, sorted[1..]);
    }
  }

  lemma LinesStart(entries: seq<Entry>)
    ensures |Lines(entries)| == |entries|
    ensures forall i :: 0 <= i < |entries| ==> Lines(entries)[i] == Line(entries[i]) && !Ender(Lines(entries)[i])
  {
    assert forall i :: 0 <= i < |entries| ==> Line(entries[i])[0] == QUOTE;
  }

  /** No printed value is a proper beginning of another one: each can be read back from a longer text. */
  lemma {:induction false} PrintSolid(a: Json, b: Json)
    ensures Solid(Print(a), Print(b))
  {
    forall r: Text, q: Text | Ender(r) && Ender(q) && Print(a) + r == Print(b) + q ensures Print(a) == Print(b) {
      FirstUnit(a);
      FirstUnit(b);
      assert (Print(a) + r)[0] == Print(a)[0] && (Print(b) + q)[0] == Print(b)[0];
      match a
      case Null =>
      case Bool(_) =>
      case Number(m) => NumeralUnique(m, b.number, r, q);
      case Str(s) => QuotedUnique(s, b.text, r, q);
      case Arr(elements) =>
        forall i, j | 0 <= i < |elements| && 0 <= j < |b.elements|
          ensures Solid(Texts(elements)[i], Texts(b.elements)[j]) {
          PrintSolid(elements[i], b.elements[j]);
        }
        ArraysAgree(elements, b.elements, r, q);
      case Obj(members) =>
        forall i, j | 0 <= i < |members| && 0 <= j < |b.members|
          ensures Solid(Entries(members)[i].text, Entries(b.members)[j].text) {
          PrintSolid(members[i].value, b.members[j].value);
        }
        ObjectsAgree(members, b.members, r, q);
    }
  }

  lemma ArraysAgree(a: seq<Json>, b: seq<Json>, r: Text, q: Text)
    requires Print(Arr(a)) + r == Print(Arr(b)) + q
    requires forall i, j :: 0 <= i < |a| && 0 <= j < |b| ==> Solid(Texts(a)[i], Texts(b)[j])
    ensures Texts(a) == Texts(b) && Print(Arr(a)) == Print(Arr(b))
  {
    hide Print, Join, Solid;
    PrintParts(Arr(a));
    PrintParts(Arr(b));
    assert (Print(Arr(a)) + r)[1..] == Join(Texts(a)) + [CLOSE_BRACKET] + r;
    assert (Print(Arr(b)) + q)[1..] == Join(Texts(b)) + [CLOSE_BRACKET] + q;
    forall i | 0 <= i < |a| ensures !Ender(Texts(a)[i]) {
      FirstUnit(a[i]);
    }
    forall i | 0 <= i < |b| ensures !Ender(Texts(b)[i]) {
      FirstUnit(b[i]);
    }
    JoinUnique(Texts(a), Texts(b), CLOSE_BRACKET, r, q);
  }

  lemma ObjectsAgree(a: seq<Member>, b: seq<Member>, r: Text, q: Text)
    requires Print(Obj(a)) + r == Print(Obj(b)) + q
    requires forall i, j :: 0 <= i < |a| && 0 <= j < |b| ==> Solid(Entries(a)[i].text, Entries(b)[j].text)
    ensures Lines(Sort(Entries(a))) == Lines(Sort(Entries(b))) && Print(Obj(a)) == Print(Obj(b))
  {
    hide Print, Join, Solid, Sort, Entries, Lines;
    PrintParts(Obj(a));
    PrintParts(Obj(b));
    var left, right := Sort(Entries(a)), Sort(Entries(b));
    assert (Print(Obj(a)) + r)[1..] == Join(Lines(left)) + [CLOSE_BRACE] + r;
    assert (Print(Obj(b)) + q)[1..] == Join(Lines(right)) + [CLOSE_BRACE] + q;
    LinesStart(left);
    LinesStart(right);
    SortedFrom(a);
    SortedFrom(b);
    forall i, j | 0 <= i < |left| && 0 <= j < |right| ensures Solid(Lines(left)[i], Lines(right)[j]) {
      assert left[i] in left && right[j] in right;
      SolidLines(left[i], right[j]);
    }
    JoinUnique(Lines(left), Lines(right), CLOSE_BRACE, r, q);
  }

  // ----- injectivity -------------------------------------------------------------------------

  ghost predicate Denotes(members: map<Text, Meaning>, key: Text, value: Json) {
    Proper(value) && key in members && members[key] == MeaningOf(value)
  }

  lemma MembersMeaning(members: seq<Member>)
    requires Proper(Obj(members))
    ensures MeaningOf(Obj(members)).MObj?
    ensures forall i :: 0 <= i < |members| ==>
              Denotes(MeaningOf(Obj(members)).members, members[i].key, members[i].value)
    ensures forall key :: key in MeaningOf(Obj(members)).members ==>
              exists i :: 0 <= i < |members| && members[i].key == key
  {
    var json := Obj(members);
    assert DistinctKeys(json.members);
    var meanings := MeaningOf(json).members;
    forall i | 0 <= i < |members| ensures Denotes(meanings, members[i].key, members[i].value) {
      assert members[i].key in KeysOf(members);
      assert IndexOf(members, members[i].key) == i;
      assert Proper(json.members[i].value);
    }
  }

  lemma ElementsMeaning(elements: seq<Json>)
    requires Proper(Arr(elements))
    ensures MeaningOf(Arr(elements)).MArr? && |MeaningOf(Arr(elements)).elements| == |elements|
    ensures forall i :: 0 <= i < |elements| ==>
              Proper(elements[i]) && MeaningOf(Arr(elements)).elements[i] == MeaningOf(elements[i])
  {
  }

  predicate Matches(left: Member, right: Member) {
    right.key == left.key && Print(right.value) == Print(left.value)
  }

  /** Whether one member list has, key by key, values with the texts of another. */
  ghost predicate Covers(a: seq<Member>, b: seq<Member>) {
    forall i :: 0 <= i < |a| ==> Covered(a[i], b)
  }

  ghost predicate Covered(member: Member, b: seq<Member>) {
    exists j :: 0 <= j < |b| && Matches(member, b[j])
  }

  lemma SortedEntries(members: seq<Member>)
    requires DistinctKeys(members)
    ensures Ascending(Sort(Entries(members))) && SameEntries(Sort(Entries(members)), Entries(members))
  {
    SortAscending(Entries(members));
  }

  lemma LinesInjective(a: seq<Entry>, b: seq<Entry>)
    requires Lines(a) == Lines(b)
    ensures a == b
  {
    LinesStart(a);
    LinesStart(b);
    forall i | 0 <= i < |a| ensures a[i] == b[i] {
      assert Lines(a)[i] == Lines(b)[i];
      assert Line(a[i]) + [] == Line(a[i]) && Line(b[i]) + [] == Line(b[i]);
      LineUnique(a[i], b[i], [], []);
      assert a[i].text + [] == a[i].text && b[i].text + [] == b[i].text;
    }
  }

  lemma SameLinesCover(a: seq<Member>, b: seq<Member>)
    requires DistinctKeys(a) && DistinctKeys(b)
    requires Lines(Sort(Entries(a))) == Lines(Sort(Entries(b)))
    ensures Covers(a, b) && Covers(b, a)
  {
    hide Sort, Lines;
    LinesInjective(Sort(Entries(a)), Sort(Entries(b)));
    SortedEntries(a);
    SortedEntries(b);
    CoverFrom(a, b);
    CoverFrom(b, a);
  }

  lemma CoverFrom(a: seq<Member>, b: seq<Member>)
    requires SameEntries(Entries(a), Entries(b)) ||
             (exists c :: SameEntries(c, Entries(a)) && SameEntries(c, Entries(b)))
    ensures Covers(a, b)
  {
    forall i | 0 <= i < |a|
      ensures Covered(a[i], b)
    {
      assert Entries(a)[i] in Entries(a);
      assert Entries(a)[i] in Entries(b);
      var j :| 0 <= j < |Entries(b)| && Entries(b)[j] == Entries(a)[i];
      assert Matches(a[i], b[j]);
    }
  }

  lemma CoverSame(a: seq<Member>, b: seq<Member>)
    requires DistinctKeys(a) && DistinctKeys(b) && Covers(a, b) && Covers(b, a)
    ensures Print(Obj(a)) == Print(Obj(b))
  {
    hide Sort, Lines;
    PrintParts(Obj(a));
    PrintParts(Obj(b));
    SortedEntries(a);
    SortedEntries(b);
    EntriesFrom(a, b);
    EntriesFrom(b, a);
    AscendingUnique(Sort(Entries(a)), Sort(Entries(b)));
  }

  lemma EntriesFrom(a: seq<Member>, b: seq<Member>)
    requires Covers(a, b)
    ensures forall e :: e in Entries(a) ==> e in Entries(b)
  {
    forall e | e in Entries(a) ensures e in Entries(b) {
      var i :| 0 <= i < |a| && Entries(a)[i] == e;
      assert Covered(a[i], b);
      var j :| 0 <= j < |b| && Matches(a[i], b[j]);
      assert Entries(b)[j] == e;
    }
  }

  lemma {:induction false} SameTextSameMeaning(a: Json, b: Json)
    requires Proper(a) && Proper(b) && Print(a) == Print(b)
    ensures MeaningOf(a) == MeaningOf(b)
  {
    FirstUnit(a);
    FirstUnit(b);
    assert Print(a) + [] == Print(b) + [];
    match a
    case Null =>
    case Bool(_) =>
    case Number(m) => NumeralUnique(m, b.number, [], []);
    case Str(s) => QuotedUnique(s, b.text, [], []);
    case Arr(elements) =>
      forall i, j | 0 <= i < |elements| && 0 <= j < |b.elements|
        ensures Solid(Texts(elements)[i], Texts(b.elements)[j]) {
        PrintSolid(elements[i], b.elements[j]);
      }
      ArraysAgree(elements, b.elements, [], []);
      ElementsMeaning(elements);
      ElementsMeaning(b.elements);
      assert |elements| == |Texts(elements)| == |b.elements|;
      forall i | 0 <= i < |elements| ensures MeaningOf(elements[i]) == MeaningOf(b.elements[i]) {
        assert Texts(elements)[i] == Texts(b.elements)[i];
        SameTextSameMeaning(elements[i], b.elements[i]);
      }
    case Obj(members) =>
      forall i, j | 0 <= i < |members| && 0 <= j < |b.members|
        ensures Solid(Entries(members)[i].text, Entries(b.members)[j].text) {
        PrintSolid(members[i].value, b.members[j].value);
      }
      ObjectsAgree(members, b.members, [], []);
      SameLinesCover(members, b.members);
      forall i, j | 0 <= i < |members| && 0 <= j < |b.members|
        ensures SameMeanings(members[i].value, b.members[j].value) && SameMeanings(b.members[j].value, members[i].value)
      {
        if Print(members[i].value) == Print(b.members[j].value) {
          SameTextSameMeaning(members[i].value, b.members[j].value);
        }
      }
      SameMembers(members, b.members);
  }

  /** Lists that cover each other denote one map, once values with one text have one meaning. */
  lemma SameMembers(a: seq<Member>, b: seq<Member>)
    requires Proper(Obj(a)) && Proper(Obj(b)) && Covers(a, b) && Covers(b, a)
    requires forall i, j :: 0 <= i < |a| && 0 <= j < |b| ==>
               SameMeanings(a[i].value, b[j].value) && SameMeanings(b[j].value, a[i].value)
    ensures MeaningOf(Obj(a)) == MeaningOf(Obj(b))
  {
    hide SameMeanings, Covers, Lists, MeaningOf, Proper;
    MembersListed(a);
    MembersListed(b);
    var left, right := MeaningOf(Obj(a)).members, MeaningOf(Obj(b)).members;
    OneWay(a, b, left, right);
    OneWay(b, a, right, left);
    assert left == right;
  }

  ghost predicate Lists(members: seq<Member>, meanings: map<Text, Meaning>) {
    && (forall i :: 0 <= i < |members| ==> Denotes(meanings, members[i].key, members[i].value))
    && (forall key :: key in meanings ==> exists i :: 0 <= i < |members| && members[i].key == key)
  }

  lemma MembersListed(members: seq<Member>)
    requires Proper(Obj(members))
    ensures MeaningOf(Obj(members)).MObj? && Lists(members, MeaningOf(Obj(members)).members)
  {
    MembersMeaning(members);
  }

  ghost predicate SameMeanings(a: Json, b: Json) {
    Print(a) == Print(b) ==> Proper(a) && Proper(b) && MeaningOf(a) == MeaningOf(b)
  }

  lemma OneWay(a: seq<Member>, b: seq<Member>, left: map<Text, Meaning>, right: map<Text, Meaning>)
    requires Lists(a, left) && Lists(b, right) && Covers(a, b)
    requires forall i, j :: 0 <= i < |a| && 0 <= j < |b| ==> SameMeanings(a[i].value, b[j].value)
    ensures forall key :: key in left ==> key in right && right[key] == left[key]
  {
    forall key | key in left ensures key in right && right[key] == left[key] {
      var i :| 0 <= i < |a| && a[i].key == key;
      assert Covered(a[i], b);
      var j :| 0 <= j < |b| && Matches(a[i], b[j]);
      assert SameMeanings(a[i].value, b[j].value);
      assert Denotes(left, a[i].key, a[i].value) && Denotes(right, b[j].key, b[j].value);
    }
  }

  lemma {:induction false} SameMeaningSameText(a: Json, b: Json)
    requires Proper(a) && Proper(b) && MeaningOf(a) == MeaningOf(b)
    ensures Print(a) == Print(b)
  {
    match a
    case Null =>
    case Bool(_) =>
    case Number(_) =>
    case Str(_) =>
    case Arr(elements) =>
      ElementsMeaning(elements);
      ElementsMeaning(b.elements);
      forall i | 0 <= i < |elements| ensures Texts(elements)[i] == Texts(b.elements)[i] {
        SameMeaningSameText(elements[i], b.elements[i]);
      }
      assert Texts(elements) == Texts(b.elements);
      PrintParts(a);
      PrintParts(b);
    case Obj(members) =>
      forall i, j | 0 <= i < |members| && 0 <= j < |b.members| && Proper(b.members[j].value) &&
                    MeaningOf(members[i].value) == MeaningOf(b.members[j].value)
        ensures Print(members[i].value) == Print(b.members[j].value)
      {
        SameMeaningSameText(members[i].value, b.members[j].value);
      }
      CoverMeaning(members, b.members);
      CoverSame(members, b.members);
  }

  lemma CoverMeaning(a: seq<Member>, b: seq<Member>)
    requires Proper(Obj(a)) && Proper(Obj(b)) && MeaningOf(Obj(a)) == MeaningOf(Obj(b))
    requires forall i, j :: 0 <= i < |a| && 0 <= j < |b| && Proper(a[i].value) && Proper(b[j].value) &&
                            MeaningOf(a[i].value) == MeaningOf(b[j].value) ==>
               Print(a[i].value) == Print(b[j].value)
    ensures Covers(a, b) && Covers(b, a)
  {
    MembersMeaning(a);
    MembersMeaning(b);
    var shared := MeaningOf(Obj(a)).members;
    forall i | 0 <= i < |a| ensures Covered(a[i], b) {
      assert Denotes(shared, a[i].key, a[i].value);
      var j :| 0 <= j < |b| && b[j].key == a[i].key;
      assert Denotes(shared, b[j].key, b[j].value);
      assert Matches(a[i], b[j]);
    }
    forall j | 0 <= j < |b| ensures Covered(b[j], a) {
      assert Denotes(shared, b[j].key, b[j].value);
      var i :| 0 <= i < |a| && a[i].key == b[j].key;
      assert Denotes(shared, a[i].key, a[i].value);
      assert Matches(b[j], a[i]);
    }
  }

  /** Two requests print to the same text exactly when they are equal as JSON values, whatever the order of members. */
  lemma PrintInjective(a: Json, b: Json)
    requires Proper(a) && Proper(b)
    ensures Print(a) == Print(b) <==> MeaningOf(a) == MeaningOf(b)
  {
    if Print(a) == Print(b) {
      SameTextSameMeaning(a, b);
    }
    if MeaningOf(a) == MeaningOf(b) {
      SameMeaningSameText(a, b);
    }
  }
}
