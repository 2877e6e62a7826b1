// The two texts by which the backend compares JSON values: `stableSerialize`, for
// continuation cursors, and the canonical text whose digest fingerprints a search
// payload. Strings are sequences of UTF-16 code units, objects are sequences of members
// in insertion order, and a number is carried as the text that prints it.

module JsonText {
  type Unit = x: int | 0 <= x < 0x10000
  type Text = seq<Unit>

  datatype Value =
    | Null
    | Undefined
    | Bool(b: bool)
    | Num(lexeme: Text)
    | NonFinite
    | Str(s: Text)
    | Arr(items: seq<Value>)
    | Obj(members: seq<Member>)

  datatype Member = Member(key: Text, value: Value)

  const QUOTE: Unit := 34
  const COMMA: Unit := 44
  const COLON: Unit := 58
  const OPEN_ARRAY: Unit := 91
  const BACKSLASH: Unit := 92
  const CLOSE_ARRAY: Unit := 93
  const OPEN_OBJECT: Unit := 123
  const CLOSE_OBJECT: Unit := 125
  const NULL_TEXT: Text := [110, 117, 108, 108]
  const TRUE_TEXT: Text := [116, 114, 117, 101]
  const FALSE_TEXT: Text := [102, 97, 108, 115, 101]
  const UNDEFINED_TEXT: Text := [117, 110, 100, 101, 102, 105, 110, 101, 100]
  const PROTO: Text := [95, 95, 112, 114, 111, 116, 111, 95, 95]   // __proto__

  predicate Digit(c: Unit) {
    48 <= c <= 57
  }

  /** Digits, `.`, `e`, `+` and `-`: all that the text of a finite number contains. */
  predicate NumberUnit(c: Unit) {
    Digit(c) || c == 43 || c == 45 || c == 46 || c == 101
  }

  predicate NumberText(t: Text) {
    t != [] && (Digit(t[0]) || t[0] == 45) && forall c <- t :: NumberUnit(c)
  }

  predicate DistinctKeys(ms: seq<Member>) {
    forall i, j :: 0 <= i < j < |ms| ==> ms[i].key != ms[j].key
  }

  /** JSON proper: finite numbers, no undefined, each key of an object once. */
  predicate IsJson(v: Value) {
    match v
    case Null => true
    case Undefined => false
    case Bool(_) => true
    case Num(lexeme) => NumberText(lexeme)
    case NonFinite => false
    case Str(_) => true
    case Arr(items) => forall i | 0 <= i < |items| :: IsJson(items[i])
    case Obj(members) => DistinctKeys(members) && forall i | 0 <= i < |members| :: IsJson(members[i].value)
  }

  // ---------------------------------------------------------------------------------
  // Quoting of strings (section 7 of RFC 8259)
  // ---------------------------------------------------------------------------------

  predicate High(c: Unit) { 0xD800 <= c <= 0xDBFF }
  predicate Low(c: Unit) { 0xDC00 <= c <= 0xDFFF }

  function HexDigit(d: int): Unit
    requires 0 <= d < 16
  {
    if d < 10 then 48 + d else 87 + d
  }

  function UnicodeEscape(c: Unit): Text {
    [BACKSLASH, 117, HexDigit(c / 4096), HexDigit(c / 256 % 16), HexDigit(c / 16 % 16), HexDigit(c % 16)]
  }

  /** The escape of one code unit that is not half of a surrogate pair. */
  function EscapeUnit(c: Unit): Text {
    if c == QUOTE then [BACKSLASH, QUOTE]
    else if c == BACKSLASH then [BACKSLASH, BACKSLASH]
    else if c == 8 then [BACKSLASH, 98]
    else if c == 12 then [BACKSLASH, 102]
    else if c == 10 then [BACKSLASH, 110]
    else if c == 13 then [BACKSLASH, 114]
    else if c == 9 then [BACKSLASH, 116]
    else if c < 32 || High(c) || Low(c) then UnicodeEscape(c)
    else [c]
  }

  predicate PairAhead(s: Text) {
    |s| >= 2 && High(s[0]) && Low(s[1])
  }

  function Escape(s: Text): Text {
    if s == [] then []
    else if PairAhead(s) then s[..2] + Escape(s[2..])
    else EscapeUnit(s[0]) + Escape(s[1..])
  }

  function Quote(s: Text): Text {
    [QUOTE] + Escape(s) + [QUOTE]
  }

  // ---------------------------------------------------------------------------------
  // Order of keys
  // ---------------------------------------------------------------------------------

  /** Comparison of strings by code units. */
  predicate Less(a: Text, b: Text) {
    b != [] && (a == [] || a[0] < b[0] || (a[0] == b[0] && Less(a[1..], b[1..])))
  }

  function Insert(k: Text, ks: seq<Text>): seq<Text> {
    if ks == [] || !Less(ks[0], k) then [k] + ks else [ks[0]] + Insert(k, ks[1..])
  }

  function Sort(ks: seq<Text>): seq<Text> {
    if ks == [] then [] else Insert(ks[0], Sort(ks[1..]))
  }

  // ---------------------------------------------------------------------------------
  // Members by key
  // ---------------------------------------------------------------------------------

  function Keys(ms: seq<Member>): (ks: seq<Text>)
    ensures |ks| == |ms| && forall i :: 0 <= i < |ms| ==> ks[i] == ms[i].key
  {
    seq(|ms|, i requires 0 <= i < |ms| => ms[i].key)
  }

  /** The place of the member with key k. */
  function Index(ms: seq<Member>, k: Text): (i: nat)
    requires k in Keys(ms)
    ensures i < |ms| && ms[i].key == k
  {
    if ms[0].key == k then 0
    else
      assert Keys(ms) == [ms[0].key] + Keys(ms[1..]);
      1 + Index(ms[1..], k)
  }

  // ---------------------------------------------------------------------------------
  // stableSerialize
  // ---------------------------------------------------------------------------------

  function Join(parts: seq<Text>): Text {
    if parts == [] then []
    else if |parts| == 1 then parts[0]
    else parts[0] + [COMMA] + Join(parts[1..])
  }

  function StableSerialize(v: Value): Text
    decreases v, 0
  {
    match v
    case Null => NULL_TEXT
    case Undefined => UNDEFINED_TEXT
    case Bool(b) => if b then TRUE_TEXT else FALSE_TEXT
    case Num(lexeme) => lexeme
    case NonFinite => NULL_TEXT
    case Str(s) => Quote(s)
    case Arr(items) => [OPEN_ARRAY] + Join(StableItems(items)) + [CLOSE_ARRAY]
    case Obj(members) =>
      SortKeepsElements(Keys(members));
      [OPEN_OBJECT] + Join(StableMembers(members, Sort(Keys(members)))) + [CLOSE_OBJECT]
  }

  /** Joining an array prints an undefined element as nothing. */
  function StableItems(items: seq<Value>): (r: seq<Text>)
    ensures |r| == |items|
    decreases items, 0
  {
    if items == [] then []
    else [if items[0].Undefined? then [] else StableSerialize(items[0])] + StableItems(items[1..])
  }

  function StableMembers(ms: seq<Member>, keys: seq<Text>): (r: seq<Text>)
    requires forall k <- keys :: k in Keys(ms)
    ensures |r| == |keys|
    decreases ms, |keys|
  {
    if keys == [] then []
    else [Quote(keys[0]) + [COLON] + StableSerialize(ms[Index(ms, keys[0])].value)]
         + StableMembers(ms, keys[1..])
  }

  lemma SortKeepsElements(ks: seq<Text>)
    ensures multiset(Sort(ks)) == multiset(ks)
    ensures forall k :: k in Sort(ks) <==> k in ks
  {
    if ks != [] {
      SortKeepsElements(ks[1..]);
      InsertKeepsElements(ks[0], Sort(ks[1..]));
      assert ks == [ks[0]] + ks[1..];
    }
    assert forall k :: k in Sort(ks) <==> k in multiset(Sort(ks));
  }

  lemma InsertKeepsElements(k: Text, ks: seq<Text>)
    ensures multiset(Insert(k, ks)) == multiset(ks) + multiset{k}
  {
    if !(ks == [] || !Less(ks[0], k)) {
      InsertKeepsElements(k, ks[1..]);
      assert ks == [ks[0]] + ks[1..];
    }
  }

  // ---------------------------------------------------------------------------------
  // The canonical payload text
  // ---------------------------------------------------------------------------------

  /** The two orders in which members are printed: by key, or as the canonical object that
      was filled by key lists its own properties. */
  datatype Style = Stable | Canonical

  function IndexValue(k: Text): nat
    requires forall c <- k :: Digit(c)
  {
    if k == [] then 0
    else
      assert Digit(k[|k| - 1]);
      10 * IndexValue(k[..|k| - 1]) + (k[|k| - 1] as int - 48)
  }

  /** A key that names an array index. */
  predicate IndexKey(k: Text) {
    && k != [] && (forall c <- k :: Digit(c)) && (k[0] != 48 || |k| == 1)
    && IndexValue(k) < 0xFFFF_FFFF
  }

  function InsertIndex(k: Text, ks: seq<Text>): seq<Text>
    requires IndexKey(k) && forall x <- ks :: IndexKey(x)
  {
    if ks == [] || (assert IndexKey(ks[0]); IndexValue(k) <= IndexValue(ks[0])) then [k] + ks
    else [ks[0]] + InsertIndex(k, ks[1..])
  }

  /** Index keys in ascending numeric order. */
  function Indices(ks: seq<Text>): (r: seq<Text>)
    ensures forall x :: x in r <==> x in ks && IndexKey(x)
  {
    if ks == [] then []
    else if IndexKey(ks[0]) then
      InsertIndexElements(ks[0], Indices(ks[1..]));
      InsertIndex(ks[0], Indices(ks[1..]))
    else Indices(ks[1..])
  }

  lemma InsertIndexElements(k: Text, ks: seq<Text>)
    requires IndexKey(k) && forall x <- ks :: IndexKey(x)
    ensures forall x :: x in InsertIndex(k, ks) <==> x == k || x in ks
  {
  }

  function Names(ks: seq<Text>): (r: seq<Text>)
    ensures forall x :: x in r <==> x in ks && !IndexKey(x)
  {
    if ks == [] then []
    else if IndexKey(ks[0]) then Names(ks[1..])
    else [ks[0]] + Names(ks[1..])
  }

  /** Assigning the property `__proto__` of a plain object makes no own property of it. */
  predicate Kept(style: Style, k: Text) {
    style.Stable? || k != PROTO
  }

  function Keep(style: Style, ks: seq<Text>): (r: seq<Text>)
    ensures forall k :: k in r <==> k in ks && Kept(style, k)
    ensures |r| <= |ks|
  {
    if ks == [] then []
    else if Kept(style, ks[0]) then [ks[0]] + Keep(style, ks[1..])
    else Keep(style, ks[1..])
  }

  /** The keys in the order in which they are printed. */
  function Arrange(style: Style, ks: seq<Text>): (r: seq<Text>)
    ensures forall k :: k in r <==> k in ks && Kept(style, k)
  {
    SortKeepsElements(Keep(style, ks));
    var sorted := Sort(Keep(style, ks));
    match style
    case Stable => sorted
    case Canonical => Indices(sorted) + Names(sorted)
  }

  /** The value with its members arranged throughout; in the canonical style this is what
      `canonicalizeJsonValue` returns for a JSON value. */
  function Normal(style: Style, v: Value): Value
    decreases v, 0
  {
    match v
    case Arr(items) => Arr(NormalItems(style, items))
    case Obj(members) => Obj(NormalMembers(style, members, Arrange(style, Keys(members))))
    case _ => v
  }

  function NormalItems(style: Style, items: seq<Value>): (r: seq<Value>)
    decreases items, 0
  {
    if items == [] then [] else [Normal(style, items[0])] + NormalItems(style, items[1..])
  }

  function NormalMembers(style: Style, ms: seq<Member>, keys: seq<Text>): (r: seq<Member>)
    requires forall k <- keys :: k in Keys(ms)
    decreases ms, |keys|
  {
    if keys == [] then []
    else [Member(keys[0], Normal(style, ms[Index(ms, keys[0])].value))]
         + NormalMembers(style, ms, keys[1..])
  }

  /** Printing a JSON value with its members in the order given. */
  function Print(v: Value): Text {
    match v
    case Null => NULL_TEXT
    case Undefined => []
    case Bool(b) => if b then TRUE_TEXT else FALSE_TEXT
    case Num(lexeme) => lexeme
    case NonFinite => NULL_TEXT
    case Str(s) => Quote(s)
    case Arr(items) =>
      [OPEN_ARRAY] +
      (if items == [] then [CLOSE_ARRAY] else Print(items[0]) + PrintRest(items[1..]))
    case Obj(members) =>
      [OPEN_OBJECT] +
      (if members == [] then [CLOSE_OBJECT]
       else Quote(members[0].key) + [COLON] + Print(members[0].value) + PrintMembers(members[1..]))
  }

  function PrintRest(items: seq<Value>): Text {
    if items == [] then [CLOSE_ARRAY] else [COMMA] + Print(items[0]) + PrintRest(items[1..])
  }

  function PrintMembers(members: seq<Member>): Text {
    if members == [] then [CLOSE_OBJECT]
    else [COMMA] + Quote(members[0].key) + [COLON] + Print(members[0].value) + PrintMembers(members[1..])
  }

  /** The text that is digested into the fingerprint of a JSON payload. */
  function FingerprintText(v: Value): Text {
    Print(Normal(Canonical, v))
  }

  // ---------------------------------------------------------------------------------
  // Equality of JSON values (section 4 of RFC 8259: objects are unordered)
  // ---------------------------------------------------------------------------------

  /** Equality that ignores the order of members and, per style, the members not kept. */
  predicate Same(style: Style, a: Value, b: Value) {
    match (a, b)
    case (Arr(xs), Arr(ys)) => |xs| == |ys| && forall i | 0 <= i < |xs| :: Same(style, xs[i], ys[i])
    case (Obj(ms), Obj(ns)) =>
      && (forall k <- Keys(ns) :: Kept(style, k) ==> k in Keys(ms))
      && (forall k <- Keys(ms) :: Kept(style, k) ==>
            k in Keys(ns) && Same(style, ms[Index(ms, k)].value, ns[Index(ns, k)].value))
    case _ => a == b && !a.Arr? && !a.Obj?
  }
}
