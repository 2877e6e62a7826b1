// Two JSON values print the same exactly when they are equal as JSON values.

module JsonEquality {
  import opened JsonText

  // ---------------------------------------------------------------------------------
  // Quoting is prefix-free
  // ---------------------------------------------------------------------------------

  lemma HexDigitInjective(d: int, e: int)
    requires 0 <= d < 16 && 0 <= e < 16 && HexDigit(d) == HexDigit(e)
    ensures d == e
  {
  }

  lemma UnicodeEscapeInjective(c: Unit, d: Unit)
    requires UnicodeEscape(c) == UnicodeEscape(d)
    ensures c == d
  {
    var p, q := UnicodeEscape(c), UnicodeEscape(d);
    assert p[2] == q[2] && p[3] == q[3] && p[4] == q[4] && p[5] == q[5];
    HexDigitInjective(c / 4096, d / 4096);
    HexDigitInjective(c / 256 % 16, d / 256 % 16);
    HexDigitInjective(c / 16 % 16, d / 16 % 16);
    HexDigitInjective(c % 16, d % 16);
    Hex4(c);
    Hex4(d);
  }

  lemma Hex4(c: Unit)
    ensures c == 4096 * (c / 4096) + 256 * (c / 256 % 16) + 16 * (c / 16 % 16) + c % 16
  {
    assert c / 256 == 16 * (c / 4096) + c / 256 % 16;
    assert c / 16 == 16 * (c / 256) + c / 16 % 16;
  }

  predicate Raw(c: Unit) {
    c != QUOTE && c != BACKSLASH && c >= 32 && !High(c) && !Low(c)
  }

  lemma EscapeUnitShape(c: Unit)
    ensures Raw(c) ==> EscapeUnit(c) == [c]
    ensures !Raw(c) ==> |EscapeUnit(c)| >= 2 && EscapeUnit(c)[0] == BACKSLASH
    ensures !Raw(c) ==> (EscapeUnit(c)[1] == 117 <==> EscapeUnit(c) == UnicodeEscape(c))
    ensures !Raw(c) && EscapeUnit(c)[1] != 117 ==> |EscapeUnit(c)| == 2
  {
  }

  lemma ShortEscapeInjective(c: Unit, d: Unit)
    requires !Raw(c) && !Raw(d) && EscapeUnit(c)[1] == EscapeUnit(d)[1] != 117
    ensures c == d
  {
  }

  lemma EscapeUnitInjective(c: Unit, d: Unit, x: Text, y: Text)
    requires EscapeUnit(c) + x == EscapeUnit(d) + y
    ensures c == d && x == y
  {
    EscapeUnitShape(c);
    EscapeUnitShape(d);
    var p, q := EscapeUnit(c), EscapeUnit(d);
    assert (p + x)[0] == p[0] && (q + y)[0] == q[0];
    if !Raw(c) && !Raw(d) {
      assert (p + x)[1] == p[1] && (q + y)[1] == q[1];
      if p[1] == 117 {
        assert p == (p + x)[..6] && q == (q + y)[..6];
        UnicodeEscapeInjective(c, d);
      } else {
        ShortEscapeInjective(c, d);
      }
    }
    assert c == d;
    assert x == (p + x)[|p|..] && y == (q + y)[|q|..];
  }

  /** A quoted string after its opening quote, followed by x. */
  function Closed(s: Text, x: Text): Text {
    Escape(s) + [QUOTE] + x
  }

  lemma ClosedUnfolds(s: Text, x: Text)
    ensures s == [] ==> Closed(s, x) == [QUOTE] + x
    ensures s != [] && PairAhead(s) ==> Closed(s, x) == s[..2] + Closed(s[2..], x)
    ensures s != [] && !PairAhead(s) ==> Closed(s, x) == EscapeUnit(s[0]) + Closed(s[1..], x)
  {
    if s != [] && PairAhead(s) {
      Assoc(s[..2], Escape(s[2..]), [QUOTE] + x);
      Assoc(Escape(s), [QUOTE], x);
      Assoc(Escape(s[2..]), [QUOTE], x);
    } else if s != [] {
      Assoc(EscapeUnit(s[0]), Escape(s[1..]), [QUOTE] + x);
      Assoc(Escape(s), [QUOTE], x);
      Assoc(Escape(s[1..]), [QUOTE], x);
    }
  }

  lemma Assoc(a: Text, b: Text, c: Text)
    ensures (a + b) + c == a + (b + c)
  {
  }

  lemma Chop(a: Text, b: Text, x: Text, y: Text)
    requires |a| == |b| && a + x == b + y
    ensures a == b && x == y
  {
    assert a == (a + x)[..|a|] && b == (b + y)[..|b|];
    assert x == (a + x)[|a|..] && y == (b + y)[|b|..];
  }

  lemma ClosedHead(s: Text, x: Text)
    ensures Closed(s, x) != []
    ensures s == [] ==> Closed(s, x)[0] == QUOTE
    ensures s != [] ==> Closed(s, x)[0] != QUOTE
    ensures s != [] && PairAhead(s) ==> High(Closed(s, x)[0])
    ensures s != [] && !PairAhead(s) ==> !High(Closed(s, x)[0])
  {
    ClosedUnfolds(s, x);
    if s != [] { EscapeUnitShape(s[0]); }
  }

  lemma {:induction false} EscapeInjective(s: Text, t: Text, x: Text, y: Text)
    requires Closed(s, x) == Closed(t, y)
    ensures s == t && x == y
    decreases |s|
  {
    ClosedHead(s, x);
    ClosedHead(t, y);
    ClosedUnfolds(s, x);
    ClosedUnfolds(t, y);
    if s == [] {
      Chop([QUOTE], [QUOTE], x, y);
    } else if PairAhead(s) {
      Chop(s[..2], t[..2], Closed(s[2..], x), Closed(t[2..], y));
      EscapeInjective(s[2..], t[2..], x, y);
      assert s == s[..2] + s[2..] && t == t[..2] + t[2..];
    } else {
      EscapeUnitInjective(s[0], t[0], Closed(s[1..], x), Closed(t[1..], y));
      EscapeInjective(s[1..], t[1..], x, y);
      assert s == [s[0]] + s[1..] && t == [t[0]] + t[1..];
    }
  }

  lemma QuoteInjective(s: Text, t: Text, x: Text, y: Text)
    requires Quote(s) + x == Quote(t) + y
    ensures s == t && x == y
  {
    QuoteThen(s, x);
    QuoteThen(t, y);
    Chop([QUOTE], [QUOTE], Closed(s, x), Closed(t, y));
    EscapeInjective(s, t, x, y);
  }

  lemma QuoteThen(s: Text, x: Text)
    ensures Quote(s) + x == [QUOTE] + Closed(s, x)
  {
  }

  // ---------------------------------------------------------------------------------
  // Printing is prefix-free
  // ---------------------------------------------------------------------------------

  /** A value without undefined or non-finite parts. */
  predicate Clean(v: Value) {
    match v
    case Undefined => false
    case NonFinite => false
    case Num(lexeme) => NumberText(lexeme)
    case Arr(items) => forall i | 0 <= i < |items| :: Clean(items[i])
    case Obj(members) => forall i | 0 <= i < |members| :: Clean(members[i].value)
    case _ => true
  }

  /** What may follow a value: nothing, a comma or a closing bracket. */
  predicate Delimited(x: Text) {
    x == [] || x[0] == COMMA || x[0] == CLOSE_ARRAY || x[0] == CLOSE_OBJECT
  }

  /** The first unit of a printed value tells its kind. */
  predicate Opens(v: Value, c: Unit) {
    match v
    case Null => c == 110
    case Bool(b) => c == if b then 116 else 102
    case Num(_) => Digit(c) || c == 45
    case Str(_) => c == QUOTE
    case Arr(_) => c == OPEN_ARRAY
    case Obj(_) => c == OPEN_OBJECT
    case _ => false
  }

  lemma PrintHead(v: Value)
    requires Clean(v)
    ensures Print(v) != [] && Opens(v, Print(v)[0])
  {
  }

  lemma {:induction false} NumberInjective(s: Text, t: Text, x: Text, y: Text)
    requires (forall c <- s :: NumberUnit(c)) && (forall c <- t :: NumberUnit(c))
    requires Delimited(x) && Delimited(y) && s + x == t + y
    ensures s == t && x == y
    decreases |s|
  {
    NumberHead(s, x);
    NumberHead(t, y);
    if s != [] && t != [] {
      assert (s + x)[1..] == s[1..] + x && (t + y)[1..] == t[1..] + y;
      NumberInjective(s[1..], t[1..], x, y);
      assert s == [s[0]] + s[1..] && t == [t[0]] + t[1..];
    }
  }

  lemma NumberHead(s: Text, x: Text)
    requires forall c <- s :: NumberUnit(c)
    ensures s != [] ==> (s + x)[0] == s[0] && NumberUnit(s[0])
    ensures s == [] ==> s + x == x
  {
    if s != [] { assert s[0] in s; }
  }

  predicate CleanItems(items: seq<Value>) {
    forall i | 0 <= i < |items| :: Clean(items[i])
  }

  predicate CleanMembers(ms: seq<Member>) {
    forall i | 0 <= i < |ms| :: Clean(ms[i].value)
  }

  /** The parts of an array or object, from its first, or from a later, part on, and x. */
  function ItemsThen(items: seq<Value>, x: Text): Text {
    if items == [] then [CLOSE_ARRAY] + x else Print(items[0]) + RestThen(items[1..], x)
  }

  function RestThen(items: seq<Value>, x: Text): Text {
    if items == [] then [CLOSE_ARRAY] + x
    else [COMMA] + (Print(items[0]) + RestThen(items[1..], x))
  }

  function MemberThen(m: Member, x: Text): Text {
    Quote(m.key) + ([COLON] + (Print(m.value) + x))
  }

  function MembersThen(ms: seq<Member>, x: Text): Text {
    if ms == [] then [CLOSE_OBJECT] + x else MemberThen(ms[0], MoreThen(ms[1..], x))
  }

  function MoreThen(ms: seq<Member>, x: Text): Text {
    if ms == [] then [CLOSE_OBJECT] + x
    else [COMMA] + MemberThen(ms[0], MoreThen(ms[1..], x))
  }

  lemma {:induction false} RestIs(items: seq<Value>, x: Text)
    ensures PrintRest(items) + x == RestThen(items, x)
  {
    if items != [] {
      RestIs(items[1..], x);
      Assoc([COMMA] + Print(items[0]), PrintRest(items[1..]), x);
      Assoc([COMMA], Print(items[0]), RestThen(items[1..], x));
    }
  }

  lemma {:induction false} MoreIs(ms: seq<Member>, x: Text)
    ensures PrintMembers(ms) + x == MoreThen(ms, x)
  {
    if ms != [] {
      var m, rest := ms[0], PrintMembers(ms[1..]);
      MoreIs(ms[1..], x);
      MemberIs([COMMA], m, rest, x);
    }
  }

  lemma MemberIs(c: Text, m: Member, rest: Text, x: Text)
    ensures c + Quote(m.key) + [COLON] + Print(m.value) + rest + x == c + MemberThen(m, rest + x)
    ensures Quote(m.key) + [COLON] + Print(m.value) + rest + x == MemberThen(m, rest + x)
  {
    var q, v := Quote(m.key), Print(m.value);
    assert q + [COLON] + v + rest + x == q + ([COLON] + (v + (rest + x)));
    assert c + q + [COLON] + v + rest + x == c + (q + [COLON] + v + rest + x);
  }

  lemma ArrayIs(items: seq<Value>, x: Text)
    ensures Print(Arr(items)) + x == [OPEN_ARRAY] + ItemsThen(items, x)
  {
    if items != [] {
      RestIs(items[1..], x);
      Assoc([OPEN_ARRAY], Print(items[0]) + PrintRest(items[1..]), x);
      Assoc(Print(items[0]), PrintRest(items[1..]), x);
    } else {
      Assoc([OPEN_ARRAY], [CLOSE_ARRAY], x);
    }
  }

  lemma ObjectIs(ms: seq<Member>, x: Text)
    ensures Print(Obj(ms)) + x == [OPEN_OBJECT] + MembersThen(ms, x)
  {
    if ms != [] {
      MoreIs(ms[1..], x);
      MemberIs([], ms[0], PrintMembers(ms[1..]), x);
      Assoc([OPEN_OBJECT],
            Quote(ms[0].key) + [COLON] + Print(ms[0].value) + PrintMembers(ms[1..]), x);
    } else {
      Assoc([OPEN_OBJECT], [CLOSE_OBJECT], x);
    }
  }

  lemma SameKind(a: Value, b: Value, x: Text, y: Text)
    requires Clean(a) && Clean(b) && Print(a) + x == Print(b) + y
    ensures a.Null? <==> b.Null?
    ensures a.Bool? <==> b.Bool?
    ensures a.Bool? ==> a == b
    ensures a.Num? <==> b.Num?
    ensures a.Str? <==> b.Str?
    ensures a.Arr? <==> b.Arr?
    ensures a.Obj? <==> b.Obj?
  {
    PrintHead(a);
    PrintHead(b);
    assert (Print(a) + x)[0] == Print(a)[0] && (Print(b) + y)[0] == Print(b)[0];
  }

  /** Printing is prefix-free: the text of a value, with what follows it, determines both. */
  lemma {:induction false} PrintInjective(a: Value, b: Value, x: Text, y: Text)
    requires Clean(a) && Clean(b) && Delimited(x) && Delimited(y)
    requires Print(a) + x == Print(b) + y
    ensures a == b && x == y
    decreases a, 1
  {
    SameKind(a, b, x, y);
    if a.Null? || a.Bool? {
      Chop(Print(a), Print(b), x, y);
    } else if a.Num? {
      NumberInjective(a.lexeme, b.lexeme, x, y);
    } else if a.Str? {
      QuoteInjective(a.s, b.s, x, y);
    } else if a.Arr? {
      ArrayIs(a.items, x);
      ArrayIs(b.items, y);
      Chop([OPEN_ARRAY], [OPEN_ARRAY], ItemsThen(a.items, x), ItemsThen(b.items, y));
      ItemsInjective(a.items, b.items, x, y);
    } else {
      ObjectIs(a.members, x);
      ObjectIs(b.members, y);
      Chop([OPEN_OBJECT], [OPEN_OBJECT], MembersThen(a.members, x), MembersThen(b.members, y));
      MembersInjective(a.members, b.members, x, y);
    }
  }

  lemma ItemsHead(us: seq<Value>, x: Text)
    requires CleanItems(us)
    ensures ItemsThen(us, x) != [] && (ItemsThen(us, x)[0] == CLOSE_ARRAY <==> us == [])
  {
    if us != [] { PrintHead(us[0]); }
  }

  lemma {:induction false} ItemsInjective(us: seq<Value>, vs: seq<Value>, x: Text, y: Text)
    requires CleanItems(us) && CleanItems(vs)
    requires ItemsThen(us, x) == ItemsThen(vs, y)
    ensures us == vs && x == y
    decreases us, 0
  {
    ItemsHead(us, x);
    ItemsHead(vs, y);
    if us == [] {
      Chop([CLOSE_ARRAY], [CLOSE_ARRAY], x, y);
    } else {
      PrintInjective(us[0], vs[0], RestThen(us[1..], x), RestThen(vs[1..], y));
      RestInjective(us[1..], vs[1..], x, y);
      assert us == [us[0]] + us[1..] && vs == [vs[0]] + vs[1..];
    }
  }

  lemma {:induction false} RestInjective(us: seq<Value>, vs: seq<Value>, x: Text, y: Text)
    requires CleanItems(us) && CleanItems(vs)
    requires RestThen(us, x) == RestThen(vs, y)
    ensures us == vs && x == y
    decreases us, 0
  {
    assert RestThen(us, x)[0] == (if us == [] then CLOSE_ARRAY else COMMA);
    assert RestThen(vs, y)[0] == (if vs == [] then CLOSE_ARRAY else COMMA);
    if us == [] {
      Chop([CLOSE_ARRAY], [CLOSE_ARRAY], x, y);
    } else {
      var x', y' := RestThen(us[1..], x), RestThen(vs[1..], y);
      Chop([COMMA], [COMMA], Print(us[0]) + x', Print(vs[0]) + y');
      PrintInjective(us[0], vs[0], x', y');
      RestInjective(us[1..], vs[1..], x, y);
      assert us == [us[0]] + us[1..] && vs == [vs[0]] + vs[1..];
    }
  }

  /** One member: its key, then its value. */
  lemma MemberInjective(m: Member, n: Member, x: Text, y: Text)
    requires Clean(m.value) && Clean(n.value) && Delimited(x) && Delimited(y)
    requires MemberThen(m, x) == MemberThen(n, y)
    ensures m == n && x == y
    decreases m, 2
  {
    QuoteInjective(m.key, n.key, [COLON] + (Print(m.value) + x), [COLON] + (Print(n.value) + y));
    Chop([COLON], [COLON], Print(m.value) + x, Print(n.value) + y);
    PrintInjective(m.value, n.value, x, y);
  }

  lemma {:induction false} MembersInjective(ms: seq<Member>, ns: seq<Member>, x: Text, y: Text)
    requires CleanMembers(ms) && CleanMembers(ns)
    requires MembersThen(ms, x) == MembersThen(ns, y)
    ensures ms == ns && x == y
    decreases ms, 0
  {
    assert MembersThen(ms, x)[0] == (if ms == [] then CLOSE_OBJECT else QUOTE);
    assert MembersThen(ns, y)[0] == (if ns == [] then CLOSE_OBJECT else QUOTE);
    if ms == [] {
      Chop([CLOSE_OBJECT], [CLOSE_OBJECT], x, y);
    } else {
      MemberInjective(ms[0], ns[0], MoreThen(ms[1..], x), MoreThen(ns[1..], y));
      MoreInjective(ms[1..], ns[1..], x, y);
      assert ms == [ms[0]] + ms[1..] && ns == [ns[0]] + ns[1..];
    }
  }

  lemma {:induction false} MoreInjective(ms: seq<Member>, ns: seq<Member>, x: Text, y: Text)
    requires CleanMembers(ms) && CleanMembers(ns)
    requires MoreThen(ms, x) == MoreThen(ns, y)
    ensures ms == ns && x == y
    decreases ms, 0
  {
    assert MoreThen(ms, x)[0] == (if ms == [] then CLOSE_OBJECT else COMMA);
    assert MoreThen(ns, y)[0] == (if ns == [] then CLOSE_OBJECT else COMMA);
    if ms == [] {
      Chop([CLOSE_OBJECT], [CLOSE_OBJECT], x, y);
    } else {
      var x', y' := MoreThen(ms[1..], x), MoreThen(ns[1..], y);
      Chop([COMMA], [COMMA], MemberThen(ms[0], x'), MemberThen(ns[0], y'));
      MemberInjective(ms[0], ns[0], x', y');
      MoreInjective(ms[1..], ns[1..], x, y);
      assert ms == [ms[0]] + ms[1..] && ns == [ns[0]] + ns[1..];
    }
  }

  // ---------------------------------------------------------------------------------
  // Sorted keys depend on the set of keys only
  // ---------------------------------------------------------------------------------

  lemma {:induction false} LessIsTotal(a: Text, b: Text)
    ensures Less(a, b) || Less(b, a) || a == b
    ensures !(Less(a, b) && Less(b, a)) && !Less(a, a)
    decreases |a|
  {
    if a != [] {
      LessIsTotal(a[1..], a[1..]);
      if b != [] {
        LessIsTotal(a[1..], b[1..]);
        assert a == [a[0]] + a[1..] && b == [b[0]] + b[1..];
      }
    }
  }

  lemma {:induction false} LessIsTransitive(a: Text, b: Text, c: Text)
    requires Less(a, b) && Less(b, c)
    ensures Less(a, c)
    decreases |a|
  {
    if a != [] && a[0] == b[0] == c[0] { LessIsTransitive(a[1..], b[1..], c[1..]); }
  }

  predicate Ascending(ks: seq<Text>) {
    forall i, j :: 0 <= i < j < |ks| ==> Less(ks[i], ks[j])
  }

  predicate Unique(ks: seq<Text>) {
    forall i, j :: 0 <= i < j < |ks| ==> ks[i] != ks[j]
  }

  lemma {:induction false} InsertAscends(k: Text, ks: seq<Text>)
    requires Ascending(ks) && k !in ks
    ensures Ascending(Insert(k, ks))
  {
    if ks != [] {
      LessIsTotal(ks[0], k);
      if Less(ks[0], k) {
        InsertAscends(k, ks[1..]);
        InsertKeepsElements(k, ks[1..]);
        var r := Insert(k, ks[1..]);
        forall i | 0 <= i < |r| ensures Less(ks[0], r[i]) {
          assert r[i] in multiset(r);
          assert r[i] == k || r[i] in ks[1..];
        }
      } else {
        forall i | 0 <= i < |ks| ensures Less(k, ks[i]) {
          if i > 0 { LessIsTransitive(k, ks[0], ks[i]); }
        }
      }
    }
  }

  lemma {:induction false} SortAscends(ks: seq<Text>)
    requires Unique(ks)
    ensures Ascending(Sort(ks))
  {
    if ks != [] {
      SortAscends(ks[1..]);
      SortKeepsElements(ks[1..]);
      assert ks[0] !in ks[1..];
      InsertAscends(ks[0], Sort(ks[1..]));
    }
  }

  lemma {:induction false} AscendingIsUnique(ps: seq<Text>, qs: seq<Text>)
    requires Ascending(ps) && Ascending(qs)
    requires forall k :: k in ps <==> k in qs
    ensures ps == qs
    decreases |ps|
  {
    assert ps != [] ==> ps[0] in ps;
    assert qs != [] ==> qs[0] in qs;
    if ps != [] {
      assert ps[0] in qs && qs[0] in ps;
      LessIsTotal(ps[0], qs[0]);
      assert ps[0] == qs[0];
      forall k ensures k in ps[1..] <==> k in qs[1..] {
        LessIsTotal(ps[0], ps[0]);
        assert k in ps[1..] ==> k in ps && k != ps[0];
        assert k in qs[1..] ==> k in qs && k != qs[0];
      }
      AscendingIsUnique(ps[1..], qs[1..]);
      assert ps == [ps[0]] + ps[1..] && qs == [qs[0]] + qs[1..];
    }
  }

  lemma {:induction false} KeepUnique(style: Style, ks: seq<Text>)
    requires Unique(ks)
    ensures Unique(Keep(style, ks))
  {
    if ks != [] {
      KeepUnique(style, ks[1..]);
      assert ks[0] !in ks[1..];
    }
  }

  /** The printed order of the keys is a function of the set of the keys that are kept. */
  lemma ArrangeDependsOnSet(style: Style, ks: seq<Text>, ls: seq<Text>)
    requires Unique(ks) && Unique(ls)
    requires forall k :: Kept(style, k) ==> (k in ks <==> k in ls)
    ensures Arrange(style, ks) == Arrange(style, ls)
  {
    var p, q := Keep(style, ks), Keep(style, ls);
    KeepUnique(style, ks);
    KeepUnique(style, ls);
    SortAscends(p);
    SortAscends(q);
    SortKeepsElements(p);
    SortKeepsElements(q);
    AscendingIsUnique(Sort(p), Sort(q));
  }

  // ---------------------------------------------------------------------------------
  // Equal normal forms are equal JSON values
  // ---------------------------------------------------------------------------------

  lemma {:induction false} NormalItemsAt(style: Style, items: seq<Value>)
    ensures |NormalItems(style, items)| == |items|
    ensures forall i | 0 <= i < |items| :: NormalItems(style, items)[i] == Normal(style, items[i])
  {
    if items != [] { NormalItemsAt(style, items[1..]); }
  }

  lemma {:induction false} NormalMembersAt(style: Style, ms: seq<Member>, keys: seq<Text>)
    requires forall k <- keys :: k in Keys(ms)
    ensures |NormalMembers(style, ms, keys)| == |keys|
    ensures forall i | 0 <= i < |keys| ::
              NormalMembers(style, ms, keys)[i] ==
              Member(keys[i], Normal(style, ms[Index(ms, keys[i])].value))
    decreases |keys|
  {
    if keys != [] { NormalMembersAt(style, ms, keys[1..]); }
  }

  lemma NormalEqualMeansSame(style: Style, a: Value, b: Value)
    requires IsJson(a) && IsJson(b)
    requires Normal(style, a) == Normal(style, b)
    ensures Same(style, a, b)
    decreases a, 1
  {
    if a.Arr? && b.Arr? {
      NormalItemsAt(style, a.items);
      NormalItemsAt(style, b.items);
      forall i | 0 <= i < |a.items| ensures Same(style, a.items[i], b.items[i]) {
        NormalEqualMeansSame(style, a.items[i], b.items[i]);
      }
    } else if a.Obj? && b.Obj? {
      NormalEqualMembers(style, a.members, b.members);
    }
  }

  /** Where two objects have the same normal form, a kept key is in both, with values of
      the same normal form. */
  lemma CommonKey(style: Style, ms: seq<Member>, ns: seq<Member>, k: Text)
    requires NormalMembers(style, ms, Arrange(style, Keys(ms)))
             == NormalMembers(style, ns, Arrange(style, Keys(ns)))
    requires Kept(style, k) && (k in Keys(ms) || k in Keys(ns))
    ensures k in Keys(ms) && k in Keys(ns)
    ensures Normal(style, ms[Index(ms, k)].value) == Normal(style, ns[Index(ns, k)].value)
  {
    var ks, ls := Arrange(style, Keys(ms)), Arrange(style, Keys(ns));
    NormalMembersAt(style, ms, ks);
    NormalMembersAt(style, ns, ls);
    assert forall i | 0 <= i < |ks| :: ks[i] == NormalMembers(style, ms, ks)[i].key == ls[i];
    assert ks == ls;
    var i :| 0 <= i < |ks| && ks[i] == k;
    assert NormalMembers(style, ms, ks)[i] == NormalMembers(style, ns, ls)[i];
  }

  lemma NormalEqualMembers(style: Style, ms: seq<Member>, ns: seq<Member>)
    requires IsJson(Obj(ms)) && IsJson(Obj(ns))
    requires Normal(style, Obj(ms)) == Normal(style, Obj(ns))
    ensures Same(style, Obj(ms), Obj(ns))
    decreases ms, 0
  {
    forall k | k in Keys(ns) && Kept(style, k) ensures k in Keys(ms) {
      CommonKey(style, ms, ns, k);
    }
    forall k | k in Keys(ms) && Kept(style, k)
      ensures k in Keys(ns) && Same(style, ms[Index(ms, k)].value, ns[Index(ns, k)].value)
    {
      CommonKey(style, ms, ns, k);
      NormalEqualMeansSame(style, ms[Index(ms, k)].value, ns[Index(ns, k)].value);
    }
  }

  lemma SameMeansNormalEqual(style: Style, a: Value, b: Value)
    requires IsJson(a) && IsJson(b) && Same(style, a, b)
    ensures Normal(style, a) == Normal(style, b)
    decreases a, 1
  {
    if a.Arr? {
      NormalItemsAt(style, a.items);
      NormalItemsAt(style, b.items);
      forall i | 0 <= i < |a.items| ensures Normal(style, a.items[i]) == Normal(style, b.items[i]) {
        SameMeansNormalEqual(style, a.items[i], b.items[i]);
      }
      assert NormalItems(style, a.items) == NormalItems(style, b.items);
    } else if a.Obj? {
      SameMembersNormalEqual(style, a.members, b.members);
    }
  }

  lemma SameMembersNormalEqual(style: Style, ms: seq<Member>, ns: seq<Member>)
    requires IsJson(Obj(ms)) && IsJson(Obj(ns)) && Same(style, Obj(ms), Obj(ns))
    ensures Normal(style, Obj(ms)) == Normal(style, Obj(ns))
    decreases ms, 0
  {
    UniqueKeys(ms);
    UniqueKeys(ns);
    ArrangeDependsOnSet(style, Keys(ms), Keys(ns));
    var ks := Arrange(style, Keys(ms));
    forall k | k in ks
      ensures Normal(style, ms[Index(ms, k)].value) == Normal(style, ns[Index(ns, k)].value)
    {
      SameMeansNormalEqual(style, ms[Index(ms, k)].value, ns[Index(ns, k)].value);
    }
    NormalMembersEqual(style, ms, ns, ks);
  }

  lemma UniqueKeys(ms: seq<Member>)
    requires DistinctKeys(ms)
    ensures Unique(Keys(ms))
  {
  }

  lemma {:induction false} NormalMembersEqual(style: Style, ms: seq<Member>, ns: seq<Member>, ks: seq<Text>)
    requires forall k <- ks :: k in Keys(ms) && k in Keys(ns)
    requires forall k <- ks ::
      Normal(style, ms[Index(ms, k)].value) == Normal(style, ns[Index(ns, k)].value)
    ensures NormalMembers(style, ms, ks) == NormalMembers(style, ns, ks)
  {
    if ks != [] { NormalMembersEqual(style, ms, ns, ks[1..]); }
  }

  lemma NormalIsClean(style: Style, v: Value)
    requires IsJson(v)
    ensures Clean(Normal(style, v))
    decreases v
  {
    if v.Arr? {
      NormalItemsAt(style, v.items);
      forall i | 0 <= i < |v.items| ensures Clean(Normal(style, v.items[i])) {
        NormalIsClean(style, v.items[i]);
      }
    } else if v.Obj? {
      var ks := Arrange(style, Keys(v.members));
      NormalMembersAt(style, v.members, ks);
      forall p | 0 <= p < |ks|
        ensures Clean(NormalMembers(style, v.members, ks)[p].value)
      {
        assert ks[p] in ks;
        NormalIsClean(style, v.members[Index(v.members, ks[p])].value);
      }
    }
  }

  lemma PrintedEqualIffSame(style: Style, a: Value, b: Value)
    requires IsJson(a) && IsJson(b)
    ensures Print(Normal(style, a)) == Print(Normal(style, b)) <==> Same(style, a, b)
  {
    NormalIsClean(style, a);
    NormalIsClean(style, b);
    if Print(Normal(style, a)) == Print(Normal(style, b)) {
      PrintInjective(Normal(style, a), Normal(style, b), [], []);
      NormalEqualMeansSame(style, a, b);
    }
    if Same(style, a, b) { SameMeansNormalEqual(style, a, b); }
  }

  // ---------------------------------------------------------------------------------
  // stableSerialize prints the normal form
  // ---------------------------------------------------------------------------------

  lemma {:induction false} JoinStep(part: Text, parts: seq<Text>)
    ensures Join([part] + parts) == if parts == [] then part else part + [COMMA] + Join(parts)
  {
    assert ([part] + parts)[1..] == parts;
  }

  lemma StableIsPrint(v: Value)
    requires IsJson(v)
    ensures StableSerialize(v) == Print(Normal(Stable, v))
    decreases v, 2
  {
    if v.Arr? {
      StableArray(v.items);
    } else if v.Obj? {
      SortKeepsElements(Keys(v.members));
      KeepAll(Keys(v.members));
      StableObject(v.members, Sort(Keys(v.members)));
    }
  }

  lemma {:induction false} KeepAll(ks: seq<Text>)
    ensures Keep(Stable, ks) == ks
  {
    if ks != [] { KeepAll(ks[1..]); }
  }

  lemma {:induction false} StableArray(items: seq<Value>)
    requires forall i | 0 <= i < |items| :: IsJson(items[i])
    ensures Join(StableItems(items)) + [CLOSE_ARRAY] ==
            (var ns := NormalItems(Stable, items);
             if ns == [] then [CLOSE_ARRAY] else Print(ns[0]) + PrintRest(ns[1..]))
    decreases items, 0
  {
    if items != [] {
      StableIsPrint(items[0]);
      StableArray(items[1..]);
      JoinStep(StableSerialize(items[0]), StableItems(items[1..]));
      var ns := NormalItems(Stable, items[1..]);
      NormalItemsAt(Stable, items[1..]);
      assert NormalItems(Stable, items)[1..] == ns;
      if ns != [] {
        Assoc(Print(Normal(Stable, items[0])) + [COMMA], Join(StableItems(items[1..])), [CLOSE_ARRAY]);
        Assoc(Print(Normal(Stable, items[0])), [COMMA], Print(ns[0]) + PrintRest(ns[1..]));
        Assoc([COMMA], Print(ns[0]), PrintRest(ns[1..]));
      }
    }
  }

  lemma {:induction false} StableObject(ms: seq<Member>, keys: seq<Text>)
    requires forall k <- keys :: k in Keys(ms)
    requires forall i | 0 <= i < |ms| :: IsJson(ms[i].value)
    ensures Join(StableMembers(ms, keys)) + [CLOSE_OBJECT] ==
            (var ns := NormalMembers(Stable, ms, keys);
             if ns == [] then [CLOSE_OBJECT] else PrintFirst(ns[0]) + PrintMembers(ns[1..]))
    decreases ms, |keys|
  {
    if keys != [] {
      var v := ms[Index(ms, keys[0])].value;
      StableIsPrint(v);
      StableObject(ms, keys[1..]);
      var first := Quote(keys[0]) + [COLON] + StableSerialize(v);
      JoinStep(first, StableMembers(ms, keys[1..]));
      var ns := NormalMembers(Stable, ms, keys[1..]);
      NormalMembersAt(Stable, ms, keys[1..]);
      assert NormalMembers(Stable, ms, keys)[1..] == ns;
      if ns != [] {
        Assoc(first + [COMMA], Join(StableMembers(ms, keys[1..])), [CLOSE_OBJECT]);
        Assoc(first, [COMMA], PrintFirst(ns[0]) + PrintMembers(ns[1..]));
        MoreMembers(ns);
      }
    }
  }

  function PrintFirst(m: Member): Text {
    Quote(m.key) + [COLON] + Print(m.value)
  }

  lemma MoreMembers(ns: seq<Member>)
    requires ns != []
    ensures PrintMembers(ns) == [COMMA] + (PrintFirst(ns[0]) + PrintMembers(ns[1..]))
  {
    var q, v, r := Quote(ns[0].key), Print(ns[0].value), PrintMembers(ns[1..]);
    assert [COMMA] + q + [COLON] + v + r == [COMMA] + ((q + [COLON] + v) + r);
  }

  // ---------------------------------------------------------------------------------
  // Main results
  // ---------------------------------------------------------------------------------

  /** On JSON values, `stableSerialize` gives equal texts exactly to equal values. */
  lemma StableTextsAreEqualIffSame(a: Value, b: Value)
    requires IsJson(a) && IsJson(b)
    ensures StableSerialize(a) == StableSerialize(b) <==> Same(Stable, a, b)
  {
    StableIsPrint(a);
    StableIsPrint(b);
    PrintedEqualIffSame(Stable, a, b);
  }

  /** Outside JSON it does not: a non-finite number prints as null, and an undefined array
      element as nothing at all. */
  lemma StableTextsCollideOutsideJson()
    ensures StableSerialize(NonFinite) == StableSerialize(Null) && !Same(Stable, NonFinite, Null)
    ensures StableSerialize(Arr([Undefined])) == StableSerialize(Arr([]))
            && !Same(Stable, Arr([Undefined]), Arr([]))
  {
    assert StableItems([Undefined]) == [[]];
    assert [OPEN_ARRAY] + Join(StableItems([Undefined])) + [CLOSE_ARRAY] == [OPEN_ARRAY] + Join([]) + [CLOSE_ARRAY];
  }

  /** Two JSON payloads have the same fingerprint text exactly when they are equal up to the
      order of members and up to members named `__proto__`. */
  lemma FingerprintsAreEqualIffSame(a: Value, b: Value)
    requires IsJson(a) && IsJson(b)
    ensures FingerprintText(a) == FingerprintText(b) <==> Same(Canonical, a, b)
  {
    PrintedEqualIffSame(Canonical, a, b);
  }

  /** No object inside v has a member named `__proto__`. */
  predicate Plain(v: Value) {
    match v
    case Arr(items) => forall i | 0 <= i < |items| :: Plain(items[i])
    case Obj(members) =>
      forall i | 0 <= i < |members| :: members[i].key != PROTO && Plain(members[i].value)
    case _ => true
  }

  /** On payloads without such members the fingerprint text is exactly JSON equality. */
  lemma PlainFingerprintsAreExact(a: Value, b: Value)
    requires IsJson(a) && IsJson(b) && Plain(a) && Plain(b)
    ensures FingerprintText(a) == FingerprintText(b) <==> Same(Stable, a, b)
  {
    FingerprintsAreEqualIffSame(a, b);
    PlainSame(a, b);
  }

  lemma PlainSame(a: Value, b: Value)
    requires Plain(a) && Plain(b)
    ensures Same(Canonical, a, b) <==> Same(Stable, a, b)
    decreases a
  {
    if a.Arr? && b.Arr? && |a.items| == |b.items| {
      forall i | 0 <= i < |a.items|
        ensures Same(Canonical, a.items[i], b.items[i]) <==> Same(Stable, a.items[i], b.items[i])
      {
        PlainSame(a.items[i], b.items[i]);
      }
    } else if a.Obj? && b.Obj? {
      PlainSameMembers(a.members, b.members);
    }
  }

  lemma PlainSameMembers(ms: seq<Member>, ns: seq<Member>)
    requires Plain(Obj(ms)) && Plain(Obj(ns))
    ensures Same(Canonical, Obj(ms), Obj(ns)) <==> Same(Stable, Obj(ms), Obj(ns))
    decreases ms
  {
    assert forall k <- Keys(ms) + Keys(ns) :: Kept(Canonical, k);
    forall k | k in Keys(ms) && k in Keys(ns)
      ensures Same(Canonical, ms[Index(ms, k)].value, ns[Index(ns, k)].value)
              <==> Same(Stable, ms[Index(ms, k)].value, ns[Index(ns, k)].value)
    {
      PlainSame(ms[Index(ms, k)].value, ns[Index(ns, k)].value);
    }
  }

  /** With such a member it is not: the member leaves no trace in the fingerprint. */
  lemma ProtoMemberIsNotFingerprinted(v: Value)
    requires IsJson(v)
    ensures FingerprintText(Obj([Member(PROTO, v)])) == FingerprintText(Obj([]))
    ensures !Same(Stable, Obj([Member(PROTO, v)]), Obj([]))
  {
    FingerprintsAreEqualIffSame(Obj([Member(PROTO, v)]), Obj([]));
    var ms := [Member(PROTO, v)];
    assert Keys(ms)[0] == PROTO;
  }
}
