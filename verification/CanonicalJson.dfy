/**
 Canonical serialisation of webhook payloads, and the idempotency key built on it.

 Texts are sequences of UTF-16 code units. A number is the text its value is printed as (RFC 8259,
 section 6); a literal too large for a double parses to an infinity, which prints as null.

 Main results: `CanonFaithful` (two payloads print alike exactly when they are equal up to the order of
 object keys at every depth, an infinity counting as null), `CanonFaithfulOnFinite`, `InfinityCollides`.
 */
module CanonicalJson {
  import opened Wrappers

  type Unit = n: nat | n < 0x1_0000
  type Text = seq<Unit>

  const QUOTE: Unit := 34
  const COMMA: Unit := 44
  const COLON: Unit := 58
  const LBRACKET: Unit := 91
  const BACKSLASH: Unit := 92
  const RBRACKET: Unit := 93
  const LOWER_B: Unit := 98
  const LOWER_F: Unit := 102
  const LOWER_N: Unit := 110
  const LOWER_R: Unit := 114
  const LOWER_T: Unit := 116
  const LOWER_U: Unit := 117
  const LBRACE: Unit := 123
  const RBRACE: Unit := 125
  const NULL: Text := [110, 117, 108, 108]
  const TRUE: Text := [116, 114, 117, 101]
  const FALSE: Text := [102, 97, 108, 115, 101]

  datatype Number = Finite(text: Text) | Infinite(negative: bool)
  datatype Json = Null | Bool(b: bool) | Num(n: Number) | Str(s: Text) | Arr(items: seq<Json>) | Obj(entries: seq<Entry>)
  datatype Entry = Entry(key: Text, value: Json)

  predicate NumberUnit(u: Unit) {
    48 <= u <= 57 || u == 43 || u == 45 || u == 46 || u == 101
  }

  predicate NumberText(t: Text) {
    t != [] && forall i :: 0 <= i < |t| ==> NumberUnit(t[i])
  }

  predicate DistinctKeys(es: seq<Entry>) {
    forall i, j :: 0 <= i < j < |es| ==> es[i].key != es[j].key
  }

  /** What parsing produces: printable numbers, no object with two values for a key. */
  ghost predicate Parsed(v: Json) {
    match v
    case Num(Finite(t)) => NumberText(t)
    case Arr(items) => forall i :: 0 <= i < |items| ==> Parsed(items[i])
    case Obj(entries) => DistinctKeys(entries) && forall i :: 0 <= i < |entries| ==> Parsed(entries[i].value)
    case _ => true
  }

  // ----- Strings (RFC 8259, section 7) -----

  predicate High(u: Unit) { 0xD800 <= u < 0xDC00 }
  predicate Low(u: Unit) { 0xDC00 <= u < 0xE000 }

  function HexDigit(n: nat): Unit
    requires n < 16
  {
    if n < 10 then 48 + n else 87 + n
  }

  function Hex4(u: Unit): Text {
    [BACKSLASH, LOWER_U, HexDigit(u / 4096), HexDigit(u / 256 % 16), HexDigit(u / 16 % 16), HexDigit(u % 16)]
  }

  /** Number of code units the first printed piece of a string stands for. */
  function HeadLength(s: Text): nat
    requires s != []
  {
    if |s| > 1 && High(s[0]) && Low(s[1]) then 2 else 1
  }

  /** The first printed piece: a surrogate pair, an escape, or the unit itself. */
  function HeadPiece(s: Text): Text
    requires s != []
  {
    var u := s[0];
    if HeadLength(s) == 2 then [s[0], s[1]]
    else if High(u) || Low(u) then Hex4(u)
    else if u == QUOTE then [BACKSLASH, QUOTE]
    else if u == BACKSLASH then [BACKSLASH, BACKSLASH]
    else if u == 8 then [BACKSLASH, LOWER_B]
    else if u == 12 then [BACKSLASH, LOWER_F]
    else if u == 10 then [BACKSLASH, LOWER_N]
    else if u == 13 then [BACKSLASH, LOWER_R]
    else if u == 9 then [BACKSLASH, LOWER_T]
    else if u < 32 then Hex4(u)
    else [u]
  }

  function Escape(s: Text): Text
    decreases |s|
  {
    if s == [] then [] else HeadPiece(s) + Escape(s[HeadLength(s)..])
  }

  function Quoted(s: Text): Text {
    [QUOTE] + Escape(s) + [QUOTE]
  }

  // ----- Key order -----

  /** Lexicographic order of code units, the language's `<` on strings. */
  predicate Less(a: Text, b: Text)
    decreases |a|
  {
    b != [] && (a == [] || a[0] < b[0] || (a[0] == b[0] && Less(a[1..], b[1..])))
  }

  function Insert(e: Entry, es: seq<Entry>): seq<Entry> {
    if es == [] || !Less(es[0].key, e.key) then [e] + es else [es[0]] + Insert(e, es[1..])
  }

  function SortEntries(es: seq<Entry>): (sorted: seq<Entry>)
    ensures multiset(sorted) == multiset(es)
  {
    if es == [] then []
    else
      assert es == [es[0]] + es[1..];
      InsertContents(es[0], SortEntries(es[1..]));
      Insert(es[0], SortEntries(es[1..]))
  }

  lemma {:induction false} InsertContents(e: Entry, es: seq<Entry>)
    ensures multiset(Insert(e, es)) == multiset(es) + multiset{e}
  {
    if es != [] && Less(es[0].key, e.key) {
      InsertContents(e, es[1..]);
      assert es == [es[0]] + es[1..];
    }
  }

  // ----- Serialisation -----

  function Canon(v: Json): Text
    decreases v
  {
    match v
    case Null => NULL
    case Bool(b) => if b then TRUE else FALSE
    case Num(Finite(t)) => t
    case Num(Infinite(_)) => NULL
    case Str(s) => Quoted(s)
    case Arr(items) => [LBRACKET] + CanonItems(v, items) + [RBRACKET]
    case Obj(entries) =>
      SortedSmaller(v);
      [LBRACE] + CanonEntries(v, SortEntries(entries)) + [RBRACE]
  }

  function CanonItems(parent: Json, items: seq<Json>): Text
    requires forall i :: 0 <= i < |items| ==> items[i] < parent
    decreases parent, |items|
  {
    if items == [] then []
    else if |items| == 1 then Canon(items[0])
    else Canon(items[0]) + [COMMA] + CanonItems(parent, items[1..])
  }

  function CanonEntries(parent: Json, es: seq<Entry>): Text
    requires forall i :: 0 <= i < |es| ==> es[i].value < parent
    decreases parent, |es|
  {
    if es == [] then []
    else
      var first := Quoted(es[0].key) + [COLON] + Canon(es[0].value);
      if |es| == 1 then first else first + [COMMA] + CanonEntries(parent, es[1..])
  }

  lemma SortedSmaller(v: Json)
    requires v.Obj?
    ensures forall i :: 0 <= i < |SortEntries(v.entries)| ==> SortEntries(v.entries)[i].value < v
  {
    var es := v.entries;
    SortedMembers(es);
    forall i | 0 <= i < |SortEntries(es)|
      ensures SortEntries(es)[i].value < v
    {
      var e := SortEntries(es)[i];
      assert e in es;
      var j :| 0 <= j < |es| && es[j] == e;
      assert es[j] < v;
    }
  }

  lemma SortedMembers(es: seq<Entry>)
    ensures |SortEntries(es)| == |es|
    ensures forall e :: e in SortEntries(es) <==> e in es
  {
    assert forall e :: e in es <==> e in multiset(es);
    assert forall e :: e in SortEntries(es) <==> e in multiset(SortEntries(es));
    assert |multiset(es)| == |es| && |multiset(SortEntries(es))| == |SortEntries(es)|;
  }

  // ----- Equality of payloads -----

  predicate PrintsNull(v: Json) {
    v.Null? || (v.Num? && v.n.Infinite?)
  }

  function Keys(es: seq<Entry>): set<Text> {
    set e | e in es :: e.key
  }

  /** Equal up to the order of object keys at every depth; an infinity counts as null. */
  ghost predicate Same(v: Json, w: Json) {
    if PrintsNull(v) || PrintsNull(w) then PrintsNull(v) && PrintsNull(w)
    else match (v, w)
      case (Arr(a), Arr(b)) => |a| == |b| && forall i :: 0 <= i < |a| ==> Same(a[i], b[i])
      case (Obj(a), Obj(b)) =>
        Keys(a) == Keys(b) &&
        forall i, j :: 0 <= i < |a| && 0 <= j < |b| && a[i].key == b[j].key ==> Same(a[i].value, b[j].value)
      case _ => v == w
  }

  /** Equal up to the order of object keys at every depth. */
  ghost predicate Equal(v: Json, w: Json) {
    match (v, w)
    case (Arr(a), Arr(b)) => |a| == |b| && forall i :: 0 <= i < |a| ==> Equal(a[i], b[i])
    case (Obj(a), Obj(b)) =>
      Keys(a) == Keys(b) &&
      forall i, j :: 0 <= i < |a| && 0 <= j < |b| && a[i].key == b[j].key ==> Equal(a[i].value, b[j].value)
    case _ => v == w
  }

  /** No number overflowed while parsing. */
  ghost predicate NoInfinity(v: Json) {
    match v
    case Num(n) => n.Finite?
    case Arr(items) => forall i :: 0 <= i < |items| ==> NoInfinity(items[i])
    case Obj(entries) => forall i :: 0 <= i < |entries| ==> NoInfinity(entries[i].value)
    case _ => true
  }

  // ----- Strings are uniquely decodable -----

  lemma HexUnique(u: Unit, w: Unit)
    requires Hex4(u) == Hex4(w)
    ensures u == w
  {
    assert Hex4(u)[2] == Hex4(w)[2] && Hex4(u)[3] == Hex4(w)[3] && Hex4(u)[4] == Hex4(w)[4] && Hex4(u)[5] == Hex4(w)[5];
    DigitUnique(u / 4096, w / 4096);
    DigitUnique(u / 256 % 16, w / 256 % 16);
    DigitUnique(u / 16 % 16, w / 16 % 16);
    DigitUnique(u % 16, w % 16);
    FromDigits(u);
    FromDigits(w);
  }

  lemma DigitUnique(m: nat, n: nat)
    requires m < 16 && n < 16 && HexDigit(m) == HexDigit(n)
    ensures m == n
  {}

  lemma FromDigits(u: Unit)
    ensures u == u / 4096 * 4096 + u / 256 % 16 * 256 + u / 16 % 16 * 16 + u % 16
  {
    Nibble(u);
    Nibble(u / 16);
    Nibble(u / 256);
    Quotients(u);
  }

  lemma Nibble(n: nat)
    ensures n == n / 16 * 16 + n % 16
  {}

  lemma Quotients(n: nat)
    ensures n / 16 / 16 == n / 256 && n / 256 / 16 == n / 4096
  {}

  /** The first pieces of two strings agree as soon as the printed texts do, and stand for the same units. */
  lemma HeadUnique(s: Text, t: Text, x: Text, y: Text)
    requires s != [] && t != [] && HeadPiece(s) + x == HeadPiece(t) + y
    ensures s[..HeadLength(s)] == t[..HeadLength(t)] && x == y
  {
    var a, b := HeadPiece(s), HeadPiece(t);
    assert (a + x)[0] == a[0] && (b + y)[0] == b[0];
    assert |a| > 1 ==> (a + x)[1] == a[1];
    assert |b| > 1 ==> (b + y)[1] == b[1];
    assert |a| == |b|;
    assert a == (a + x)[..|a|] == (b + y)[..|b|] == b;
    assert x == (a + x)[|a|..] && y == (b + y)[|b|..];
    if a[0] == BACKSLASH && a[1] == LOWER_U {
      HexUnique(s[0], t[0]);
    }
  }

  function Closed(s: Text, x: Text): Text {
    Escape(s) + [QUOTE] + x
  }

  lemma HeadStart(s: Text)
    requires s != []
    ensures 1 <= HeadLength(s) <= |s| && HeadPiece(s) != [] && HeadPiece(s)[0] != QUOTE
  {}

  lemma Regroup(a: Text, b: Text, c: Text, d: Text)
    ensures a + b + c + d == a + (b + c + d)
  {}

  lemma ClosedStart(s: Text, x: Text)
    ensures Closed(s, x) != []
    ensures Closed(s, x)[0] == QUOTE <==> s == []
    ensures s == [] ==> Closed(s, x)[1..] == x
    ensures s != [] ==> 1 <= HeadLength(s) <= |s| && Closed(s, x) == HeadPiece(s) + Closed(s[HeadLength(s)..], x)
  {
    hide HeadPiece, HeadLength;
    if s == [] {
      assert Closed(s, x) == [QUOTE] + x;
    } else {
      HeadStart(s);
      Regroup(HeadPiece(s), Escape(s[HeadLength(s)..]), [QUOTE], x);
      assert Closed(s, x)[0] == HeadPiece(s)[0];
    }
  }

  lemma {:induction false} EscapeUnique(s: Text, t: Text, x: Text, y: Text)
    requires Closed(s, x) == Closed(t, y)
    ensures s == t && x == y
    decreases |s| + |t|
  {
    hide Closed, HeadPiece, HeadLength;
    ClosedStart(s, x);
    ClosedStart(t, y);
    if s != [] && t != [] {
      var m, n := HeadLength(s), HeadLength(t);
      HeadUnique(s, t, Closed(s[m..], x), Closed(t[n..], y));
      EscapeUnique(s[m..], t[n..], x, y);
      assert s == s[..m] + s[m..] && t == t[..n] + t[n..];
    }
  }

  lemma QuotedUnique(s: Text, t: Text, x: Text, y: Text)
    requires Quoted(s) + x == Quoted(t) + y
    ensures s == t && x == y
  {
    assert (Quoted(s) + x)[1..] == Closed(s, x);
    assert (Quoted(t) + y)[1..] == Closed(t, y);
    EscapeUnique(s, t, x, y);
  }

  // ----- Key order is total, so a sorted object is unique -----

  lemma {:induction false} LessTotal(a: Text, b: Text)
    ensures a == b || Less(a, b) || Less(b, a)
    ensures !(Less(a, b) && Less(b, a))
    ensures !Less(a, a)
    decreases |a|
  {
    if a != [] {
      LessTotal(a[1..], a[1..]);
    }
    if a != [] && b != [] && a[0] == b[0] {
      LessTotal(a[1..], b[1..]);
      if a[1..] == b[1..] {
        assert a == [a[0]] + a[1..] && b == [b[0]] + b[1..];
      }
    }
  }

  lemma {:induction false} LessTransitive(a: Text, b: Text, c: Text)
    requires Less(a, b) && Less(b, c)
    ensures Less(a, c)
    decreases |a|
  {
    if a != [] && a[0] == b[0] == c[0] {
      LessTransitive(a[1..], b[1..], c[1..]);
    }
  }

  ghost predicate Sorted(es: seq<Entry>) {
    forall i, j :: 0 <= i < j < |es| ==> Less(es[i].key, es[j].key)
  }

  lemma {:induction false} InsertSorted(e: Entry, es: seq<Entry>)
    requires Sorted(es) && forall i :: 0 <= i < |es| ==> es[i].key != e.key
    ensures Sorted(Insert(e, es))
    ensures forall i :: 0 <= i < |Insert(e, es)| ==> Insert(e, es)[i] == e || Insert(e, es)[i] in es
  {
    if es != [] {
      LessTotal(es[0].key, e.key);
      if Less(es[0].key, e.key) {
        InsertSorted(e, es[1..]);
        var rest := Insert(e, es[1..]);
        forall j | 0 <= j < |rest|
          ensures Less(es[0].key, rest[j].key)
        {
          assert rest[j] == e || rest[j] in es[1..];
        }
      } else {
        forall j | 0 <= j < |es|
          ensures Less(e.key, es[j].key)
        {
          if j > 0 {
            LessTransitive(e.key, es[0].key, es[j].key);
          }
        }
      }
    }
  }

  lemma {:induction false} SortSorts(es: seq<Entry>)
    requires DistinctKeys(es)
    ensures Sorted(SortEntries(es))
  {
    if es != [] {
      SortSorts(es[1..]);
      var rest := SortEntries(es[1..]);
      SortedMembers(es[1..]);
      forall i | 0 <= i < |rest|
        ensures rest[i].key != es[0].key
      {
        assert rest[i] in es[1..];
      }
      InsertSorted(es[0], rest);
    }
  }

  lemma HasKey(es: seq<Entry>, k: Text) returns (i: nat)
    requires k in Keys(es)
    ensures i < |es| && es[i].key == k
  {
    var e :| e in es && e.key == k;
    i :| 0 <= i < |es| && es[i] == e;
  }

  lemma KeyAt(es: seq<Entry>, i: nat)
    requires i < |es|
    ensures es[i].key in Keys(es)
  {
    assert es[i] in es;
  }

  lemma TailKeys(es: seq<Entry>)
    requires Sorted(es) && es != []
    ensures Keys(es[1..]) == Keys(es) - {es[0].key}
  {
    hide Less;
    forall k
      ensures k in Keys(es[1..]) <==> k in Keys(es) && k != es[0].key
    {
      if k in Keys(es[1..]) {
        var i := HasKey(es[1..], k);
        KeyAt(es, i + 1);
        LessTotal(es[0].key, es[0].key);
        assert Less(es[0].key, es[i + 1].key);
      }
      if k in Keys(es) && k != es[0].key {
        var i := HasKey(es, k);
        KeyAt(es[1..], i - 1);
      }
    }
  }

  lemma HeadsAgree(a: seq<Entry>, b: seq<Entry>)
    requires Sorted(a) && Sorted(b) && Keys(a) == Keys(b) && a != [] && b != []
    ensures a[0].key == b[0].key
  {
    hide Less;
    KeyAt(a, 0);
    KeyAt(b, 0);
    var j := HasKey(b, a[0].key);
    var i := HasKey(a, b[0].key);
    LessTotal(a[0].key, b[0].key);
  }

  /** Two sorted objects over the same keys list them in the same order. */
  lemma {:induction false} SortedUnique(a: seq<Entry>, b: seq<Entry>)
    requires Sorted(a) && Sorted(b) && Keys(a) == Keys(b)
    ensures |a| == |b| && forall i :: 0 <= i < |a| ==> a[i].key == b[i].key
  {
    hide Less;
    if a == [] || b == [] {
      if a != [] { KeyAt(a, 0); }
      if b != [] { KeyAt(b, 0); }
    } else {
      HeadsAgree(a, b);
      TailKeys(a);
      TailKeys(b);
      SortedUnique(a[1..], b[1..]);
    }
  }

  // ----- Values are uniquely decodable -----

  /** Text that may follow a value: nothing, or a unit no value continues with. */
  predicate Follows(x: Text) {
    x == [] || x[0] == COMMA || x[0] == RBRACKET || x[0] == RBRACE
  }

  /** The kind a text starts as; a value never starts like a separator or a closing bracket. */
  lemma Starts(v: Json)
    requires Parsed(v)
    ensures Canon(v) != []
    ensures Canon(v)[0] != COMMA && Canon(v)[0] != RBRACKET && Canon(v)[0] != RBRACE
    ensures PrintsNull(v) <==> Canon(v)[0] == LOWER_N
    ensures v.Bool? <==> Canon(v)[0] == LOWER_T || Canon(v)[0] == LOWER_F
    ensures v.Str? <==> Canon(v)[0] == QUOTE
    ensures v.Arr? <==> Canon(v)[0] == LBRACKET
    ensures v.Obj? <==> Canon(v)[0] == LBRACE
    ensures v.Num? && v.n.Finite? <==> NumberUnit(Canon(v)[0])
  {}

  lemma {:induction false} NumberUnique(s: Text, t: Text, x: Text, y: Text)
    requires forall i :: 0 <= i < |s| ==> NumberUnit(s[i])
    requires forall i :: 0 <= i < |t| ==> NumberUnit(t[i])
    requires Follows(x) && Follows(y) && s + x == t + y
    ensures s == t && x == y
  {
    assert s == [] ==> s + x == x;
    assert t == [] ==> t + y == y;
    assert s != [] ==> (s + x)[0] == s[0];
    assert t != [] ==> (t + y)[0] == t[0];
    if s != [] && t != [] {
      assert (s + x)[1..] == s[1..] + x && (t + y)[1..] == t[1..] + y;
      NumberUnique(s[1..], t[1..], x, y);
      assert s == [s[0]] + s[1..] && t == [t[0]] + t[1..];
    }
  }

  ghost predicate AllParsed(items: seq<Json>) {
    forall i :: 0 <= i < |items| ==> Parsed(items[i])
  }

  ghost predicate EntriesParsed(es: seq<Entry>) {
    forall i :: 0 <= i < |es| ==> Parsed(es[i].value)
  }

  /** What follows the items of an array from here on. */
  lemma ItemsSplit(parent: Json, items: seq<Json>, x: Text) returns (rest: Text)
    requires forall i :: 0 <= i < |items| ==> items[i] < parent
    requires AllParsed(items)
    ensures items == [] ==> CanonItems(parent, items) + [RBRACKET] + x == [RBRACKET] + x
    ensures items != [] ==> CanonItems(parent, items) + [RBRACKET] + x == Canon(items[0]) + rest && Follows(rest) && rest != []
    ensures |items| == 1 ==> rest == [RBRACKET] + x
    ensures |items| > 1 ==> rest == [COMMA] + (CanonItems(parent, items[1..]) + [RBRACKET] + x)
  {
    rest := if |items| == 1 then [RBRACKET] + x
            else if |items| > 1 then [COMMA] + (CanonItems(parent, items[1..]) + [RBRACKET] + x) else [];
    if |items| == 1 {
      assert CanonItems(parent, items) + [RBRACKET] + x == Canon(items[0]) + rest;
    } else if |items| > 1 {
      assert CanonItems(parent, items) + [RBRACKET] + x == Canon(items[0]) + rest;
    }
  }

  lemma EntriesSplit(parent: Json, es: seq<Entry>, x: Text) returns (mid: Text, rest: Text)
    requires forall i :: 0 <= i < |es| ==> es[i].value < parent
    requires EntriesParsed(es)
    ensures es == [] ==> CanonEntries(parent, es) + [RBRACE] + x == [RBRACE] + x
    ensures es != [] ==>
              && CanonEntries(parent, es) + [RBRACE] + x == Quoted(es[0].key) + mid
              && mid == [COLON] + (Canon(es[0].value) + rest)
              && Follows(rest) && rest != []
    ensures |es| == 1 ==> rest == [RBRACE] + x
    ensures |es| > 1 ==> rest == [COMMA] + (CanonEntries(parent, es[1..]) + [RBRACE] + x)
  {
    hide Quoted, Canon;
    rest, mid := [], [];
    if es != [] {
      var q, c := Quoted(es[0].key), Canon(es[0].value);
      if |es| == 1 {
        rest := [RBRACE] + x;
        RegroupEntry(q, c, rest);
        Regroup(q + [COLON] + c, [], [RBRACE], x);
        assert q + [COLON] + c + [] == q + [COLON] + c && [] + [RBRACE] + x == rest;
      } else {
        var more := CanonEntries(parent, es[1..]);
        rest := [COMMA] + (more + [RBRACE] + x);
        RegroupEntry(q, c, rest);
        RegroupRest(q + [COLON] + c, more, x);
      }
      mid := [COLON] + (c + rest);
    }
  }

  lemma RegroupEntry(q: Text, c: Text, rest: Text)
    ensures q + [COLON] + c + rest == q + ([COLON] + (c + rest))
  {}

  lemma RegroupRest(first: Text, more: Text, x: Text)
    ensures first + [COMMA] + more + [RBRACE] + x == first + ([COMMA] + (more + [RBRACE] + x))
  {}

  ghost predicate SameItems(a: seq<Json>, b: seq<Json>) {
    |a| == |b| && forall i :: 0 <= i < |a| ==> Same(a[i], b[i])
  }

  ghost predicate SameEntries(a: seq<Entry>, b: seq<Entry>) {
    |a| == |b| && forall i :: 0 <= i < |a| ==> a[i].key == b[i].key && Same(a[i].value, b[i].value)
  }

  lemma {:induction false} ItemsUnique(v: Json, a: seq<Json>, w: Json, b: seq<Json>, x: Text, y: Text)
    requires forall i :: 0 <= i < |a| ==> a[i] < v
    requires forall i :: 0 <= i < |b| ==> b[i] < w
    requires AllParsed(a) && AllParsed(b)
    requires CanonItems(v, a) + [RBRACKET] + x == CanonItems(w, b) + [RBRACKET] + y
    ensures SameItems(a, b) && x == y
    decreases v, |a|
  {
    hide Canon, CanonItems, Same, Parsed;
    var left, right := CanonItems(v, a) + [RBRACKET] + x, CanonItems(w, b) + [RBRACKET] + y;
    var rx := ItemsSplit(v, a, x);
    var ry := ItemsSplit(w, b, y);
    assert a == [] ==> left[0] == RBRACKET;
    assert b == [] ==> right[0] == RBRACKET;
    if a != [] { Starts(a[0]); assert left[0] == Canon(a[0])[0]; }
    if b != [] { Starts(b[0]); assert right[0] == Canon(b[0])[0]; }
    if a == [] {
      assert x == left[1..] && y == right[1..];
    } else {
      ValueUnique(a[0], b[0], rx, ry);
      assert rx[1..] == ry[1..];
      if |a| == 1 {
        assert rx[0] == RBRACKET && |b| == 1;
        assert x == rx[1..] && y == ry[1..];
      } else {
        assert rx[0] == COMMA && |b| > 1;
        ItemsUnique(v, a[1..], w, b[1..], x, y);
        assert forall i :: 1 <= i < |a| ==> a[i] == a[1..][i - 1] && b[i] == b[1..][i - 1];
      }
    }
  }

  lemma {:induction false} EntriesUnique(v: Json, a: seq<Entry>, w: Json, b: seq<Entry>, x: Text, y: Text)
    requires forall i :: 0 <= i < |a| ==> a[i].value < v
    requires forall i :: 0 <= i < |b| ==> b[i].value < w
    requires EntriesParsed(a) && EntriesParsed(b)
    requires CanonEntries(v, a) + [RBRACE] + x == CanonEntries(w, b) + [RBRACE] + y
    ensures SameEntries(a, b) && x == y
    decreases v, |a|
  {
    hide Canon, CanonEntries, Same, Parsed, Escape;
    var left, right := CanonEntries(v, a) + [RBRACE] + x, CanonEntries(w, b) + [RBRACE] + y;
    var mx, rx := EntriesSplit(v, a, x);
    var my, ry := EntriesSplit(w, b, y);
    assert a == [] ==> left[0] == RBRACE;
    assert b == [] ==> right[0] == RBRACE;
    if a != [] { assert left[0] == QUOTE; }
    if b != [] { assert right[0] == QUOTE; }
    if a == [] {
      assert x == left[1..] && y == right[1..];
    } else {
      QuotedUnique(a[0].key, b[0].key, mx, my);
      assert Canon(a[0].value) + rx == mx[1..] && Canon(b[0].value) + ry == my[1..];
      ValueUnique(a[0].value, b[0].value, rx, ry);
      assert rx[1..] == ry[1..];
      if |a| == 1 {
        assert rx[0] == RBRACE && |b| == 1;
        assert x == rx[1..] && y == ry[1..];
      } else {
        assert rx[0] == COMMA && |b| > 1;
        EntriesUnique(v, a[1..], w, b[1..], x, y);
        assert forall i :: 1 <= i < |a| ==> a[i] == a[1..][i - 1] && b[i] == b[1..][i - 1];
      }
    }
  }

  /** A printed value determines the value and where it ends, whatever separator follows. */
  lemma {:induction false} ValueUnique(v: Json, w: Json, x: Text, y: Text)
    requires Parsed(v) && Parsed(w) && Follows(x) && Follows(y)
    requires Canon(v) + x == Canon(w) + y
    ensures Same(v, w) && x == y
    decreases v
  {
    hide Escape, CanonItems, CanonEntries, SortEntries;
    Starts(v);
    Starts(w);
    var left, right := Canon(v) + x, Canon(w) + y;
    assert Canon(v)[0] == left[0] && Canon(w)[0] == right[0];
    if PrintsNull(v) {
      assert x == left[4..] && y == right[4..];
    } else if v.Bool? {
      assert x == left[|Canon(v)|..] && y == right[|Canon(w)|..];
    } else if v.Num? {
      NumberUnique(v.n.text, w.n.text, x, y);
    } else if v.Str? {
      QuotedUnique(v.s, w.s, x, y);
    } else if v.Arr? {
      ArraysUnique(v, w, x, y);
    } else {
      ObjectsUnique(v, w, x, y);
    }
  }

  lemma {:induction false} ArraysUnique(v: Json, w: Json, x: Text, y: Text)
    requires Parsed(v) && Parsed(w) && v.Arr? && w.Arr?
    requires Canon(v) + x == Canon(w) + y
    ensures Same(v, w) && x == y
    decreases v, |v.items| + 1
  {
    hide CanonItems;
    assert (Canon(v) + x)[1..] == CanonItems(v, v.items) + [RBRACKET] + x;
    assert (Canon(w) + y)[1..] == CanonItems(w, w.items) + [RBRACKET] + y;
    ItemsUnique(v, v.items, w, w.items, x, y);
  }

  lemma {:induction false} ObjectsUnique(v: Json, w: Json, x: Text, y: Text)
    requires Parsed(v) && Parsed(w) && v.Obj? && w.Obj?
    requires Canon(v) + x == Canon(w) + y
    ensures Same(v, w) && x == y
    decreases v, |v.entries| + 1
  {
    hide CanonEntries, SortEntries;
    var a, b := SortEntries(v.entries), SortEntries(w.entries);
    SortedSmaller(v);
    SortedSmaller(w);
    SortedParsed(v.entries);
    SortedParsed(w.entries);
    SortedMembers(v.entries);
    assert (Canon(v) + x)[1..] == CanonEntries(v, a) + [RBRACE] + x;
    assert (Canon(w) + y)[1..] == CanonEntries(w, b) + [RBRACE] + y;
    EntriesUnique(v, a, w, b, x, y);
    SortedAlike(v.entries, w.entries);
  }

  lemma SortedParsed(es: seq<Entry>)
    requires EntriesParsed(es)
    ensures EntriesParsed(SortEntries(es))
  {
    hide SortEntries;
    SortedMembers(es);
    forall i | 0 <= i < |SortEntries(es)|
      ensures Parsed(SortEntries(es)[i].value)
    {
      assert SortEntries(es)[i] in es;
    }
  }

  /** Objects whose sorted entries agree one by one are equal up to order. */
  lemma SortedAlike(a: seq<Entry>, b: seq<Entry>)
    requires DistinctKeys(a) && DistinctKeys(b)
    requires SameEntries(SortEntries(a), SortEntries(b))
    ensures Same(Obj(a), Obj(b))
  {
    hide SortEntries, Less;
    var sa, sb := SortEntries(a), SortEntries(b);
    SortedMembers(a);
    SortedMembers(b);
    SortSorts(a);
    SortSorts(b);
    SortedKeys(a);
    SortedKeys(b);
    forall k
      ensures k in Keys(sa) <==> k in Keys(sb)
    {
      if k in Keys(sa) { var i := HasKey(sa, k); KeyAt(sb, i); }
      if k in Keys(sb) { var i := HasKey(sb, k); KeyAt(sa, i); }
    }
    assert Keys(a) == Keys(sa) == Keys(sb) == Keys(b);
    forall i, j | 0 <= i < |a| && 0 <= j < |b| && a[i].key == b[j].key
      ensures Same(a[i].value, b[j].value)
    {
      assert a[i] in sa && b[j] in sb;
      var p :| 0 <= p < |sa| && sa[p] == a[i];
      var q :| 0 <= q < |sb| && sb[q] == b[j];
      SortedPlace(sa, p, q);
    }
  }

  lemma SortedKeys(es: seq<Entry>)
    ensures Keys(SortEntries(es)) == Keys(es)
  {
    SortedMembers(es);
  }

  lemma SortedPlace(es: seq<Entry>, p: nat, q: nat)
    requires Sorted(es) && p < |es| && q < |es| && es[p].key == es[q].key
    ensures p == q
  {
    LessTotal(es[p].key, es[q].key);
  }

  // ----- Equal payloads print alike -----

  /** Objects equal up to order have sorted entries that agree one by one. */
  lemma SortedMatch(a: seq<Entry>, b: seq<Entry>)
    requires DistinctKeys(a) && DistinctKeys(b) && Same(Obj(a), Obj(b))
    ensures SameEntries(SortEntries(a), SortEntries(b))
  {
    hide SortEntries, Less;
    var sa, sb := SortEntries(a), SortEntries(b);
    SortedMembers(a);
    SortedMembers(b);
    SortSorts(a);
    SortSorts(b);
    SortedKeys(a);
    SortedKeys(b);
    SortedUnique(sa, sb);
    forall p | 0 <= p < |sa|
      ensures Same(sa[p].value, sb[p].value)
    {
      assert sa[p] in a && sb[p] in b;
      var i :| 0 <= i < |a| && a[i] == sa[p];
      var j :| 0 <= j < |b| && b[j] == sb[p];
    }
  }

  lemma {:induction false} SamePrints(v: Json, w: Json)
    requires Parsed(v) && Parsed(w) && Same(v, w)
    ensures Canon(v) == Canon(w)
    decreases v
  {
    hide CanonItems, CanonEntries, SortEntries;
    if v.Arr? && w.Arr? {
      SameItemsPrint(v, v.items, w, w.items);
    } else if v.Obj? && w.Obj? {
      SortedSmaller(v);
      SortedSmaller(w);
      SortedParsed(v.entries);
      SortedParsed(w.entries);
      SortedMembers(v.entries);
      SortedMatch(v.entries, w.entries);
      SameEntriesPrint(v, SortEntries(v.entries), w, SortEntries(w.entries));
    }
  }

  lemma {:induction false} SameItemsPrint(v: Json, a: seq<Json>, w: Json, b: seq<Json>)
    requires forall i :: 0 <= i < |a| ==> a[i] < v
    requires forall i :: 0 <= i < |b| ==> b[i] < w
    requires AllParsed(a) && AllParsed(b) && SameItems(a, b)
    ensures CanonItems(v, a) == CanonItems(w, b)
    decreases v, |a|
  {
    hide Canon, Same, Parsed;
    if a != [] {
      SamePrints(a[0], b[0]);
      SameItemsPrint(v, a[1..], w, b[1..]);
    }
  }

  lemma {:induction false} SameEntriesPrint(v: Json, a: seq<Entry>, w: Json, b: seq<Entry>)
    requires forall i :: 0 <= i < |a| ==> a[i].value < v
    requires forall i :: 0 <= i < |b| ==> b[i].value < w
    requires EntriesParsed(a) && EntriesParsed(b) && SameEntries(a, b)
    ensures CanonEntries(v, a) == CanonEntries(w, b)
    decreases v, |a|
  {
    hide Canon, Same, Parsed;
    if a != [] {
      SamePrints(a[0].value, b[0].value);
      SameEntriesPrint(v, a[1..], w, b[1..]);
    }
  }

  /** Two payloads print alike exactly when they are equal up to key order, an infinity counting as null. */
  lemma CanonFaithful(v: Json, w: Json)
    requires Parsed(v) && Parsed(w)
    ensures Canon(v) == Canon(w) <==> Same(v, w)
  {
    hide Canon, Same;
    if Canon(v) == Canon(w) {
      assert Canon(v) + [] == Canon(w) + [];
      ValueUnique(v, w, [], []);
    }
    if Same(v, w) {
      SamePrints(v, w);
    }
  }

  lemma {:induction false} SameIsEqual(v: Json, w: Json)
    requires NoInfinity(v) && NoInfinity(w)
    ensures Same(v, w) <==> Equal(v, w)
    decreases v
  {
    match (v, w)
    case (Arr(a), Arr(b)) =>
      if |a| == |b| {
        forall i | 0 <= i < |a|
          ensures Same(a[i], b[i]) <==> Equal(a[i], b[i])
        {
          SameIsEqual(a[i], b[i]);
        }
      }
    case (Obj(a), Obj(b)) =>
      forall i, j | 0 <= i < |a| && 0 <= j < |b| && a[i].key == b[j].key
        ensures Same(a[i].value, b[j].value) <==> Equal(a[i].value, b[j].value)
      {
        SameIsEqual(a[i].value, b[j].value);
      }
    case _ =>
  }

  /** With every number in the range of a double, the print is a faithful key. */
  lemma CanonFaithfulOnFinite(v: Json, w: Json)
    requires Parsed(v) && Parsed(w) && NoInfinity(v) && NoInfinity(w)
    ensures Canon(v) == Canon(w) <==> Equal(v, w)
  {
    CanonFaithful(v, w);
    SameIsEqual(v, w);
  }

  /** Outside that range it is not: a literal such as 1e999 prints like null. */
  lemma InfinityCollides()
    ensures
      var v, w := Num(Infinite(false)), Null;
      Parsed(v) && Parsed(w) && !Equal(v, w) && Canon(v) == Canon(w)
  {}

  // ----- The idempotency key -----

  /** "sha256:" */
  const PREFIX: Text := [115, 104, 97, 50, 53, 54, 58]

  function ResolveDeliveryId(header: Option<Text>, payloadHash: Text): Text {
    if header.None? || header.value == [] then PREFIX + payloadHash else header.value
  }

  /**
   With a hash that never collides, deliveries without an identifier share a key exactly when their payloads
   are equal up to key order; a delivery with an identifier shares the key of one without only if its
   identifier is literally that substitute.
   */
  lemma DeliveryIdFaithful(hash: Text -> Text, v: Json, w: Json, header: Option<Text>)
    requires Parsed(v) && Parsed(w)
    requires forall s, t :: hash(s) == hash(t) ==> s == t
    ensures ResolveDeliveryId(None, hash(Canon(v))) == ResolveDeliveryId(Some([]), hash(Canon(w))) <==> Same(v, w)
    ensures header.Some? && header.value != [] ==>
              (ResolveDeliveryId(header, hash(Canon(v))) == ResolveDeliveryId(None, hash(Canon(w))) <==>
               header.value == PREFIX + hash(Canon(w)))
  {
    hide Canon, Same;
    CanonFaithful(v, w);
    var a, b := hash(Canon(v)), hash(Canon(w));
    if PREFIX + a == PREFIX + b {
      assert a == (PREFIX + a)[|PREFIX|..] && b == (PREFIX + b)[|PREFIX|..];
    }
  }
}
