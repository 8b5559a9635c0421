/** The canonical serialiser configuration entries are compared by: object keys
    sorted at every depth, then printed as JSON text (strings as in section 7 of
    RFC 8259). */
module CanonicalJson {
  import opened JsText

  // ---- Values --------------------------------------------------------------

  predicate NumberUnit(u: Unit) {
    48 <= u < 58 || u == 43 || u == 45 || u == 46 || u == 101
  }

  /** A finite number other than -0, identified with its shortest decimal text. */
  type NumberText = t: Text | t != [] && forall u | u in t :: NumberUnit(u) witness [48]

  datatype Field = Field(key: Text, value: Json)

  /** `fields` lists an object's own properties in enumeration order. */
  datatype Json =
    | Undefined
    | Null
    | Bool(b: bool)
    | Num(text: NumberText)
    | Str(s: Text)
    | Arr(items: seq<Json>)
    | Obj(fields: seq<Field>)

  ghost predicate DistinctKeys(fields: seq<Field>) {
    forall i, j :: 0 <= i < j < |fields| ==> fields[i].key != fields[j].key
  }

  /** No object at any depth has two properties of one name. */
  ghost predicate WellFormed(v: Json) {
    match v
    case Arr(items) => forall x | x in items :: WellFormed(x)
    case Obj(fields) => DistinctKeys(fields) && forall f | f in fields :: WellFormed(f.value)
    case _ => true
  }

  /** What a value means once key order is forgotten: objects are finite maps,
      undefined properties are absent, an undefined array element is null. */
  datatype Meaning =
    | MUndefined
    | MNull
    | MBool(b: bool)
    | MNum(text: NumberText)
    | MStr(s: Text)
    | MArr(items: seq<Meaning>)
    | MObj(fields: map<Text, Meaning>)

  function Denote(v: Json): Meaning
    decreases v, 1
  {
    match v
    case Undefined => MUndefined
    case Null => MNull
    case Bool(b) => MBool(b)
    case Num(t) => MNum(t)
    case Str(s) => MStr(s)
    case Arr(items) => MArr(DenoteItems(items))
    case Obj(fields) => MObj(DenoteFields(fields))
  }

  function DenoteItems(items: seq<Json>): seq<Meaning>
    decreases items, 0
  {
    if items == [] then []
    else [ElementMeaning(items[0])] + DenoteItems(items[1..])
  }

  /** An undefined array element means null. */
  function ElementMeaning(v: Json): Meaning
    decreases v, 2
  {
    if v.Undefined? then MNull else Denote(v)
  }

  function DenoteFields(fields: seq<Field>): map<Text, Meaning>
    decreases fields, 0
  {
    if fields == [] then map[]
    else if fields[0].value.Undefined? then DenoteFields(fields[1..])
    else DenoteFields(fields[1..])[fields[0].key := Denote(fields[0].value)]
  }

  // ---- Key order -----------------------------------------------------------

  /** Comparison of code units, `<` on strings. */
  predicate TextLess(a: Text, b: Text) {
    if b == [] then false
    else if a == [] then true
    else a[0] < b[0] || (a[0] == b[0] && TextLess(a[1..], b[1..]))
  }

  /** Array-index names: enumeration always lists them first, in numeric order. */
  predicate IndexKey(k: Text) {
    k == [48] || (0 < |k| <= 10 && k[0] != 48 && (forall u | u in k :: 48 <= u < 58)
                  && (|k| == 10 ==> TextLess(k, MAX_INDEX)))
  }

  /** 4294967295, the first number that is not an array index. */
  const MAX_INDEX: Text := [52, 50, 57, 52, 57, 54, 55, 50, 57, 53]

  /** The order in which the sorted copy of an object lists its keys. */
  predicate KeyLess(a: Text, b: Text) {
    if IndexKey(a) && IndexKey(b) then |a| < |b| || (|a| == |b| && TextLess(a, b))
    else if IndexKey(a) then true
    else if IndexKey(b) then false
    else TextLess(a, b)
  }

  lemma {:induction false} TextLessOrders(a: Text, b: Text, c: Text)
    ensures a == b || TextLess(a, b) || TextLess(b, a)
    ensures !(TextLess(a, b) && TextLess(b, a)) && !TextLess(a, a)
    ensures TextLess(a, b) && TextLess(b, c) ==> TextLess(a, c)
  {
    if a != [] {
      TextLessOrders(a[1..], if b == [] then [] else b[1..], if c == [] then [] else c[1..]);
      assert a == [a[0]] + a[1..];
      assert b != [] ==> b == [b[0]] + b[1..];
    }
  }

  lemma KeyLessOrders(a: Text, b: Text, c: Text)
    ensures a == b || KeyLess(a, b) || KeyLess(b, a)
    ensures !(KeyLess(a, b) && KeyLess(b, a)) && !KeyLess(a, a)
    ensures KeyLess(a, b) && KeyLess(b, c) ==> KeyLess(a, c)
  {
    TextLessOrders(a, b, c);
  }

  // ---- The replacer --------------------------------------------------------

  function Insert(f: Field, fields: seq<Field>): seq<Field> {
    if fields == [] || KeyLess(f.key, fields[0].key) then [f] + fields
    else [fields[0]] + Insert(f, fields[1..])
  }

  /** The replacer's effect on a whole value: every object gets sorted keys. */
  function SortKeys(v: Json): Json
    decreases v, 1
  {
    match v
    case Arr(items) => Arr(SortItems(items))
    case Obj(fields) => Obj(SortFields(fields))
    case _ => v
  }

  function SortItems(items: seq<Json>): seq<Json>
    decreases items, 0
  {
    if items == [] then [] else [SortKeys(items[0])] + SortItems(items[1..])
  }

  function SortFields(fields: seq<Field>): seq<Field>
    decreases fields, 0
  {
    if fields == [] then []
    else Insert(Field(fields[0].key, SortKeys(fields[0].value)), SortFields(fields[1..]))
  }

  ghost predicate Sorted(fields: seq<Field>) {
    forall i, j :: 0 <= i < j < |fields| ==> KeyLess(fields[i].key, fields[j].key)
  }

  ghost predicate SortedDeep(v: Json) {
    match v
    case Arr(items) => forall x | x in items :: SortedDeep(x)
    case Obj(fields) => Sorted(fields) && forall f | f in fields :: SortedDeep(f.value)
    case _ => true
  }

  // ---- JSON text -----------------------------------------------------------

  predicate High(u: Unit) { 0xD800 <= u < 0xDC00 }

  predicate Low(u: Unit) { 0xDC00 <= u < 0xE000 }

  function EscapeUnit(u: Unit): Text {
    if u == QUOTE || u == BACKSLASH then [BACKSLASH, u]
    else if u == 8 then [BACKSLASH, 98]
    else if u == 9 then [BACKSLASH, 116]
    else if u == 10 then [BACKSLASH, 110]
    else if u == 12 then [BACKSLASH, 102]
    else if u == 13 then [BACKSLASH, 114]
    else if u < 32 || High(u) || Low(u) then [BACKSLASH, 117] + Hex4(u)
    else [u]
  }

  /** A paired surrogate is copied; a lone one is escaped like a control. */
  function Escape(s: Text): Text {
    if s == [] then []
    else if |s| > 1 && High(s[0]) && Low(s[1]) then s[..2] + Escape(s[2..])
    else EscapeUnit(s[0]) + Escape(s[1..])
  }

  function Quoted(s: Text): Text {
    [QUOTE] + Escape(s) + [QUOTE]
  }

  /** Printing of a value; `None` for undefined, which prints nothing. */
  function Stringify(v: Json): Option<Text>
    decreases v, 1
  {
    match v
    case Undefined => None
    case Null => Some([110, 117, 108, 108])
    case Bool(b) => Some(if b then [116, 114, 117, 101] else [102, 97, 108, 115, 101])
    case Num(t) => Some(t)
    case Str(s) => Some(Quoted(s))
    case Arr(items) => Some([91] + Items(items, true) + [93])
    case Obj(fields) => Some([123] + Members(fields, true) + [125])
  }

  function Items(items: seq<Json>, first: bool): Text
    decreases items, 0
  {
    if items == [] then []
    else (if first then [] else [COMMA]) + ElementText(items[0]) + Items(items[1..], false)
  }

  /** An undefined array element prints as null. */
  function ElementText(v: Json): Text
    decreases v, 2
  {
    match Stringify(v)
    case Some(t) => t
    case None => [110, 117, 108, 108]
  }

  function Members(fields: seq<Field>, first: bool): Text
    decreases fields, 0
  {
    if fields == [] then []
    else match Stringify(fields[0].value)
      case None => Members(fields[1..], first)
      case Some(t) =>
        (if first then [] else [COMMA]) + Quoted(fields[0].key) + [COLON] + t + Members(fields[1..], false)
  }

  function Fingerprint(v: Json): Text {
    match Stringify(SortKeys(v))
    case Some(t) => t
    case None => [117, 110, 100, 101, 102, 105, 110, 101, 100]
  }

  // ---- Strings read back ---------------------------------------------------

  /** A JSON string body up to its closing quote: the decoded units and the rest. */
  function ReadString(t: Text): Option<(Text, Text)> {
    if t == [] then None
    else if t[0] == QUOTE then Some(([], t[1..]))
    else if t[0] != BACKSLASH then (if t[0] < 32 then None else Push(t[0], ReadString(t[1..])))
    else if |t| < 2 then None
    else if t[1] == 117 then
      if |t| < 6 then None
      else match ReadHex4(t[2..6])
        case None => None
        case Some(u) => Push(u, ReadString(t[6..]))
    else match SimpleEscape(t[1])
      case None => None
      case Some(u) => Push(u, ReadString(t[2..]))
  }

  function SimpleEscape(u: Unit): Option<Unit> {
    if u == QUOTE || u == BACKSLASH || u == 47 then Some(u)
    else if u == 98 then Some(8)
    else if u == 116 then Some(9)
    else if u == 110 then Some(10)
    else if u == 102 then Some(12)
    else if u == 114 then Some(13)
    else None
  }

  function Push(u: Unit, r: Option<(Text, Text)>): Option<(Text, Text)> {
    match r
    case None => None
    case Some((s, rest)) => Some(([u] + s, rest))
  }

  lemma ReadEscapedUnit(u: Unit, tail: Text)
    ensures ReadString(EscapeUnit(u) + tail) == Push(u, ReadString(tail))
  {
    var e := EscapeUnit(u);
    var t := e + tail;
    assert t[|e|..] == tail;
    if |e| == 6 {
      HexRoundTrip(u, []);
      assert t[2..6] == Hex4(u) + [];
    }
  }

  lemma ReadPair(h: Unit, l: Unit, tail: Text)
    requires High(h) && Low(l)
    ensures ReadString([h, l] + tail) == Push(h, Push(l, ReadString(tail)))
  {
    var t := [h, l] + tail;
    assert t[1..] == [l] + tail && t[1..][1..] == tail;
  }

  lemma PairStep(s: Text, closing: Text)
    requires |s| > 1 && High(s[0]) && Low(s[1])
    ensures ReadString(Escape(s) + closing) == Push(s[0], Push(s[1], ReadString(Escape(s[2..]) + closing)))
  {
    ReadPair(s[0], s[1], Escape(s[2..]) + closing);
    assert s[..2] == [s[0], s[1]];
    assert Escape(s) + closing == [s[0], s[1]] + (Escape(s[2..]) + closing);
  }

  lemma UnitStep(s: Text, closing: Text)
    requires s != [] && !(|s| > 1 && High(s[0]) && Low(s[1]))
    ensures ReadString(Escape(s) + closing) == Push(s[0], ReadString(Escape(s[1..]) + closing))
  {
    ReadEscapedUnit(s[0], Escape(s[1..]) + closing);
    assert Escape(s) + closing == EscapeUnit(s[0]) + (Escape(s[1..]) + closing);
  }

  /** Reading the escaped text consumes exactly it and yields the string. */
  lemma {:induction false} StringRoundTrip(s: Text, rest: Text)
    ensures ReadString(Escape(s) + ([QUOTE] + rest)) == Some((s, rest))
  {
    var closing := [QUOTE] + rest;
    if s == [] {
      assert Escape(s) + closing == closing;
    } else if |s| > 1 && High(s[0]) && Low(s[1]) {
      StringRoundTrip(s[2..], rest);
      PairStep(s, closing);
      assert [s[0]] + ([s[1]] + s[2..]) == s;
    } else {
      StringRoundTrip(s[1..], rest);
      UnitStep(s, closing);
      assert [s[0]] + s[1..] == s;
    }
  }

  lemma QuotedReads(s: Text, rest: Text)
    ensures Quoted(s) + rest == [QUOTE] + (Escape(s) + ([QUOTE] + rest))
    ensures ReadString((Quoted(s) + rest)[1..]) == Some((s, rest))
  {
    var body := Escape(s) + ([QUOTE] + rest);
    assert Quoted(s) + rest == [QUOTE] + body;
    assert ([QUOTE] + body)[1..] == body;
    StringRoundTrip(s, rest);
  }

  lemma QuotedInjective(s1: Text, r1: Text, s2: Text, r2: Text)
    requires Quoted(s1) + r1 == Quoted(s2) + r2
    ensures s1 == s2 && r1 == r2
  {
    QuotedReads(s1, r1);
    QuotedReads(s2, r2);
  }

  // ---- Unique decoding -----------------------------------------------------

  /** What can follow a value inside a printed text. */
  predicate Stop(rest: Text) {
    rest == [] || rest[0] == COMMA || rest[0] == 93 || rest[0] == 125
  }

  lemma NumberEnds(n1: NumberText, r1: Text, n2: NumberText, r2: Text)
    requires n1 + r1 == n2 + r2 && Stop(r1) && Stop(r2)
    ensures n1 == n2 && r1 == r2
  {
    var t := n1 + r1;
    assert forall k :: 0 <= k < |n1| ==> t[k] == n1[k] && NumberUnit(t[k]);
    assert forall k :: 0 <= k < |n2| ==> t[k] == n2[k] && NumberUnit(t[k]);
    assert |n1| < |t| ==> t[|n1|] == r1[0];
    assert |n2| < |t| ==> t[|n2|] == r2[0];
    assert t[..|n1|] == n1 && t[..|n2|] == n2;
    assert t[|n1|..] == r1 && t[|n2|..] == r2;
  }

  /** The first unit of a printed value tells its kind. */
  lemma FirstUnit(v: Json)
    ensures var t := ElementText(v);
      && t != []
      && (t[0] == 110 <==> v.Null? || v.Undefined?)
      && (t[0] == 116 <==> v == Bool(true))
      && (t[0] == 102 <==> v == Bool(false))
      && (t[0] == QUOTE <==> v.Str?)
      && (t[0] == 91 <==> v.Arr?)
      && (t[0] == 123 <==> v.Obj?)
      && (NumberUnit(t[0]) <==> v.Num?)
      && t[0] != 93 && t[0] != COMMA && t[0] != 125
  {
    if v.Num? {
      assert v.text[0] in v.text;
    }
  }

  lemma ItemsStart(xs: seq<Json>, first: bool, rest: Text)
    ensures var t := Items(xs, first) + ([93] + rest);
      && (t[0] == 93 <==> xs == [])
      && (!first ==> Stop(t))
    ensures xs != [] ==>
      var tail := Items(xs[1..], false) + ([93] + rest);
      Items(xs, first) + ([93] + rest) == (if first then [] else [COMMA]) + (ElementText(xs[0]) + tail)
  {
    if xs != [] {
      FirstUnit(xs[0]);
    }
  }

  /** A printed value can be told apart from whatever follows it, and its text
      determines what it means. */
  lemma {:induction false} ValueDecodes(v: Json, w: Json, s: Text, t: Text)
    requires Stop(s) && Stop(t)
    requires ElementText(v) + s == ElementText(w) + t
    ensures ElementMeaning(v) == ElementMeaning(w) && s == t
    decreases v, 2
  {
    FirstUnit(v);
    FirstUnit(w);
    assert ElementText(v)[0] == (ElementText(v) + s)[0] == ElementText(w)[0];
    match v
    case Num(n) => NumberEnds(n, s, w.text, t);
    case Str(x) => QuotedInjective(x, s, w.s, t);
    case Arr(items) =>
      ArrTail(items, s);
      ArrTail(w.items, t);
      ItemsDecode(items, w.items, true, s, t);
    case Obj(fields) =>
      ObjTail(fields, s);
      ObjTail(w.fields, t);
      MembersDecode(fields, w.fields, true, s, t);
    case _ =>
      assert (ElementText(v) + s)[|ElementText(v)|..] == s;
      assert (ElementText(w) + t)[|ElementText(w)|..] == t;
  }

  lemma Enclosed(opening: Unit, middle: Text, closing: Unit, rest: Text)
    ensures ([opening] + middle + [closing]) + rest == [opening] + (middle + ([closing] + rest))
    ensures (([opening] + middle + [closing]) + rest)[1..] == middle + ([closing] + rest)
  {
  }

  lemma ArrTail(items: seq<Json>, s: Text)
    ensures ElementText(Arr(items)) + s == [91] + (Items(items, true) + ([93] + s))
    ensures (ElementText(Arr(items)) + s)[1..] == Items(items, true) + ([93] + s)
  {
    Enclosed(91, Items(items, true), 93, s);
  }

  lemma ObjTail(fields: seq<Field>, s: Text)
    ensures ElementText(Obj(fields)) + s == [123] + (Members(fields, true) + ([125] + s))
    ensures (ElementText(Obj(fields)) + s)[1..] == Members(fields, true) + ([125] + s)
  {
    Enclosed(123, Members(fields, true), 125, s);
  }

  lemma {:induction false} ItemsDecode(xs: seq<Json>, ys: seq<Json>, first: bool, s: Text, t: Text)
    requires Items(xs, first) + ([93] + s) == Items(ys, first) + ([93] + t)
    ensures DenoteItems(xs) == DenoteItems(ys) && s == t
    decreases xs, 1
  {
    ItemsStart(xs, first, s);
    ItemsStart(ys, first, t);
    if xs == [] {
      assert ([93] + s)[1..] == s && ([93] + t)[1..] == t;
      assert Items(xs, first) + ([93] + s) == [93] + s && Items(ys, first) + ([93] + t) == [93] + t;
    } else {
      var restX, restY := Items(xs[1..], false) + ([93] + s), Items(ys[1..], false) + ([93] + t);
      ItemsStart(xs[1..], false, s);
      ItemsStart(ys[1..], false, t);
      CancelFront(if first then [] else [COMMA], ElementText(xs[0]) + restX, ElementText(ys[0]) + restY);
      ValueDecodes(xs[0], ys[0], restX, restY);
      ItemsDecode(xs[1..], ys[1..], false, s, t);
    }
  }

  lemma CancelFront(p: Text, a: Text, b: Text)
    requires p + a == p + b
    ensures a == b
  {
    assert (p + a)[|p|..] == a && (p + b)[|p|..] == b;
  }

  lemma MembersStart(fs: seq<Field>, first: bool, rest: Text)
    requires fs != [] ==> !fs[0].value.Undefined?
    ensures var t := Members(fs, first) + ([125] + rest);
      t[0] == 125 <==> fs == []
    ensures fs != [] ==>
      var tail := ElementText(fs[0].value) + (Members(fs[1..], false) + ([125] + rest));
      Members(fs, first) + ([125] + rest)
        == (if first then [] else [COMMA]) + (Quoted(fs[0].key) + ([COLON] + tail))
  {
  }

  lemma {:induction false} MembersStop(fs: seq<Field>, rest: Text)
    ensures Stop(Members(fs, false) + ([125] + rest))
  {
    if fs != [] && fs[0].value.Undefined? {
      MembersStop(fs[1..], rest);
    }
  }

  lemma {:induction false} MembersDecode(fs: seq<Field>, gs: seq<Field>, first: bool, s: Text, t: Text)
    requires Members(fs, first) + ([125] + s) == Members(gs, first) + ([125] + t)
    ensures DenoteFields(fs) == DenoteFields(gs) && s == t
    decreases fs, 1, gs
  {
    if fs != [] && fs[0].value.Undefined? {
      MembersDecode(fs[1..], gs, first, s, t);
    } else if gs != [] && gs[0].value.Undefined? {
      MembersDecode(fs, gs[1..], first, s, t);
    } else {
      MembersStart(fs, first, s);
      MembersStart(gs, first, t);
      if fs == [] {
        assert ([125] + s)[1..] == s && ([125] + t)[1..] == t;
        assert Members(fs, first) + ([125] + s) == [125] + s && Members(gs, first) + ([125] + t) == [125] + t;
      } else {
        FieldDecode(fs, gs, first, s, t);
      }
    }
  }

  lemma {:induction false} FieldDecode(fs: seq<Field>, gs: seq<Field>, first: bool, s: Text, t: Text)
    requires fs != [] && gs != [] && !fs[0].value.Undefined? && !gs[0].value.Undefined?
    requires Members(fs, first) + ([125] + s) == Members(gs, first) + ([125] + t)
    ensures DenoteFields(fs) == DenoteFields(gs) && s == t
    decreases fs, 0, gs
  {
    MembersStart(fs, first, s);
    MembersStart(gs, first, t);
    var restF, restG := Members(fs[1..], false) + ([125] + s), Members(gs[1..], false) + ([125] + t);
    var valueF, valueG := ElementText(fs[0].value) + restF, ElementText(gs[0].value) + restG;
    CancelFront(if first then [] else [COMMA],
                Quoted(fs[0].key) + ([COLON] + valueF), Quoted(gs[0].key) + ([COLON] + valueG));
    QuotedInjective(fs[0].key, [COLON] + valueF, gs[0].key, [COLON] + valueG);
    CancelFront([COLON], valueF, valueG);
    MembersStop(fs[1..], s);
    MembersStop(gs[1..], t);
    ValueDecodes(fs[0].value, gs[0].value, restF, restG);
    MembersDecode(fs[1..], gs[1..], false, s, t);
  }

  // ---- Sorting keeps the meaning -------------------------------------------

  /** A field map holds exactly the defined fields. */
  lemma {:induction false} FieldLookup(fs: seq<Field>, k: Text)
    requires DistinctKeys(fs)
    ensures k in DenoteFields(fs) <==> exists f :: f in fs && f.key == k && !f.value.Undefined?
    ensures forall f :: f in fs && f.key == k && !f.value.Undefined? ==> DenoteFields(fs)[k] == Denote(f.value)
  {
    if fs != [] {
      FieldLookup(fs[1..], k);
      assert fs == [fs[0]] + fs[1..];
      assert forall f :: f in fs[1..] ==> f.key != fs[0].key;
    }
  }

  lemma {:induction false} InsertMembers(f: Field, fs: seq<Field>)
    ensures multiset(Insert(f, fs)) == multiset(fs) + multiset{f}
    ensures forall g :: g in Insert(f, fs) <==> g == f || g in fs
  {
    if fs != [] {
      InsertMembers(f, fs[1..]);
      assert fs == [fs[0]] + fs[1..];
    }
  }

  lemma {:induction false} InsertSorted(f: Field, fs: seq<Field>)
    requires Sorted(fs) && forall g :: g in fs ==> g.key != f.key
    ensures Sorted(Insert(f, fs))
  {
    if fs == [] {
    } else if KeyLess(f.key, fs[0].key) {
      forall j | 0 <= j < |fs| ensures KeyLess(f.key, fs[j].key) {
        KeyLessOrders(f.key, fs[0].key, fs[j].key);
      }
    } else {
      InsertSorted(f, fs[1..]);
      KeyLessOrders(f.key, fs[0].key, f.key);
      var rest := Insert(f, fs[1..]);
      forall j | 0 <= j < |rest| ensures KeyLess(fs[0].key, rest[j].key) {
        InsertMembers(f, fs[1..]);
        assert rest[j] in rest;
        if rest[j] != f {
          var i :| 0 <= i < |fs[1..]| && fs[1..][i] == rest[j];
          assert fs[i + 1] == rest[j];
        }
      }
    }
  }

  lemma {:induction false} InsertKeepsMeaning(f: Field, fs: seq<Field>)
    requires forall g :: g in fs ==> g.key != f.key
    ensures DenoteFields(Insert(f, fs)) == DenoteFields([f] + fs)
  {
    assert ([f] + fs)[1..] == fs;
    if fs != [] && !KeyLess(f.key, fs[0].key) {
      var rest := Insert(f, fs[1..]);
      InsertKeepsMeaning(f, fs[1..]);
      assert ([fs[0]] + rest)[1..] == rest && ([f] + fs[1..])[1..] == fs[1..];
      assert fs[0] in fs;
    }
  }

  lemma {:induction false} SortKeysKeepsMeaning(v: Json)
    requires WellFormed(v)
    ensures Denote(SortKeys(v)) == Denote(v) && SortedDeep(SortKeys(v))
    decreases v, 1
  {
    match v
    case Arr(items) => SortItemsKeepsMeaning(items);
    case Obj(fields) => SortFieldsKeepsMeaning(fields);
    case _ =>
  }

  lemma {:induction false} SortItemsKeepsMeaning(items: seq<Json>)
    requires forall x | x in items :: WellFormed(x)
    ensures DenoteItems(SortItems(items)) == DenoteItems(items)
    ensures forall x | x in SortItems(items) :: SortedDeep(x)
    decreases items, 0
  {
    if items != [] {
      SortKeysKeepsMeaning(items[0]);
      SortItemsKeepsMeaning(items[1..]);
      assert SortItems(items)[1..] == SortItems(items[1..]);
    }
  }

  lemma {:induction false} SortFieldsKeepsMeaning(fields: seq<Field>)
    requires DistinctKeys(fields) && forall f | f in fields :: WellFormed(f.value)
    ensures DenoteFields(SortFields(fields)) == DenoteFields(fields)
    ensures Sorted(SortFields(fields)) && forall f | f in SortFields(fields) :: SortedDeep(f.value)
    decreases fields, 0
  {
    if fields != [] {
      assert fields[0] in fields;
      SortKeysKeepsMeaning(fields[0].value);
      SortFieldsKeepsMeaning(fields[1..]);
      var f, rest := Field(fields[0].key, SortKeys(fields[0].value)), SortFields(fields[1..]);
      forall g | g in rest ensures g.key != f.key {
        SortedFrom(fields[1..], g);
      }
      InsertSorted(f, rest);
      InsertKeepsMeaning(f, rest);
      InsertMembers(f, rest);
      assert ([f] + rest)[1..] == rest;
    }
  }

  /** Sorting invents no key. */
  lemma {:induction false} SortedFrom(fields: seq<Field>, g: Field)
    requires g in SortFields(fields)
    ensures exists f :: f in fields && f.key == g.key
  {
    var f := Field(fields[0].key, SortKeys(fields[0].value));
    InsertMembers(f, SortFields(fields[1..]));
    if g == f {
      assert fields[0] in fields;
    } else {
      SortedFrom(fields[1..], g);
      var h :| h in fields[1..] && h.key == g.key;
      assert h in fields;
    }
  }

  // ---- Equal meanings print alike ------------------------------------------

  lemma {:induction false} SameMeaningSameText(v: Json, w: Json)
    requires SortedDeep(v) && SortedDeep(w)
    requires ElementMeaning(v) == ElementMeaning(w)
    ensures ElementText(v) == ElementText(w)
    decreases v, 2
  {
    match v
    case Arr(items) => SameItems(items, w.items, true);
    case Obj(fields) => SameMembers(fields, w.fields, true);
    case _ =>
  }

  lemma {:induction false} SameItems(xs: seq<Json>, ys: seq<Json>, first: bool)
    requires (forall x | x in xs :: SortedDeep(x)) && (forall y | y in ys :: SortedDeep(y))
    requires DenoteItems(xs) == DenoteItems(ys)
    ensures Items(xs, first) == Items(ys, first)
    decreases xs, 1
  {
    if xs != [] {
      assert DenoteItems(xs)[0] == DenoteItems(ys)[0];
      assert DenoteItems(xs)[1..] == DenoteItems(xs[1..]) && DenoteItems(ys)[1..] == DenoteItems(ys[1..]);
      SameMeaningSameText(xs[0], ys[0]);
      SameItems(xs[1..], ys[1..], false);
    }
  }

  lemma SortedTail(fs: seq<Field>)
    requires Sorted(fs) && fs != []
    ensures Sorted(fs[1..]) && DistinctKeys(fs)
    ensures fs[0].key !in DenoteFields(fs[1..])
  {
    forall i, j | 0 <= i < j < |fs| ensures fs[i].key != fs[j].key {
      KeyLessOrders(fs[i].key, fs[j].key, fs[j].key);
    }
    FieldLookup(fs[1..], fs[0].key);
  }

  /** In a sorted object the first defined field holds the least key. */
  lemma LeastKey(fs: seq<Field>, k: Text)
    requires Sorted(fs) && fs != [] && k in DenoteFields(fs)
    ensures k == fs[0].key || KeyLess(fs[0].key, k)
  {
    SortedTail(fs);
    FieldLookup(fs, k);
    var f :| f in fs && f.key == k && !f.value.Undefined?;
    var j :| 0 <= j < |fs| && fs[j] == f;
  }

  lemma {:induction false} SameMembers(fs: seq<Field>, gs: seq<Field>, first: bool)
    requires Sorted(fs) && forall f | f in fs :: SortedDeep(f.value)
    requires Sorted(gs) && forall g | g in gs :: SortedDeep(g.value)
    requires DenoteFields(fs) == DenoteFields(gs)
    ensures Members(fs, first) == Members(gs, first)
    decreases fs, 1, gs
  {
    if fs != [] && fs[0].value.Undefined? {
      SortedTail(fs);
      SameMembers(fs[1..], gs, first);
    } else if gs != [] && gs[0].value.Undefined? {
      SortedTail(gs);
      SameMembers(fs, gs[1..], first);
    } else {
      assert gs != [] ==> gs[0].key in DenoteFields(gs);
      if fs != [] {
        SameFirstMember(fs, gs, first);
      }
    }
  }

  lemma {:induction false} SameFirstMember(fs: seq<Field>, gs: seq<Field>, first: bool)
    requires Sorted(fs) && forall f | f in fs :: SortedDeep(f.value)
    requires Sorted(gs) && forall g | g in gs :: SortedDeep(g.value)
    requires DenoteFields(fs) == DenoteFields(gs)
    requires fs != [] && !fs[0].value.Undefined? && (gs != [] ==> !gs[0].value.Undefined?)
    ensures Members(fs, first) == Members(gs, first)
    decreases fs, 0, gs
  {
    var k := fs[0].key;
    assert k in DenoteFields(gs);
    assert gs != [] && gs[0].key in DenoteFields(fs);
    LeastKey(gs, k);
    LeastKey(fs, gs[0].key);
    KeyLessOrders(k, gs[0].key, k);
    SortedTail(fs);
    SortedTail(gs);
    assert DenoteFields(fs)[k] == Denote(fs[0].value) && DenoteFields(gs)[k] == Denote(gs[0].value);
    assert DenoteFields(fs[1..]) == DenoteFields(fs) - {k} == DenoteFields(gs) - {k} == DenoteFields(gs[1..]);
    SameMeaningSameText(fs[0].value, gs[0].value);
    assert Stringify(fs[0].value) == Stringify(gs[0].value);
    SameMembers(fs[1..], gs[1..], false);
  }

  // ---- The canonical form --------------------------------------------------

  /** Two values have one fingerprint exactly when they mean the same thing. */
  lemma {:induction false} FingerprintCanonical(v: Json, w: Json)
    requires WellFormed(v) && WellFormed(w)
    ensures Fingerprint(v) == Fingerprint(w) <==> Denote(v) == Denote(w)
  {
    SortKeysKeepsMeaning(v);
    SortKeysKeepsMeaning(w);
    var x, y := SortKeys(v), SortKeys(w);
    FirstUnit(x);
    FirstUnit(y);
    if v.Undefined? || w.Undefined? {
    } else {
      if Fingerprint(v) == Fingerprint(w) {
        assert ElementText(x) + [] == ElementText(y) + [];
        ValueDecodes(x, y, [], []);
      }
      if Denote(v) == Denote(w) {
        SameMeaningSameText(x, y);
      }
    }
  }

  /** The same value with the properties of objects, at any depth, listed in another order. */
  ghost predicate Reordered(v: Json, w: Json) {
    match v
    case Arr(items) =>
      w.Arr? && |w.items| == |items| && forall i | 0 <= i < |items| :: Reordered(items[i], w.items[i])
    case Obj(fields) =>
      w.Obj? && (forall f | f in fields :: Listed(f, w.fields)) && (forall g | g in w.fields :: HasKey(fields, g.key))
    case _ => v == w
  }

  /** Another listing has the property, its value reordered. */
  ghost predicate Listed(f: Field, gs: seq<Field>) {
    exists j :: 0 <= j < |gs| && gs[j].key == f.key && Reordered(f.value, gs[j].value)
  }

  ghost predicate HasKey(fs: seq<Field>, k: Text) {
    exists i :: 0 <= i < |fs| && fs[i].key == k
  }

  lemma {:induction false} ReorderedMeansSame(v: Json, w: Json)
    requires WellFormed(v) && WellFormed(w) && Reordered(v, w)
    ensures Denote(v) == Denote(w)
    decreases v, 1
  {
    match v
    case Arr(items) => ReorderedItems(items, w.items);
    case Obj(fields) => ReorderedFields(fields, w.fields);
    case _ =>
  }

  lemma {:induction false} ReorderedFields(fs: seq<Field>, gs: seq<Field>)
    requires WellFormed(Obj(fs)) && WellFormed(Obj(gs)) && Reordered(Obj(fs), Obj(gs))
    ensures DenoteFields(fs) == DenoteFields(gs)
    decreases fs, 1
  {
    var m, n := DenoteFields(fs), DenoteFields(gs);
    forall k ensures (k in m <==> k in n) && (k in m ==> m[k] == n[k]) {
      ReorderedLookup(fs, gs, k);
    }
  }

  lemma {:induction false} ReorderedItems(xs: seq<Json>, ys: seq<Json>)
    requires |xs| == |ys| && forall i | 0 <= i < |xs| :: Reordered(xs[i], ys[i])
    requires (forall x | x in xs :: WellFormed(x)) && (forall y | y in ys :: WellFormed(y))
    ensures DenoteItems(xs) == DenoteItems(ys)
    decreases xs, 0
  {
    if xs != [] {
      assert Reordered(xs[0], ys[0]) && xs[0] in xs && ys[0] in ys;
      ReorderedMeansSame(xs[0], ys[0]);
      forall i | 0 <= i < |xs| - 1 ensures Reordered(xs[1..][i], ys[1..][i]) {
        assert Reordered(xs[i + 1], ys[i + 1]);
      }
      ReorderedItems(xs[1..], ys[1..]);
    }
  }

  /** One property, in one listing and in the other. */
  lemma {:induction false} ReorderedLookup(fs: seq<Field>, gs: seq<Field>, k: Text)
    requires WellFormed(Obj(fs)) && WellFormed(Obj(gs)) && Reordered(Obj(fs), Obj(gs))
    ensures k in DenoteFields(fs) <==> k in DenoteFields(gs)
    ensures k in DenoteFields(fs) ==> DenoteFields(fs)[k] == DenoteFields(gs)[k]
    decreases fs, 0
  {
    if HasKey(fs, k) {
      var i :| 0 <= i < |fs| && fs[i].key == k;
      assert Listed(fs[i], gs);
      var j :| 0 <= j < |gs| && gs[j].key == k && Reordered(fs[i].value, gs[j].value);
      assert WellFormed(fs[i].value) && WellFormed(gs[j].value);
      ReorderedMeansSame(fs[i].value, gs[j].value);
      LookupOf(fs, fs[i]);
      LookupOf(gs, gs[j]);
    } else {
      NoKeyNoField(fs, k);
      forall g | g in gs ensures g.key != k {
        assert HasKey(fs, g.key);
      }
      NoKeyNoField(gs, k);
    }
  }

  lemma NoKeyNoField(fs: seq<Field>, k: Text)
    requires DistinctKeys(fs) && !HasKey(fs, k)
    ensures k !in DenoteFields(fs)
  {
    FieldLookup(fs, k);
  }

  lemma LookupOf(fs: seq<Field>, f: Field)
    requires DistinctKeys(fs) && f in fs
    ensures f.key in DenoteFields(fs) <==> !f.value.Undefined?
    ensures !f.value.Undefined? ==> DenoteFields(fs)[f.key] == Denote(f.value)
  {
    FieldLookup(fs, f.key);
  }

  /** Reordering the properties of objects, at any depth, never changes the fingerprint. */
  lemma FingerprintIgnoresKeyOrder(v: Json, w: Json)
    requires WellFormed(v) && WellFormed(w) && Reordered(v, w)
    ensures Fingerprint(v) == Fingerprint(w)
  {
    ReorderedMeansSame(v, w);
    FingerprintCanonical(v, w);
  }

  /** Without undefined array elements the meaning keeps every array entry; with
      them two different arrays share a fingerprint. */
  lemma UndefinedElementCollides()
    ensures Arr([Undefined]) != Arr([Null])
    ensures Fingerprint(Arr([Undefined])) == Fingerprint(Arr([Null]))
  {
    assert [Undefined][1..] == [] && [Null][1..] == [];
    FingerprintCanonical(Arr([Undefined]), Arr([Null]));
  }
}
