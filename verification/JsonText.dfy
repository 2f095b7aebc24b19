/** JSON values and the text `JSON.stringify` gives them; the text determines the value. */
module JsonText {

  /** Numbers are kept as the text JavaScript prints for them; object fields are in insertion order. */
  datatype Json =
    | Null
    | Bool(b: bool)
    | Num(text: string)
    | Str(s: string)
    | Arr(items: seq<Json>)
    | Obj(fields: seq<Field>)

  datatype Field = Field(key: string, value: Json)

  const HEX: string := "0123456789abcdef"

  function Escape(c: char): string {
    if c == '"' then "\\\""
    else if c == '\\' then "\\\\"
    else if c as int == 8 then "\\b"
    else if c as int == 9 then "\\t"
    else if c as int == 10 then "\\n"
    else if c as int == 12 then "\\f"
    else if c as int == 13 then "\\r"
    else if (c as int) < 0x20 then "\\u00" + [HEX[c as int / 16], HEX[c as int % 16]]
    else [c]
  }

  function EscapeAll(s: string): string {
    if s == "" then "" else Escape(s[0]) + EscapeAll(s[1..])
  }

  function Quote(s: string): string {
    "\"" + EscapeAll(s) + "\""
  }

  function Stringify(v: Json): string
    decreases v, 1
  {
    match v
    case Null => "null"
    case Bool(b) => if b then "true" else "false"
    case Num(text) => text
    case Str(s) => Quote(s)
    case Arr(items) => "[" + (if items == [] then "]" else Stringify(items[0]) + MoreItems(items[1..]))
    case Obj(fields) => "{" + (if fields == [] then "}" else Member(fields[0]) + MoreFields(fields[1..]))
  }

  function MoreItems(items: seq<Json>): string
    decreases items, 0
  {
    if items == [] then "]" else "," + (Stringify(items[0]) + MoreItems(items[1..]))
  }

  function Member(f: Field): string
    decreases f, 0
  {
    Quote(f.key) + (":" + Stringify(f.value))
  }

  function MoreFields(fields: seq<Field>): string
    decreases fields, 0
  {
    if fields == [] then "}" else "," + (Member(fields[0]) + MoreFields(fields[1..]))
  }

  predicate Numeric(c: char) {
    '0' <= c <= '9' || c == '+' || c == '-' || c == '.' || c == 'e'
  }

  predicate IsNumber(text: string) {
    text != "" && ('0' <= text[0] <= '9' || text[0] == '-') && forall i | 0 <= i < |text| :: Numeric(text[i])
  }

  /** Numbers are numbers, and an object has each key once. */
  predicate Valid(v: Json)
    decreases v
  {
    match v
    case Num(text) => IsNumber(text)
    case Arr(items) => forall i | 0 <= i < |items| :: Valid(items[i])
    case Obj(fields) => DistinctKeys(fields) && forall i | 0 <= i < |fields| :: Valid(fields[i].value)
    case _ => true
  }

  predicate DistinctKeys(fields: seq<Field>) {
    forall i, j | 0 <= i < j < |fields| :: fields[i].key != fields[j].key
  }

  /** What may follow a value: the end of the text, or punctuation. */
  predicate Delimited(rest: string) {
    rest == "" || rest[0] == ',' || rest[0] == ']' || rest[0] == '}'
  }

  // Unique decoding

  /** The first characters of an escape say how long it is and what it stands for. */
  lemma EscapeShape(c: char, r: string)
    ensures var t := Escape(c) + r;
            && t[0] != '"'
            && (t[0] != '\\' ==> c == t[0] && |Escape(c)| == 1)
            && (t[0] == '\\' ==> 1 < |t| && |Escape(c)| == if t[1] == 'u' then 6 else 2)
            && (t[0] == '\\' && t[1] != 'u' ==> c == Unescape(t[1]))
            && (t[0] == '\\' && t[1] == 'u' ==>
               6 <= |t| && c as int < 0x20 && t[4] == HEX[c as int / 16] && t[5] == HEX[c as int % 16])
  {}

  function Unescape(c: char): char {
    if c == 'b' then 8 as char
    else if c == 't' then 9 as char
    else if c == 'n' then 10 as char
    else if c == 'f' then 12 as char
    else if c == 'r' then 13 as char
    else c
  }

  lemma HexUnique(i: nat, j: nat)
    requires i < 16 && j < 16 && HEX[i] == HEX[j]
    ensures i == j
  {}

  lemma EscapeUnique(c: char, d: char, r: string, q: string)
    requires Escape(c) + r == Escape(d) + q
    ensures c == d && r == q
  {
    hide Escape;
    EscapeShape(c, r);
    EscapeShape(d, q);
    var t := Escape(c) + r;
    if t[0] == '\\' && t[1] == 'u' {
      HexUnique(c as int / 16, d as int / 16);
      HexUnique(c as int % 16, d as int % 16);
    }
    assert r == t[|Escape(c)|..] && q == t[|Escape(d)|..];
  }

  lemma Assoc(a: string, b: string, c: string)
    ensures (a + b) + c == a + (b + c)
  {}

  lemma AfterFirst(c: char, x: string, y: string)
    requires [c] + x == [c] + y
    ensures x == y
  {
    assert x == ([c] + x)[1..] == ([c] + y)[1..] == y;
  }

  lemma Whole<T>(a: seq<T>, b: seq<T>)
    requires a != [] && b != [] && a[0] == b[0] && a[1..] == b[1..]
    ensures a == b
  {
    assert a == [a[0]] + a[1..] && b == [b[0]] + b[1..];
  }

  lemma EscapeAllOpens(s: string, r: string)
    ensures s != "" ==> EscapeAll(s) + r == Escape(s[0]) + (EscapeAll(s[1..]) + r)
    ensures s == "" ==> EscapeAll(s) + r == r
  {
    hide Escape;
    if s != "" { Assoc(Escape(s[0]), EscapeAll(s[1..]), r); } else { assert EscapeAll(s) + r == r; }
  }

  /** Escaped text never starts with a quote, so the closing quote is found. */
  lemma QuoteShows(s: string, r: string)
    ensures (EscapeAll(s) + ("\"" + r))[0] == '"' <==> s == ""
  {
    hide Escape;
    EscapeAllOpens(s, "\"" + r);
    if s != "" { EscapeShape(s[0], EscapeAll(s[1..]) + ("\"" + r)); }
  }

  lemma {:induction false} QuoteUnique(s: string, t: string, r: string, q: string)
    requires EscapeAll(s) + ("\"" + r) == EscapeAll(t) + ("\"" + q)
    ensures s == t && r == q
    decreases |s|
  {
    hide Escape, EscapeAll;
    QuoteShows(s, r);
    QuoteShows(t, q);
    EscapeAllOpens(s, "\"" + r);
    EscapeAllOpens(t, "\"" + q);
    if s != "" {
      EscapeUnique(s[0], t[0], EscapeAll(s[1..]) + ("\"" + r), EscapeAll(t[1..]) + ("\"" + q));
      QuoteUnique(s[1..], t[1..], r, q);
      Whole(s, t);
    } else {
      AfterFirst('"', r, q);
    }
  }

  lemma NumberNoShorter(x: string, y: string, r: string, q: string)
    requires IsNumber(y) && Delimited(r) && x + r == y + q
    ensures |y| <= |x|
  {
    var t := x + r;
    forall i | 0 <= i < |y| ensures Numeric(t[i]) {
      assert t[i] == y[i];
    }
    assert r != "" ==> t[|x|] == r[0];
  }

  /** A number ends where the text stops being numeric. */
  lemma NumberUnique(x: string, y: string, r: string, q: string)
    requires IsNumber(x) && IsNumber(y) && Delimited(r) && Delimited(q) && x + r == y + q
    ensures x == y && r == q
  {
    hide IsNumber, Delimited;
    NumberNoShorter(x, y, r, q);
    NumberNoShorter(y, x, q, r);
    assert r == (x + r)[|x|..] && q == (y + q)[|y|..] && x == (x + r)[..|x|] && y == (y + q)[..|y|];
  }

  /** The first character of a value's text tells its kind. */
  function Kind(v: Json): char {
    match v
    case Null => 'n'
    case Bool(b) => if b then 't' else 'f'
    case Num(_) => '0'
    case Str(_) => '"'
    case Arr(_) => '['
    case Obj(_) => '{'
  }

  lemma KindShows(v: Json)
    requires Valid(v)
    ensures Stringify(v) != ""
    ensures Kind(v) == if Numeric(Stringify(v)[0]) then '0' else Stringify(v)[0]
    ensures Stringify(v)[0] != ']' && Stringify(v)[0] != '}' && Stringify(v)[0] != 'e'
  {}

  lemma MoreShows(items: seq<Json>, fields: seq<Field>, r: string)
    ensures (MoreItems(items) + r)[0] == if items == [] then ']' else ','
    ensures (MoreFields(fields) + r)[0] == if fields == [] then '}' else ','
    ensures Delimited(MoreItems(items) + r) && Delimited(MoreFields(fields) + r)
  {
    hide Stringify, Member;
  }

  lemma MoreItemsOpens(a: seq<Json>, r: string)
    ensures MoreItems(a) + r == if a == [] then "]" + r else "," + (Stringify(a[0]) + (MoreItems(a[1..]) + r))
  {
    hide Stringify;
    if a != [] {
      Assoc(",", Stringify(a[0]) + MoreItems(a[1..]), r);
      Assoc(Stringify(a[0]), MoreItems(a[1..]), r);
    }
  }

  lemma MoreFieldsOpens(a: seq<Field>, r: string)
    ensures MoreFields(a) + r == if a == [] then "}" + r else "," + (Member(a[0]) + (MoreFields(a[1..]) + r))
  {
    hide Member;
    if a != [] {
      Assoc(",", Member(a[0]) + MoreFields(a[1..]), r);
      Assoc(Member(a[0]), MoreFields(a[1..]), r);
    }
  }

  /** A non-empty array or object reads like its tail, with the opening bracket for the first comma. */
  lemma ArrayOpens(a: seq<Json>, r: string)
    ensures "," + (Stringify(Arr(a)) + r)[1..] == if a == [] then ",]" + r else MoreItems(a) + r
  {
    if a != [] { Reopen('[', Stringify(a[0]) + MoreItems(a[1..]), r); }
  }

  lemma ObjectOpens(b: seq<Field>, r: string)
    ensures "," + (Stringify(Obj(b)) + r)[1..] == if b == [] then ",}" + r else MoreFields(b) + r
  {
    hide Member;
    if b != [] { Reopen('{', Member(b[0]) + MoreFields(b[1..]), r); }
  }

  lemma Reopen(c: char, x: string, r: string)
    ensures "," + (([c] + x) + r)[1..] == ("," + x) + r
  {
    assert (([c] + x) + r)[1..] == x + r;
  }

  /** The text of a value, followed by the end or by punctuation, determines the value and what follows. */
  lemma {:induction false} TextUnique(v: Json, w: Json, r: string, q: string)
    requires Valid(v) && Valid(w) && Delimited(r) && Delimited(q)
    requires Stringify(v) + r == Stringify(w) + q
    ensures v == w && r == q
    decreases v, 2
  {
    hide Quote, Member, MoreItems, MoreFields, Delimited;
    SameKind(v, w, r, q);
    match v
    case Null => assert r == (Stringify(v) + r)[4..] && q == (Stringify(w) + q)[4..];
    case Bool(b) =>
      var n := if b then 4 else 5;
      assert r == (Stringify(v) + r)[n..] && q == (Stringify(w) + q)[n..];
    case Num(x) => NumberUnique(x, w.text, r, q);
    case Str(s) => StringsUnique(s, w.s, r, q);
    case Arr(items) => ArraysUnique(items, w.items, r, q);
    case Obj(fields) => ObjectsUnique(fields, w.fields, r, q);
  }

  lemma SameKind(v: Json, w: Json, r: string, q: string)
    requires Valid(v) && Valid(w) && Stringify(v) + r == Stringify(w) + q
    ensures Kind(v) == Kind(w)
  {
    hide Stringify, Valid;
    KindShows(v);
    KindShows(w);
    assert Stringify(v)[0] == (Stringify(v) + r)[0] == Stringify(w)[0];
  }

  lemma QuoteOpens(s: string, r: string)
    ensures Quote(s) + r == "\"" + (EscapeAll(s) + ("\"" + r))
  {
    hide EscapeAll;
    Assoc("\"", EscapeAll(s) + "\"", r);
    Assoc("\"" + EscapeAll(s), "\"", r);
    Assoc("\"", EscapeAll(s), "\"" + r);
  }

  lemma StringsUnique(s: string, t: string, r: string, q: string)
    requires Quote(s) + r == Quote(t) + q
    ensures s == t && r == q
  {
    hide Quote, EscapeAll;
    QuoteOpens(s, r);
    QuoteOpens(t, q);
    AfterFirst('"', EscapeAll(s) + ("\"" + r), EscapeAll(t) + ("\"" + q));
    QuoteUnique(s, t, r, q);
  }

  lemma {:induction false} ArraysUnique(a: seq<Json>, b: seq<Json>, r: string, q: string)
    requires (forall i | 0 <= i < |a| :: Valid(a[i])) && (forall i | 0 <= i < |b| :: Valid(b[i]))
    requires Delimited(r) && Delimited(q) && Stringify(Arr(a)) + r == Stringify(Arr(b)) + q
    ensures a == b && r == q
    decreases a, 1
  {
    hide Stringify, Valid, Delimited;
    SameEmpty(a, b, r, q);
    ArrayOpens(a, r);
    ArrayOpens(b, q);
    if a == [] {
      assert r == (",]" + r)[2..] && q == (",]" + q)[2..];
    } else {
      MoreItemsUnique(a, b, r, q);
    }
  }

  lemma SameEmpty(a: seq<Json>, b: seq<Json>, r: string, q: string)
    requires (forall i | 0 <= i < |a| :: Valid(a[i])) && (forall i | 0 <= i < |b| :: Valid(b[i]))
    requires Stringify(Arr(a)) + r == Stringify(Arr(b)) + q
    ensures a == [] <==> b == []
  {
    hide Valid;
    if a != [] { KindShows(a[0]); }
    if b != [] { KindShows(b[0]); }
    assert (Stringify(Arr(a)) + r)[1] == (Stringify(Arr(b)) + q)[1];
  }

  lemma {:induction false} MoreItemsUnique(a: seq<Json>, b: seq<Json>, r: string, q: string)
    requires (forall i | 0 <= i < |a| :: Valid(a[i])) && (forall i | 0 <= i < |b| :: Valid(b[i]))
    requires Delimited(r) && Delimited(q) && MoreItems(a) + r == MoreItems(b) + q
    ensures a == b && r == q
    decreases a, 0
  {
    hide Stringify, MoreItems, Valid, Delimited;
    MoreItemsOpens(a, r);
    MoreItemsOpens(b, q);
    MoreShows(a, [], r);
    MoreShows(b, [], q);
    if a == [] {
      AfterFirst(']', r, q);
    } else {
      MoreShows(a[1..], [], r);
      MoreShows(b[1..], [], q);
      AfterFirst(',', Stringify(a[0]) + (MoreItems(a[1..]) + r), Stringify(b[0]) + (MoreItems(b[1..]) + q));
      TextUnique(a[0], b[0], MoreItems(a[1..]) + r, MoreItems(b[1..]) + q);
      MoreItemsUnique(a[1..], b[1..], r, q);
      Whole(a, b);
    }
  }

  lemma MemberOpens(f: Field, r: string)
    ensures Member(f) + r == Quote(f.key) + (":" + (Stringify(f.value) + r))
  {
    hide Quote, Stringify;
    Assoc(Quote(f.key), ":" + Stringify(f.value), r);
    Assoc(":", Stringify(f.value), r);
  }

  lemma {:induction false} MembersUnique(f: Field, g: Field, r: string, q: string)
    requires Valid(f.value) && Valid(g.value) && Delimited(r) && Delimited(q) && Member(f) + r == Member(g) + q
    ensures f == g && r == q
    decreases f, 3
  {
    hide Quote, Stringify, Member, Valid, Delimited;
    MemberOpens(f, r);
    MemberOpens(g, q);
    StringsUnique(f.key, g.key, ":" + (Stringify(f.value) + r), ":" + (Stringify(g.value) + q));
    AfterFirst(':', Stringify(f.value) + r, Stringify(g.value) + q);
    TextUnique(f.value, g.value, r, q);
  }

  lemma {:induction false} ObjectsUnique(a: seq<Field>, b: seq<Field>, r: string, q: string)
    requires (forall i | 0 <= i < |a| :: Valid(a[i].value)) && (forall i | 0 <= i < |b| :: Valid(b[i].value))
    requires Delimited(r) && Delimited(q) && Stringify(Obj(a)) + r == Stringify(Obj(b)) + q
    ensures a == b && r == q
    decreases a, 1
  {
    hide Stringify, Valid, Delimited;
    SameBare(a, b, r, q);
    ObjectOpens(a, r);
    ObjectOpens(b, q);
    if a == [] {
      assert r == (",}" + r)[2..] && q == (",}" + q)[2..];
    } else {
      MoreFieldsUnique(a, b, r, q);
    }
  }

  lemma SameBare(a: seq<Field>, b: seq<Field>, r: string, q: string)
    requires Stringify(Obj(a)) + r == Stringify(Obj(b)) + q
    ensures a == [] <==> b == []
  {
    assert (Stringify(Obj(a)) + r)[1] == (Stringify(Obj(b)) + q)[1];
  }

  lemma {:induction false} MoreFieldsUnique(a: seq<Field>, b: seq<Field>, r: string, q: string)
    requires (forall i | 0 <= i < |a| :: Valid(a[i].value)) && (forall i | 0 <= i < |b| :: Valid(b[i].value))
    requires Delimited(r) && Delimited(q) && MoreFields(a) + r == MoreFields(b) + q
    ensures a == b && r == q
    decreases a, 0
  {
    hide Member, MoreFields, Valid, Delimited;
    MoreFieldsOpens(a, r);
    MoreFieldsOpens(b, q);
    MoreShows([], a, r);
    MoreShows([], b, q);
    if a == [] {
      AfterFirst('}', r, q);
    } else {
      MoreShows([], a[1..], r);
      MoreShows([], b[1..], q);
      AfterFirst(',', Member(a[0]) + (MoreFields(a[1..]) + r), Member(b[0]) + (MoreFields(b[1..]) + q));
      MembersUnique(a[0], b[0], MoreFields(a[1..]) + r, MoreFields(b[1..]) + q);
      MoreFieldsUnique(a[1..], b[1..], r, q);
      Whole(a, b);
    }
  }

  /** Stringify is injective. */
  lemma StringifyInjective(v: Json, w: Json)
    requires Valid(v) && Valid(w) && Stringify(v) == Stringify(w)
    ensures v == w
  {
    hide Stringify, Valid;
    assert Stringify(v) + "" == Stringify(w) + "";
    TextUnique(v, w, "", "");
  }
}
