/** The canonical text of a JSON value: object keys are sorted at every depth and array order is kept. */
module Canonical {
  import opened JsonText

  /**
    * `before` is the order in which the keys of a rebuilt object are enumerated: that of
    * `localeCompare`, with the integer-like keys that JavaScript enumerates first put first.
    */
  type KeyOrder = (string, string) -> bool

  ghost predicate TotalOrder(before: KeyOrder) {
    && (forall k :: !before(k, k))
    && (forall k, l, m :: before(k, l) && before(l, m) ==> before(k, m))
    && (forall k, l :: k == l || before(k, l) || before(l, k))
  }

  function SortKeysDeep(v: Json, before: KeyOrder): Json
    decreases v, 1
  {
    match v
    case Arr(items) => Arr(SortEach(items, before))
    case Obj(fields) => Obj(SortFields(fields, before))
    case _ => v
  }

  function SortEach(items: seq<Json>, before: KeyOrder): seq<Json>
    decreases items, 0
  {
    if items == [] then [] else [SortKeysDeep(items[0], before)] + SortEach(items[1..], before)
  }

  function SortFields(fields: seq<Field>, before: KeyOrder): seq<Field>
    decreases fields, 0
  {
    if fields == [] then [] else Insert(SortValue(fields[0], before), SortFields(fields[1..], before), before)
  }

  function SortValue(f: Field, before: KeyOrder): Field
    decreases f, 0
  {
    Field(f.key, SortKeysDeep(f.value, before))
  }

  function Insert(f: Field, fields: seq<Field>, before: KeyOrder): seq<Field> {
    if fields == [] then [f]
    else if before(fields[0].key, f.key) then [fields[0]] + Insert(f, fields[1..], before)
    else [f] + fields
  }

  function CanonicalStringify(v: Json, before: KeyOrder): string {
    Stringify(SortKeysDeep(v, before))
  }

  /** The same JSON value: object fields in any order, array items in the same order. */
  predicate Same(v: Json, w: Json)
    decreases v, 1
  {
    match v
    case Arr(items) =>
      && w.Arr? && |items| == |w.items|
      && forall i | 0 <= i < |items| :: Same(items[i], w.items[i])
    case Obj(fields) =>
      && w.Obj?
      && (forall i | 0 <= i < |fields| :: HasSame(fields[i], w.fields))
      && (forall j | 0 <= j < |w.fields| :: HasKey(fields, w.fields[j].key))
    case _ => v == w
  }

  predicate HasSame(f: Field, fields: seq<Field>)
    decreases f, 0
  {
    exists j | 0 <= j < |fields| :: f.key == fields[j].key && Same(f.value, fields[j].value)
  }

  predicate HasKey(fields: seq<Field>, key: string) {
    exists i | 0 <= i < |fields| :: fields[i].key == key
  }

  // Sorting

  predicate Ascending(fields: seq<Field>, before: KeyOrder) {
    forall i, j | 0 <= i < j < |fields| :: before(fields[i].key, fields[j].key)
  }

  lemma {:induction false} InsertContents(f: Field, fields: seq<Field>, before: KeyOrder)
    ensures forall g :: g in Insert(f, fields, before) <==> g == f || g in fields
  {
    if fields != [] {
      InsertContents(f, fields[1..], before);
      assert fields == [fields[0]] + fields[1..];
    }
  }

  lemma {:induction false} InsertAscending(f: Field, fields: seq<Field>, before: KeyOrder)
    requires TotalOrder(before) && Ascending(fields, before) && !HasKey(fields, f.key)
    ensures Ascending(Insert(f, fields, before), before)
  {
    if fields != [] {
      var rest := fields[1..];
      assert fields[0].key != f.key;
      assert forall i | 0 <= i < |rest| :: rest[i] == fields[i + 1];
      if before(fields[0].key, f.key) {
        InsertAscending(f, rest, before);
        InsertContents(f, rest, before);
        var sorted := Insert(f, rest, before);
        forall i | 0 <= i < |sorted| ensures before(fields[0].key, sorted[i].key) {
          assert sorted[i] in sorted;
        }
      } else {
        assert before(f.key, fields[0].key);
        forall i | 0 <= i < |fields| ensures before(f.key, fields[i].key) {}
      }
    }
  }

  lemma {:induction false} SortFieldsContents(fields: seq<Field>, before: KeyOrder)
    ensures forall i | 0 <= i < |fields| :: SortValue(fields[i], before) in SortFields(fields, before)
    ensures forall g | g in SortFields(fields, before) :: exists i | 0 <= i < |fields| ::
            g == SortValue(fields[i], before)
  {
    hide SortValue;
    if fields != [] {
      var rest := fields[1..];
      SortFieldsContents(rest, before);
      InsertContents(SortValue(fields[0], before), SortFields(rest, before), before);
      assert forall i | 0 <= i < |rest| :: rest[i] == fields[i + 1];
      forall i | 0 <= i < |fields| ensures SortValue(fields[i], before) in SortFields(fields, before) {
        if i > 0 { assert fields[i] == rest[i - 1]; }
      }
      forall g | g in SortFields(fields, before)
        ensures exists i | 0 <= i < |fields| :: g == SortValue(fields[i], before) {
        if g != SortValue(fields[0], before) {
          var i :| 0 <= i < |rest| && g == SortValue(rest[i], before);
          assert g == SortValue(fields[i + 1], before);
        }
      }
    }
  }

  lemma {:induction false} SortFieldsAscending(fields: seq<Field>, before: KeyOrder)
    requires TotalOrder(before) && DistinctKeys(fields)
    ensures Ascending(SortFields(fields, before), before)
  {
    hide TotalOrder, Ascending, Insert;
    if fields != [] {
      SortFieldsAscending(fields[1..], before);
      NewKey(fields, before);
      InsertAscending(SortValue(fields[0], before), SortFields(fields[1..], before), before);
    } else {
      EmptyAscending(before);
    }
  }

  lemma NewKey(fields: seq<Field>, before: KeyOrder)
    requires fields != [] && DistinctKeys(fields)
    ensures !HasKey(SortFields(fields[1..], before), SortValue(fields[0], before).key)
  {
    var rest := fields[1..];
    var sorted := SortFields(rest, before);
    SortFieldsContents(rest, before);
    forall g | g in sorted ensures g.key != fields[0].key {
      var i :| 0 <= i < |rest| && g == SortValue(rest[i], before);
      assert rest[i] == fields[i + 1];
    }
  }

  lemma EmptyAscending(before: KeyOrder)
    ensures Ascending([], before)
  {}

  /** An ascending list is determined by the fields in it. */
  lemma {:induction false} AscendingUnique(a: seq<Field>, b: seq<Field>, before: KeyOrder)
    requires TotalOrder(before) && Ascending(a, before) && Ascending(b, before)
    requires forall f :: f in a <==> f in b
    ensures a == b
  {
    assert a != [] ==> a[0] in b;
    assert b != [] ==> b[0] in a;
    if a != [] {
      SameLeast(a, b, before);
      forall f ensures f in a[1..] <==> f in b[1..] {
        if f in a[1..] { SameTail(a, b, f, before); }
        if f in b[1..] { SameTail(b, a, f, before); }
      }
      TailAscending(a, before);
      TailAscending(b, before);
      AscendingUnique(a[1..], b[1..], before);
      Whole(a, b);
    }
  }

  lemma TailAscending(a: seq<Field>, before: KeyOrder)
    requires a != [] && Ascending(a, before)
    ensures Ascending(a[1..], before)
  {
    assert forall i | 0 <= i < |a| - 1 :: a[1..][i] == a[i + 1];
  }

  lemma SameLeast(a: seq<Field>, b: seq<Field>, before: KeyOrder)
    requires TotalOrder(before) && Ascending(a, before) && Ascending(b, before)
    requires a != [] && b != [] && a[0] in b && b[0] in a
    ensures a[0] == b[0]
  {
    var i :| 0 <= i < |b| && b[i] == a[0];
    var j :| 0 <= j < |a| && a[j] == b[0];
  }

  lemma SameTail(a: seq<Field>, b: seq<Field>, f: Field, before: KeyOrder)
    requires TotalOrder(before) && Ascending(a, before)
    requires a != [] && b != [] && a[0] == b[0] && f in a[1..] && f in b
    ensures f in b[1..]
  {
    assert b == [b[0]] + b[1..];
  }

  // The canonical value

  lemma {:induction false} SortEachAt(items: seq<Json>, before: KeyOrder)
    ensures |SortEach(items, before)| == |items|
    ensures forall i | 0 <= i < |items| :: SortEach(items, before)[i] == SortKeysDeep(items[i], before)
  {
    hide SortKeysDeep;
    if items != [] {
      SortEachAt(items[1..], before);
      forall i | 0 <= i < |items| ensures SortEach(items, before)[i] == SortKeysDeep(items[i], before) {
        if i > 0 { assert items[i] == items[1..][i - 1]; }
      }
    }
  }

  /** Sorting the keys of a value gives the same value. */
  lemma {:induction false} SortingKeeps(v: Json, before: KeyOrder)
    ensures Same(v, SortKeysDeep(v, before))
    decreases v
  {
    match v
    case Arr(items) =>
      SortEachAt(items, before);
      forall i | 0 <= i < |items| ensures Same(items[i], SortKeysDeep(items[i], before)) {
        SortingKeeps(items[i], before);
      }
    case Obj(fields) =>
      SortFieldsContents(fields, before);
      forall i | 0 <= i < |fields| ensures Same(fields[i].value, SortValue(fields[i], before).value) {
        SortingKeeps(fields[i].value, before);
      }
      SortedObjectSame(fields, before);
    case _ =>
  }

  lemma SortedObjectSame(fields: seq<Field>, before: KeyOrder)
    requires forall i | 0 <= i < |fields| :: Same(fields[i].value, SortValue(fields[i], before).value)
    ensures Same(Obj(fields), SortKeysDeep(Obj(fields), before))
  {
    var sorted := SortFields(fields, before);
    SortFieldsContents(fields, before);
    forall i | 0 <= i < |fields| ensures HasSame(fields[i], sorted) {
      var j :| 0 <= j < |sorted| && sorted[j] == SortValue(fields[i], before);
    }
    forall j | 0 <= j < |sorted| ensures HasKey(fields, sorted[j].key) {
      assert sorted[j] in sorted;
    }
  }

  /** The same value sorts to the same canonical value. */
  lemma {:induction false} SameSortsAlike(v: Json, w: Json, before: KeyOrder)
    requires TotalOrder(before) && Valid(v) && Valid(w) && Same(v, w)
    ensures SortKeysDeep(v, before) == SortKeysDeep(w, before)
    decreases v
  {
    hide TotalOrder;
    match v
    case Arr(items) =>
      SortEachAt(items, before);
      SortEachAt(w.items, before);
      forall i | 0 <= i < |items| ensures SortKeysDeep(items[i], before) == SortKeysDeep(w.items[i], before) {
        SameSortsAlike(items[i], w.items[i], before);
      }
      assert SortEach(items, before) == SortEach(w.items, before);
    case Obj(fields) =>
      forall i, j | 0 <= i < |fields| && 0 <= j < |w.fields| && Same(fields[i].value, w.fields[j].value)
        ensures SortKeysDeep(fields[i].value, before) == SortKeysDeep(w.fields[j].value, before)
      {
        SameSortsAlike(fields[i].value, w.fields[j].value, before);
      }
      SameFieldsSortAlike(fields, w.fields, before);
    case _ =>
  }

  /** Every field of one list sorts to a field that the other list has too. */
  predicate Covered(a: seq<Field>, b: seq<Field>, before: KeyOrder) {
    forall i | 0 <= i < |a| :: SortsInto(a[i], b, before)
  }

  predicate SortsInto(f: Field, fields: seq<Field>, before: KeyOrder) {
    exists j | 0 <= j < |fields| :: SortValue(f, before) == SortValue(fields[j], before)
  }

  lemma SameField(f: Field, b: seq<Field>, before: KeyOrder)
    requires HasSame(f, b)
    requires forall j | 0 <= j < |b| && Same(f.value, b[j].value) ::
             SortKeysDeep(f.value, before) == SortKeysDeep(b[j].value, before)
    ensures SortsInto(f, b, before)
  {
    hide SortKeysDeep, Same;
    var j :| 0 <= j < |b| && f.key == b[j].key && Same(f.value, b[j].value);
    assert SortValue(f, before) == SortValue(b[j], before);
  }

  /** Keys are distinct, so the field with the same key is the field with the same value. */
  lemma SameBack(a: seq<Field>, b: seq<Field>, j: nat, before: KeyOrder)
    requires j < |b| && DistinctKeys(b) && HasKey(a, b[j].key) && Covered(a, b, before)
    ensures SortsInto(b[j], a, before)
  {
    hide SortKeysDeep;
    var i :| 0 <= i < |a| && a[i].key == b[j].key;
    assert SortsInto(a[i], b, before);
    var k :| 0 <= k < |b| && SortValue(a[i], before) == SortValue(b[k], before);
    assert k == j;
    assert SortValue(b[j], before) == SortValue(a[i], before);
  }

  lemma SameFieldsSortAlike(a: seq<Field>, b: seq<Field>, before: KeyOrder)
    requires TotalOrder(before) && DistinctKeys(a) && DistinctKeys(b) && Same(Obj(a), Obj(b))
    requires forall i, j | 0 <= i < |a| && 0 <= j < |b| && Same(a[i].value, b[j].value) ::
               SortKeysDeep(a[i].value, before) == SortKeysDeep(b[j].value, before)
    ensures SortFields(a, before) == SortFields(b, before)
  {
    hide TotalOrder, SortFields, SortKeysDeep, HasSame, HasKey, SortsInto, DistinctKeys;
    forall i | 0 <= i < |a| ensures SortsInto(a[i], b, before) { SameField(a[i], b, before); }
    forall j | 0 <= j < |b| ensures SortsInto(b[j], a, before) { SameBack(a, b, j, before); }
    CoveredAlike(a, b, before);
  }

  lemma CoveredAlike(a: seq<Field>, b: seq<Field>, before: KeyOrder)
    requires TotalOrder(before) && DistinctKeys(a) && DistinctKeys(b) && Covered(a, b, before) && Covered(b, a, before)
    ensures SortFields(a, before) == SortFields(b, before)
  {
    hide TotalOrder, SortFields, SortValue, DistinctKeys;
    SortFieldsContents(a, before);
    SortFieldsContents(b, before);
    SortFieldsAscending(a, before);
    SortFieldsAscending(b, before);
    AscendingUnique(SortFields(a, before), SortFields(b, before), before);
  }

  lemma AlikeCovered(a: seq<Field>, b: seq<Field>, before: KeyOrder)
    requires SortFields(a, before) == SortFields(b, before)
    ensures Covered(a, b, before)
  {
    hide SortFields, SortValue;
    SortFieldsContents(a, before);
    SortFieldsContents(b, before);
    forall i | 0 <= i < |a| ensures SortsInto(a[i], b, before) {
      assert SortValue(a[i], before) in SortFields(b, before);
    }
  }

  /** Values with one canonical value are the same. */
  lemma {:induction false} AlikeAreSame(v: Json, w: Json, before: KeyOrder)
    requires SortKeysDeep(v, before) == SortKeysDeep(w, before)
    ensures Same(v, w)
    decreases v
  {
    match v
    case Arr(items) =>
      SortEachAt(items, before);
      SortEachAt(w.items, before);
      forall i | 0 <= i < |items| ensures Same(items[i], w.items[i]) { AlikeAreSame(items[i], w.items[i], before); }
    case Obj(fields) =>
      forall i, j | 0 <= i < |fields| && 0 <= j < |w.fields|
        && SortValue(fields[i], before) == SortValue(w.fields[j], before)
        ensures Same(fields[i].value, w.fields[j].value)
      {
        AlikeAreSame(fields[i].value, w.fields[j].value, before);
      }
      AlikeFieldsSame(fields, w.fields, before);
    case _ =>
  }

  lemma AlikeField(f: Field, b: seq<Field>, before: KeyOrder)
    requires SortsInto(f, b, before)
    requires forall j | 0 <= j < |b| && SortValue(f, before) == SortValue(b[j], before) :: Same(f.value, b[j].value)
    ensures HasSame(f, b) && HasKey(b, f.key)
  {
    hide SortKeysDeep, Same;
    var j :| 0 <= j < |b| && SortValue(f, before) == SortValue(b[j], before);
    assert f.key == b[j].key && Same(f.value, b[j].value);
  }

  lemma AlikeKey(f: Field, b: seq<Field>, before: KeyOrder)
    requires SortsInto(f, b, before)
    ensures HasKey(b, f.key)
  {
    hide SortKeysDeep;
    var j :| 0 <= j < |b| && SortValue(f, before) == SortValue(b[j], before);
  }

  lemma AlikeFieldsSame(a: seq<Field>, b: seq<Field>, before: KeyOrder)
    requires SortFields(a, before) == SortFields(b, before)
    requires forall i, j | 0 <= i < |a| && 0 <= j < |b| && SortValue(a[i], before) == SortValue(b[j], before) ::
             Same(a[i].value, b[j].value)
    ensures Same(Obj(a), Obj(b))
  {
    hide SortFields, SortKeysDeep, SortValue, HasSame, HasKey, SortsInto;
    AlikeCovered(a, b, before);
    AlikeCovered(b, a, before);
    forall i | 0 <= i < |a| ensures HasSame(a[i], b) { AlikeField(a[i], b, before); }
    forall j | 0 <= j < |b| ensures HasKey(a, b[j].key) { AlikeKey(b[j], a, before); }
  }

  lemma {:induction false} SortingValid(v: Json, before: KeyOrder)
    requires TotalOrder(before) && Valid(v)
    ensures Valid(SortKeysDeep(v, before))
    decreases v
  {
    hide TotalOrder;
    match v
    case Arr(items) =>
      SortEachAt(items, before);
      forall i | 0 <= i < |items| ensures Valid(SortKeysDeep(items[i], before)) { SortingValid(items[i], before); }
    case Obj(fields) =>
      var sorted := SortFields(fields, before);
      SortFieldsContents(fields, before);
      forall i | 0 <= i < |fields| ensures Valid(SortValue(fields[i], before).value) {
        SortingValid(fields[i].value, before);
      }
      forall j | 0 <= j < |sorted| ensures Valid(sorted[j].value) { assert sorted[j] in sorted; }
      SortFieldsAscending(fields, before);
      AscendingDistinct(sorted, before);
    case _ =>
  }

  lemma AscendingDistinct(fields: seq<Field>, before: KeyOrder)
    requires TotalOrder(before) && Ascending(fields, before)
    ensures DistinctKeys(fields)
  {}

  /** The canonical text is exact: two values have one text if and only if they are the same value. */
  lemma CanonicalExact(v: Json, w: Json, before: KeyOrder)
    requires TotalOrder(before) && Valid(v) && Valid(w)
    ensures CanonicalStringify(v, before) == CanonicalStringify(w, before) <==> Same(v, w)
  {
    hide TotalOrder, Valid, Same, SortKeysDeep, Stringify;
    SortingValid(v, before);
    SortingValid(w, before);
    if CanonicalStringify(v, before) == CanonicalStringify(w, before) {
      StringifyInjective(SortKeysDeep(v, before), SortKeysDeep(w, before));
      AlikeAreSame(v, w, before);
    }
    if Same(v, w) { SameSortsAlike(v, w, before); }
  }

  /** Sorting a sorted value changes nothing, so reading a canonical payload back keeps its text. */
  lemma SortingIdempotent(v: Json, before: KeyOrder)
    requires TotalOrder(before) && Valid(v)
    ensures SortKeysDeep(SortKeysDeep(v, before), before) == SortKeysDeep(v, before)
  {
    hide TotalOrder, Valid, Same, SortKeysDeep;
    SortingKeeps(v, before);
    SortingValid(v, before);
    SameSortsAlike(v, SortKeysDeep(v, before), before);
  }

  // Texts

  lemma QuoteOne(c: char)
    ensures Quote([c]) == "\"" + Escape(c) + "\""
  {
    assert EscapeAll([c]) == Escape(c) + EscapeAll("");
  }

  const SAMPLE_ITEMS := [Num("2"), Null]

  lemma SampleItemsSorted(before: KeyOrder)
    ensures SortEach(SAMPLE_ITEMS, before) == SAMPLE_ITEMS
  {
    hide Stringify;
    assert SAMPLE_ITEMS[1..] == [Null];
    assert SortEach([Null], before) == [Null];
  }

  lemma SampleItemsText()
    ensures Stringify(Arr(SAMPLE_ITEMS)) == "[2,null]"
  {
    assert SAMPLE_ITEMS[1..] == [Null];
    assert MoreItems([]) == "]";
    assert MoreItems([Null]) == "," + ("null" + "]");
  }

  lemma SampleSorted(a: Field, b: Field, before: KeyOrder)
    requires before(a.key, b.key) && SortValue(a, before) == a && SortValue(b, before) == b
    ensures SortFields([b, a], before) == [a, b]
  {
    assert [b, a][1..] == [a];
    assert SortFields([a], before) == Insert(a, [], before);
    assert Insert(b, [a], before) == [a] + Insert(b, [], before);
  }

  lemma SampleMembers(a: Field, b: Field)
    ensures Stringify(Obj([a, b])) == "{" + (Member(a) + ("," + (Member(b) + "}")))
  {
    hide Member;
    assert [a, b][1..] == [b] && MoreFields([b]) == "," + (Member(b) + MoreFields([]));
  }

  lemma SampleMemberTexts()
    ensures Member(Field("a", Arr(SAMPLE_ITEMS))) == "\"a\":[2,null]"
    ensures Member(Field("b", Str("\""))) == "\"b\":\"\\\"\""
  {
    SampleItemsText();
    hide MoreItems, Quote;
    QuoteOne('a');
    QuoteOne('b');
    QuoteOne('"');
  }

  /** An object is written with its keys sorted and an array as it is, without spaces, and strings are escaped. */
  lemma SampleText(before: KeyOrder)
    requires before("a", "b")
    ensures CanonicalStringify(Obj([Field("b", Str("\"")), Field("a", Arr([Num("2"), Null]))]), before)
            == "{\"a\":[2,null],\"b\":\"\\\"\"}"
  {
    var b, a := Field("b", Str("\"")), Field("a", Arr(SAMPLE_ITEMS));
    SampleItemsSorted(before);
    hide SortEach, SortFields, Member, Stringify;
    SampleSorted(a, b, before);
    SampleMembers(a, b);
    SampleMemberTexts();
  }
}
