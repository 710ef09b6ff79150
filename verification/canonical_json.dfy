/**
 * Key normalization of receipts and exports (`canonicalizeJson` in src/campaigns/content.ts), and what becomes of
 * its output in a jsonb column.
 */
module CanonicalJson {

  /** A Unicode scalar value: no surrogates. */
  type Scalar = n: nat | n <= 0x10FFFF && !(0xD800 <= n <= 0xDFFF)

  type Key = seq<Scalar>

  datatype Json =
    | Null
    | Bool(b: bool)
    | Number(n: real)
    | Text(t: Key)
    | Arr(items: seq<Json>)
    | Obj(entries: seq<Entry>)

  /** An own property; an object lists its properties in enumeration order. */
  datatype Entry = Entry(key: Key, value: Json)

  // ---------- the two encodings of a key ----------

  function Utf16(c: Scalar): (r: seq<nat>)
    ensures |r| > 0
  {
    if c < 0x10000 then [c] else [0xD800 + (c - 0x10000) / 0x400, 0xDC00 + (c - 0x10000) % 0x400]
  }

  function Utf8(c: Scalar): (r: seq<nat>)
    ensures |r| > 0
  {
    if c < 0x80 then [c]
    else if c < 0x800 then [0xC0 + c / 0x40, 0x80 + c % 0x40]
    else if c < 0x10000 then [0xE0 + c / 0x40 / 0x40, 0x80 + c / 0x40 % 0x40, 0x80 + c % 0x40]
    else [0xF0 + c / 0x40 / 0x40 / 0x40, 0x80 + c / 0x40 / 0x40 % 0x40, 0x80 + c / 0x40 % 0x40, 0x80 + c % 0x40]
  }

  /** The comparator measures and compares UTF-16 code units, jsonb UTF-8 bytes. */
  datatype Order = ByUnits | ByBytes

  function Code(c: Scalar, o: Order): (r: seq<nat>)
    ensures |r| > 0
  {
    if o.ByUnits? then Utf16(c) else Utf8(c)
  }

  function Encode(k: Key, o: Order): seq<nat> {
    if |k| == 0 then [] else Code(k[0], o) + Encode(k[1..], o)
  }

  lemma SameQuotientAndRest(a: nat, b: nat, m: nat)
    requires m > 0 && a / m == b / m && a % m == b % m
    ensures a == b
  {
    assert a == m * (a / m) + a % m && b == m * (b / m) + b % m;
  }

  lemma Utf16IsInjective(c: Scalar, d: Scalar)
    requires Utf16(c) == Utf16(d)
    ensures c == d
  {
    assert Utf16(c)[0] == Utf16(d)[0];
    if c >= 0x10000 {
      assert Utf16(c)[1] == Utf16(d)[1];
      SameQuotientAndRest(c - 0x10000, d - 0x10000, 0x400);
    }
  }

  lemma Utf8IsInjective(c: Scalar, d: Scalar)
    requires Utf8(c) == Utf8(d)
    ensures c == d
  {
    assert |Utf8(c)| == |Utf8(d)| && Utf8(c)[0] == Utf8(d)[0];
    if c >= 0x80 {
      assert Utf8(c)[1] == Utf8(d)[1];
      if c >= 0x800 {
        assert Utf8(c)[2] == Utf8(d)[2];
        if c >= 0x10000 {
          assert Utf8(c)[3] == Utf8(d)[3];
          SameQuotientAndRest(c / 0x40 / 0x40, d / 0x40 / 0x40, 0x40);
        }
        SameQuotientAndRest(c / 0x40, d / 0x40, 0x40);
      }
      SameQuotientAndRest(c, d, 0x40);
    }
  }

  /** Neither code of a scalar value begins another one's. */
  lemma CodeIsPrefixFree(c: Scalar, d: Scalar, o: Order, x: seq<nat>, y: seq<nat>)
    requires Code(c, o) + x == Code(d, o) + y
    ensures c == d && x == y
  {
    var s, t := Code(c, o) + x, Code(d, o) + y;
    assert s[0] == Code(c, o)[0] && t[0] == Code(d, o)[0];
    assert |Code(c, o)| == |Code(d, o)|;
    assert Code(c, o) == s[..|Code(c, o)|] == t[..|Code(d, o)|] == Code(d, o);
    assert x == s[|Code(c, o)|..] == t[|Code(d, o)|..] == y;
    if o.ByUnits? {
      Utf16IsInjective(c, d);
    } else {
      Utf8IsInjective(c, d);
    }
  }

  lemma {:induction false} EncodeIsInjective(a: Key, b: Key, o: Order)
    requires Encode(a, o) == Encode(b, o)
    ensures a == b
  {
    if |a| > 0 && |b| > 0 {
      CodeIsPrefixFree(a[0], b[0], o, Encode(a[1..], o), Encode(b[1..], o));
      EncodeIsInjective(a[1..], b[1..], o);
      assert a == [a[0]] + a[1..] && b == [b[0]] + b[1..];
    }
  }

  // ---------- length first, then unit by unit ----------

  predicate LexLess(a: seq<nat>, b: seq<nat>) {
    |b| > 0 && (|a| == 0 || a[0] < b[0] || (a[0] == b[0] && LexLess(a[1..], b[1..])))
  }

  predicate Before(a: seq<nat>, b: seq<nat>) { |a| < |b| || (|a| == |b| && LexLess(a, b)) }

  predicate KeyLess(a: Key, b: Key, o: Order) { Before(Encode(a, o), Encode(b, o)) }

  lemma {:induction false} LexTotal(a: seq<nat>, b: seq<nat>)
    ensures !(LexLess(a, b) && LexLess(b, a))
    ensures a == b || LexLess(a, b) || LexLess(b, a)
    ensures a == b ==> !LexLess(a, b)
  {
    if |a| > 0 && |b| > 0 {
      LexTotal(a[1..], b[1..]);
      if a[0] == b[0] && a[1..] == b[1..] {
        assert a == [a[0]] + a[1..] && b == [b[0]] + b[1..];
      }
    }
  }

  lemma {:induction false} LexTransitive(a: seq<nat>, b: seq<nat>, c: seq<nat>)
    requires LexLess(a, b) && LexLess(b, c)
    ensures LexLess(a, c)
  {
    if |a| > 0 && a[0] == b[0] && b[0] == c[0] {
      LexTransitive(a[1..], b[1..], c[1..]);
    }
  }

  lemma KeyOrder(a: Key, b: Key, c: Key, o: Order)
    ensures !(KeyLess(a, b, o) && KeyLess(b, a, o))
    ensures a == b || KeyLess(a, b, o) || KeyLess(b, a, o)
    ensures a == b ==> !KeyLess(a, b, o)
    ensures KeyLess(a, b, o) && KeyLess(b, c, o) ==> KeyLess(a, c, o)
  {
    var x, y, z := Encode(a, o), Encode(b, o), Encode(c, o);
    LexTotal(x, y);
    if LexLess(x, y) && LexLess(y, z) {
      LexTransitive(x, y, z);
    }
    if x == y {
      EncodeIsInjective(a, b, o);
    }
  }

  // ---------- JavaScript's property order ----------

  /** The digits of `s` as a number; only ever read when every unit is a digit. */
  function Numeral(s: Key): int {
    if |s| == 0 then 0 else 10 * Numeral(s[..|s| - 1]) + s[|s| - 1] - 48
  }

  /** Array-index keys: decimal without leading zeros, below 2^32 - 1. Objects enumerate them first, ascending. */
  predicate IntegerLike(k: Key) {
    |k| > 0 && (forall i :: 0 <= i < |k| ==> 48 <= k[i] <= 57) && (k[0] == 48 ==> |k| == 1) && Numeral(k) < 4294967295
  }

  function Insert(es: seq<Entry>, e: Entry, o: Order): seq<Entry> {
    if |es| == 0 || KeyLess(e.key, es[0].key, o) then [e] + es else [es[0]] + Insert(es[1..], e, o)
  }

  function Sort(es: seq<Entry>, o: Order): seq<Entry> {
    if |es| == 0 then [] else Insert(Sort(es[1..], o), es[0], o)
  }

  function Keep(es: seq<Entry>, integers: bool): seq<Entry> {
    if |es| == 0 then []
    else if IntegerLike(es[0].key) == integers then [es[0]] + Keep(es[1..], integers)
    else Keep(es[1..], integers)
  }

  /**
   * `Object.fromEntries` and `JSON.parse`: integer-like keys ascending (by length and digits, so by value), then the
   * rest as given.
   */
  function FromEntries(es: seq<Entry>): Json { Obj(Sort(Keep(es, true), ByUnits) + Keep(es, false)) }

  /** Every object of `j` rebuilt from its properties in order `o`. */
  function Arrange(j: Json, o: Order): Json {
    match j
    case Arr(items) => Arr(ArrangeItems(items, o))
    case Obj(entries) => FromEntries(Sort(ArrangeValues(entries, o), o))
    case _ => j
  }

  function ArrangeItems(items: seq<Json>, o: Order): (r: seq<Json>)
    ensures |r| == |items|
  {
    if |items| == 0 then [] else [Arrange(items[0], o)] + ArrangeItems(items[1..], o)
  }

  function ArrangeValues(es: seq<Entry>, o: Order): (r: seq<Entry>)
    ensures |r| == |es|
    ensures forall i :: 0 <= i < |es| ==> r[i].key == es[i].key
  {
    if |es| == 0 then [] else [Entry(es[0].key, Arrange(es[0].value, o))] + ArrangeValues(es[1..], o)
  }

  function Canonicalize(j: Json): Json { Arrange(j, ByUnits) }

  /** Stored in a jsonb column, which keeps properties by byte length and bytes, and parsed again. */
  function RoundTrip(j: Json): Json { Arrange(j, ByBytes) }

  /** Values first and keys second is the same as keys first: the comparator never looks at a value. */
  lemma {:induction false} SortThenValues(es: seq<Entry>, o: Order)
    ensures Sort(ArrangeValues(es, o), o) == ArrangeValues(Sort(es, o), o)
  {
    if |es| > 0 {
      SortThenValues(es[1..], o);
      InsertThenValues(Sort(es[1..], o), es[0], o);
    }
  }

  lemma {:induction false} InsertThenValues(es: seq<Entry>, e: Entry, o: Order)
    ensures Insert(ArrangeValues(es, o), Entry(e.key, Arrange(e.value, o)), o) == ArrangeValues(Insert(es, e, o), o)
  {
    if |es| == 0 || KeyLess(e.key, es[0].key, o) {
      assert ([e] + es)[1..] == es;
    } else {
      InsertThenValues(es[1..], e, o);
      assert ([es[0]] + Insert(es[1..], e, o))[1..] == Insert(es[1..], e, o);
      assert ArrangeValues(es, o)[1..] == ArrangeValues(es[1..], o);
    }
  }

  // ---------- what a JSON value says, whatever its key order ----------

  datatype Value =
    | VNull
    | VBool(b: bool)
    | VNumber(n: real)
    | VText(t: Key)
    | VArr(items: seq<Value>)
    | VObj(fields: map<Key, Value>)

  ghost function Meaning(j: Json): Value {
    match j
    case Null => VNull
    case Bool(b) => VBool(b)
    case Number(n) => VNumber(n)
    case Text(t) => VText(t)
    case Arr(items) => VArr(Meanings(items))
    case Obj(entries) => VObj(Fields(entries))
  }

  ghost function Meanings(items: seq<Json>): (r: seq<Value>)
    ensures |r| == |items|
  {
    if |items| == 0 then [] else [Meaning(items[0])] + Meanings(items[1..])
  }

  ghost function Fields(es: seq<Entry>): map<Key, Value> {
    if |es| == 0 then map[] else Fields(es[1..])[es[0].key := Meaning(es[0].value)]
  }

  ghost predicate DistinctKeys(es: seq<Entry>) {
    forall i, j :: 0 <= i < j < |es| ==> es[i].key != es[j].key
  }

  /** No object, at any depth, repeats a key. */
  ghost predicate WellFormed(j: Json) {
    match j
    case Arr(items) => forall i :: 0 <= i < |items| ==> WellFormed(items[i])
    case Obj(es) => DistinctKeys(es) && forall i :: 0 <= i < |es| ==> WellFormed(es[i].value)
    case _ => true
  }

  // ---------- sorting keeps the entries and depends on nothing but their set ----------

  ghost predicate Ascending(es: seq<Entry>, o: Order) {
    forall i, j :: 0 <= i < j < |es| ==> KeyLess(es[i].key, es[j].key, o)
  }

  lemma {:induction false} InsertKeeps(es: seq<Entry>, e: Entry, o: Order)
    requires Ascending(es, o) && forall x :: x in es ==> x.key != e.key
    ensures Ascending(Insert(es, e, o), o)
    ensures forall x :: x in Insert(es, e, o) <==> x in es || x == e
  {
    if |es| == 0 {
    } else if KeyLess(e.key, es[0].key, o) {
      forall j | 0 <= j < |es| ensures KeyLess(e.key, es[j].key, o) {
        KeyOrder(e.key, es[0].key, es[j].key, o);
      }
    } else {
      assert es == [es[0]] + es[1..];
      InsertKeeps(es[1..], e, o);
      KeyOrder(e.key, es[0].key, e.key, o);
      assert es[0] in es;
      forall x | x in Insert(es[1..], e, o) ensures KeyLess(es[0].key, x.key, o) {
      }
    }
  }

  lemma {:induction false} SortKeeps(es: seq<Entry>, o: Order)
    requires DistinctKeys(es)
    ensures Ascending(Sort(es, o), o)
    ensures forall x :: x in Sort(es, o) <==> x in es
  {
    if |es| > 0 {
      SortKeeps(es[1..], o);
      InsertKeeps(Sort(es[1..], o), es[0], o);
      assert es == [es[0]] + es[1..];
    }
  }

  lemma {:induction false} KeepHolds(es: seq<Entry>, integers: bool, x: Entry)
    ensures x in Keep(es, integers) <==> x in es && IntegerLike(x.key) == integers
  {
    if |es| > 0 {
      assert es == [es[0]] + es[1..];
      KeepHolds(es[1..], integers, x);
    }
  }

  lemma {:induction false} KeepAscends(es: seq<Entry>, integers: bool, o: Order)
    requires Ascending(es, o)
    ensures Ascending(Keep(es, integers), o)
  {
    if |es| > 0 {
      KeepAscends(es[1..], integers, o);
      var rest := Keep(es[1..], integers);
      forall j | 0 <= j < |rest| ensures KeyLess(es[0].key, rest[j].key, o) {
        KeepHolds(es[1..], integers, rest[j]);
        var i :| 0 <= i < |es[1..]| && es[1..][i] == rest[j];
        assert es[i + 1] == rest[j];
      }
    }
  }

  lemma KeepMembers(es: seq<Entry>, integers: bool)
    ensures forall x :: x in Keep(es, integers) <==> x in es && IntegerLike(x.key) == integers
  {
    forall x ensures x in Keep(es, integers) <==> x in es && IntegerLike(x.key) == integers {
      KeepHolds(es, integers, x);
    }
  }

  /** In ascending order the first entry is not among the rest. */
  lemma TailHolds(a: seq<Entry>, x: Entry, o: Order)
    requires Ascending(a, o) && |a| > 0
    ensures x in a[1..] <==> x in a && x != a[0]
  {
    KeyOrder(a[0].key, a[0].key, a[0].key, o);
    assert a == [a[0]] + a[1..];
    if x in a[1..] {
      var i :| 0 <= i < |a[1..]| && a[1..][i] == x;
      assert a[i + 1] == x;
    }
  }

  ghost predicate SameEntries(a: seq<Entry>, b: seq<Entry>) { forall x :: x in a <==> x in b }

  lemma {:induction false} AscendingIsUnique(a: seq<Entry>, b: seq<Entry>, o: Order)
    requires Ascending(a, o) && Ascending(b, o) && SameEntries(a, b)
    ensures a == b
  {
    assert |a| > 0 ==> a[0] in a;
    assert |b| > 0 ==> b[0] in b;
    if |a| > 0 {
      assert a[0] in b && b[0] in a;
      KeyOrder(a[0].key, b[0].key, a[0].key, o);
      assert a[0] == b[0];
      assert a == [a[0]] + a[1..] && b == [b[0]] + b[1..];
      forall x ensures x in a[1..] <==> x in b[1..] {
        TailHolds(a, x, o);
        TailHolds(b, x, o);
      }
      AscendingIsUnique(a[1..], b[1..], o);
    }
  }

  lemma ArrangeIsUnique(a: seq<Entry>, b: seq<Entry>, o: Order)
    requires DistinctKeys(a) && DistinctKeys(b) && SameEntries(a, b)
    ensures FromEntries(Sort(a, o)) == FromEntries(Sort(b, o))
  {
    SortKeeps(a, o);
    SortKeeps(b, o);
    AscendingIsUnique(Sort(a, o), Sort(b, o), o);
  }

  lemma AscendingIsDistinct(es: seq<Entry>, o: Order)
    requires Ascending(es, o)
    ensures DistinctKeys(es)
  {
    forall i, j | 0 <= i < j < |es| ensures es[i].key != es[j].key {
      KeyOrder(es[i].key, es[j].key, es[i].key, o);
    }
  }

  /** The two parts of an object built in order `o`: its integer-like keys and the others, each in their order. */
  lemma Parts(es: seq<Entry>, o: Order)
    requires DistinctKeys(es)
    ensures var integers, others := Sort(Keep(Sort(es, o), true), ByUnits), Keep(Sort(es, o), false);
      && FromEntries(Sort(es, o)) == Obj(integers + others)
      && Ascending(integers, ByUnits) && Ascending(others, o)
      && (forall x :: x in integers <==> x in es && IntegerLike(x.key))
      && (forall x :: x in others <==> x in es && !IntegerLike(x.key))
  {
    var sorted := Sort(es, o);
    SortKeeps(es, o);
    KeepMembers(sorted, true);
    KeepMembers(sorted, false);
    KeepAscends(sorted, true, o);
    KeepAscends(sorted, false, o);
    AscendingIsDistinct(Keep(sorted, true), o);
    SortKeeps(Keep(sorted, true), ByUnits);
  }

  /** Arranging keeps exactly the entries it is given, each key once. */
  lemma ArrangeKeeps(es: seq<Entry>, o: Order)
    requires DistinctKeys(es)
    ensures FromEntries(Sort(es, o)).Obj?
    ensures SameEntries(FromEntries(Sort(es, o)).entries, es) && DistinctKeys(FromEntries(Sort(es, o)).entries)
  {
    Parts(es, o);
    var integers, others := Sort(Keep(Sort(es, o), true), ByUnits), Keep(Sort(es, o), false);
    AscendingIsDistinct(integers, ByUnits);
    AscendingIsDistinct(others, o);
    forall i, j | 0 <= i < |integers| && 0 <= j < |others| ensures integers[i].key != others[j].key {
      assert integers[i] in integers && others[j] in others;
    }
  }

  // ---------- fields ----------

  lemma {:induction false} FieldOf(es: seq<Entry>, i: nat)
    requires DistinctKeys(es) && i < |es|
    ensures es[i].key in Fields(es) && Fields(es)[es[i].key] == Meaning(es[i].value)
  {
    if i > 0 {
      FieldOf(es[1..], i - 1);
    }
  }

  lemma {:induction false} FieldComesFrom(es: seq<Entry>, k: Key) returns (i: nat)
    requires k in Fields(es)
    ensures i < |es| && es[i].key == k
  {
    if es[0].key == k {
      i := 0;
    } else {
      i := FieldComesFrom(es[1..], k);
      i := i + 1;
    }
  }

  ghost predicate HasField(es: seq<Entry>, k: Key, v: Value) {
    exists i :: 0 <= i < |es| && es[i].key == k && Meaning(es[i].value) == v
  }

  lemma FieldsInclude(a: seq<Entry>, b: seq<Entry>)
    requires DistinctKeys(a) && DistinctKeys(b)
    requires forall i :: 0 <= i < |a| ==> HasField(b, a[i].key, Meaning(a[i].value))
    ensures forall k :: k in Fields(a) ==> k in Fields(b) && Fields(b)[k] == Fields(a)[k]
  {
    forall k | k in Fields(a) ensures k in Fields(b) && Fields(b)[k] == Fields(a)[k] {
      var i := FieldComesFrom(a, k);
      FieldOf(a, i);
      assert HasField(b, a[i].key, Meaning(a[i].value));
      var j :| 0 <= j < |b| && b[j].key == a[i].key && Meaning(b[j].value) == Meaning(a[i].value);
      FieldOf(b, j);
    }
  }

  /** Entry lists over the same keys whose values mean the same have the same fields. */
  lemma SameFields(a: seq<Entry>, b: seq<Entry>)
    requires DistinctKeys(a) && DistinctKeys(b)
    requires forall i :: 0 <= i < |a| ==> HasField(b, a[i].key, Meaning(a[i].value))
    requires forall j :: 0 <= j < |b| ==> HasField(a, b[j].key, Meaning(b[j].value))
    ensures Fields(a) == Fields(b)
  {
    FieldsInclude(a, b);
    FieldsInclude(b, a);
  }

  // ---------- canonicalization says the same ----------

  lemma {:induction false} ItemAt(items: seq<Json>, i: nat, o: Order)
    requires i < |items|
    ensures ArrangeItems(items, o)[i] == Arrange(items[i], o) && Meanings(items)[i] == Meaning(items[i])
  {
    if i > 0 {
      ItemAt(items[1..], i - 1, o);
    }
  }

  lemma {:induction false} ValueAt(es: seq<Entry>, i: nat, o: Order)
    requires i < |es|
    ensures ArrangeValues(es, o)[i] == Entry(es[i].key, Arrange(es[i].value, o))
  {
    if i > 0 {
      ValueAt(es[1..], i - 1, o);
    }
  }

  lemma {:induction false} ArrangePreserves(j: Json, o: Order)
    requires WellFormed(j)
    ensures WellFormed(Arrange(j, o)) && Meaning(Arrange(j, o)) == Meaning(j)
  {
    match j
    case Arr(items) =>
      forall i | 0 <= i < |items|
        ensures WellFormed(ArrangeItems(items, o)[i]) && Meanings(ArrangeItems(items, o))[i] == Meanings(items)[i]
      {
        ArrangePreserves(items[i], o);
        ItemAt(items, i, o);
        ItemAt(ArrangeItems(items, o), i, o);
      }
      assert Meanings(ArrangeItems(items, o)) == Meanings(items);
    case Obj(es) =>
      forall i | 0 <= i < |es|
        ensures WellFormed(ArrangeValues(es, o)[i].value) &&
          Meaning(ArrangeValues(es, o)[i].value) == Meaning(es[i].value)
      {
        ArrangePreserves(es[i].value, o);
        ValueAt(es, i, o);
      }
      ObjectPreserves(es, ArrangeValues(es, o), o);
    case _ =>
  }

  ghost predicate AllWellFormed(es: seq<Entry>) { forall i :: 0 <= i < |es| ==> WellFormed(es[i].value) }

  lemma ArrangeWellFormed(values: seq<Entry>, o: Order)
    requires DistinctKeys(values) && AllWellFormed(values)
    ensures AllWellFormed(FromEntries(Sort(values, o)).entries)
  {
    ArrangeKeeps(values, o);
    var arranged := FromEntries(Sort(values, o)).entries;
    forall i | 0 <= i < |arranged| ensures WellFormed(arranged[i].value) {
      assert arranged[i] in values;
    }
  }

  /** `values` are `es` entry by entry, with the same keys and values that mean the same. */
  ghost predicate Rewritten(es: seq<Entry>, values: seq<Entry>) {
    && |values| == |es|
    && forall i :: 0 <= i < |es| ==> values[i].key == es[i].key && Meaning(values[i].value) == Meaning(es[i].value)
  }

  lemma ObjectPreserves(es: seq<Entry>, values: seq<Entry>, o: Order)
    requires DistinctKeys(es) && Rewritten(es, values) && AllWellFormed(values)
    ensures WellFormed(FromEntries(Sort(values, o))) && Meaning(FromEntries(Sort(values, o))) == VObj(Fields(es))
  {
    assert DistinctKeys(values);
    ArrangeKeeps(values, o);
    ArrangeWellFormed(values, o);
    FieldsThroughValues(es, values, FromEntries(Sort(values, o)).entries);
  }

  lemma FieldsThroughValues(es: seq<Entry>, values: seq<Entry>, arranged: seq<Entry>)
    requires DistinctKeys(es) && DistinctKeys(arranged) && Rewritten(es, values) && SameEntries(arranged, values)
    ensures Fields(arranged) == Fields(es)
  {
    forall i | 0 <= i < |es| ensures HasField(arranged, es[i].key, Meaning(es[i].value)) {
      assert values[i] in values && values[i] in arranged;
      var j :| 0 <= j < |arranged| && arranged[j] == values[i];
    }
    forall j | 0 <= j < |arranged| ensures HasField(es, arranged[j].key, Meaning(arranged[j].value)) {
      assert arranged[j] in values;
      var i :| 0 <= i < |values| && values[i] == arranged[j];
    }
    SameFields(es, arranged);
  }

  // ---------- and is determined by what is said ----------

  lemma {:induction false} ArrangeIsDetermined(a: Json, b: Json, o: Order)
    requires WellFormed(a) && WellFormed(b) && Meaning(a) == Meaning(b)
    ensures Arrange(a, o) == Arrange(b, o)
    decreases a
  {
    match a
    case Arr(items) =>
      forall i | 0 <= i < |items| ensures ArrangeItems(items, o)[i] == ArrangeItems(b.items, o)[i] {
        ItemAt(items, i, o);
        ItemAt(b.items, i, o);
        assert |b.items| == |items| by {
          assert |Meanings(items)| == |Meanings(b.items)|;
        }
        assert Meanings(items)[i] == Meanings(b.items)[i];
        ArrangeIsDetermined(items[i], b.items[i], o);
      }
      assert |Meanings(items)| == |Meanings(b.items)|;
      assert ArrangeItems(items, o) == ArrangeItems(b.items, o);
    case Obj(es) =>
      forall x | x in ArrangeValues(es, o) ensures x in ArrangeValues(b.entries, o) {
        var i :| 0 <= i < |es| && ArrangeValues(es, o)[i] == x;
        FieldOf(es, i);
        var j := FieldComesFrom(b.entries, es[i].key);
        FieldOf(b.entries, j);
        ArrangeIsDetermined(es[i].value, b.entries[j].value, o);
        ValueAt(es, i, o);
        ValueAt(b.entries, j, o);
      }
      forall y | y in ArrangeValues(b.entries, o) ensures y in ArrangeValues(es, o) {
        var j :| 0 <= j < |b.entries| && ArrangeValues(b.entries, o)[j] == y;
        FieldOf(b.entries, j);
        var i := FieldComesFrom(es, b.entries[j].key);
        FieldOf(es, i);
        ArrangeIsDetermined(es[i].value, b.entries[j].value, o);
        ValueAt(es, i, o);
        ValueAt(b.entries, j, o);
      }
      ArrangeIsUnique(ArrangeValues(es, o), ArrangeValues(b.entries, o), o);
    case _ =>
  }

  /** Two values canonicalize alike exactly when they differ in key order only. */
  lemma CanonicalIffSameMeaning(a: Json, b: Json)
    requires WellFormed(a) && WellFormed(b)
    ensures Canonicalize(a) == Canonicalize(b) <==> Meaning(a) == Meaning(b)
  {
    ArrangePreserves(a, ByUnits);
    ArrangePreserves(b, ByUnits);
    if Meaning(a) == Meaning(b) {
      ArrangeIsDetermined(a, b, ByUnits);
    }
  }

  lemma CanonicalizeIdempotent(j: Json)
    requires WellFormed(j)
    ensures Canonicalize(Canonicalize(j)) == Canonicalize(j)
  {
    ArrangePreserves(j, ByUnits);
    ArrangeIsDetermined(Canonicalize(j), j, ByUnits);
  }
}
