/** Whether normalized output comes back byte for byte from a jsonb column. */
module JsonRoundTrip {
  import opened CanonicalJson

  // ---------- the text is as good as the value ----------

  /** The tokens of the text `JSON.stringify` writes. */
  datatype Lexeme =
    | TheNull | TheBool(b: bool) | TheNumber(n: real) | TheText(t: Key)
    | OpenArr | CloseArr | OpenObj | CloseObj | Name(k: Key)

  function Stringify(j: Json): (r: seq<Lexeme>)
    ensures |r| > 0 && r[0] != CloseArr && r[0] != CloseObj && !r[0].Name?
  {
    match j
    case Null => [TheNull]
    case Bool(b) => [TheBool(b)]
    case Number(n) => [TheNumber(n)]
    case Text(t) => [TheText(t)]
    case Arr(items) => [OpenArr] + StringifyItems(items)
    case Obj(es) => [OpenObj] + StringifyEntries(es)
  }

  function StringifyItems(items: seq<Json>): (r: seq<Lexeme>)
    ensures |r| > 0 && (|items| == 0 <==> r[0] == CloseArr)
  {
    if |items| == 0 then [CloseArr] else Stringify(items[0]) + StringifyItems(items[1..])
  }

  function StringifyEntries(es: seq<Entry>): (r: seq<Lexeme>)
    ensures |r| > 0 && (|es| == 0 <==> r[0] == CloseObj)
  {
    if |es| == 0 then [CloseObj] else [Name(es[0].key)] + Stringify(es[0].value) + StringifyEntries(es[1..])
  }

  lemma HeadAndRest(l: Lexeme, x: seq<Lexeme>, m: Lexeme, y: seq<Lexeme>)
    requires [l] + x == [m] + y
    ensures l == m && x == y
  {
    assert ([l] + x)[0] == l && ([m] + y)[0] == m;
    assert x == ([l] + x)[1..] == ([m] + y)[1..] == y;
  }

  /** No text begins another one: values written one after the other are read back one by one. */
  lemma {:induction false} ReadsUniquely(a: Json, b: Json, x: seq<Lexeme>, y: seq<Lexeme>)
    requires Stringify(a) + x == Stringify(b) + y
    ensures a == b && x == y
    decreases a
  {
    var s, t := Stringify(a), Stringify(b);
    assert s + x == [s[0]] + (s[1..] + x) && t + y == [t[0]] + (t[1..] + y);
    HeadAndRest(s[0], s[1..] + x, t[0], t[1..] + y);
    match a
    case Arr(items) =>
      assert s[1..] == StringifyItems(items) && t[1..] == StringifyItems(b.items);
      ItemsReadUniquely(items, b.items, x, y);
    case Obj(es) =>
      assert s[1..] == StringifyEntries(es) && t[1..] == StringifyEntries(b.entries);
      EntriesReadUniquely(es, b.entries, x, y);
    case _ =>
      assert s[1..] == [] && t[1..] == [];
      assert [] + x == x && [] + y == y;
  }

  lemma {:induction false} ItemsReadUniquely(a: seq<Json>, b: seq<Json>, x: seq<Lexeme>, y: seq<Lexeme>)
    requires StringifyItems(a) + x == StringifyItems(b) + y
    ensures a == b && x == y
    decreases a
  {
    var s, t := StringifyItems(a), StringifyItems(b);
    assert (s + x)[0] == s[0] && (t + y)[0] == t[0];
    if |a| == 0 {
      HeadAndRest(CloseArr, x, CloseArr, y);
    } else {
      assert Stringify(a[0]) + (StringifyItems(a[1..]) + x) == s + x;
      assert Stringify(b[0]) + (StringifyItems(b[1..]) + y) == t + y;
      ReadsUniquely(a[0], b[0], StringifyItems(a[1..]) + x, StringifyItems(b[1..]) + y);
      ItemsReadUniquely(a[1..], b[1..], x, y);
      assert a == [a[0]] + a[1..] && b == [b[0]] + b[1..];
    }
  }

  /** A non-empty list of properties: its first key, its first value, the rest. */
  lemma EntriesOpen(es: seq<Entry>, x: seq<Lexeme>)
    requires |es| > 0
    ensures StringifyEntries(es) + x == [Name(es[0].key)] + (Stringify(es[0].value) + (StringifyEntries(es[1..]) + x))
  {
  }

  lemma {:induction false} EntriesReadUniquely(a: seq<Entry>, b: seq<Entry>, x: seq<Lexeme>, y: seq<Lexeme>)
    requires StringifyEntries(a) + x == StringifyEntries(b) + y
    ensures a == b && x == y
    decreases a
  {
    var s, t := StringifyEntries(a), StringifyEntries(b);
    assert (s + x)[0] == s[0] && (t + y)[0] == t[0];
    if |a| == 0 {
      HeadAndRest(CloseObj, x, CloseObj, y);
    } else {
      EntriesOpen(a, x);
      EntriesOpen(b, y);
      var p, q := StringifyEntries(a[1..]) + x, StringifyEntries(b[1..]) + y;
      HeadAndRest(Name(a[0].key), Stringify(a[0].value) + p, Name(b[0].key), Stringify(b[0].value) + q);
      ReadsUniquely(a[0].value, b[0].value, p, q);
      EntriesReadUniquely(a[1..], b[1..], x, y);
      assert a == [a[0]] + a[1..] && b == [b[0]] + b[1..];
    }
  }

  lemma SameTextIffSame(a: Json, b: Json)
    ensures Stringify(a) == Stringify(b) <==> a == b
  {
    if Stringify(a) == Stringify(b) {
      assert Stringify(a) + [] == Stringify(b) + [];
      ReadsUniquely(a, b, [], []);
    }
  }

  // ---------- one object ----------

  /** The two orders agree on the keys that are not integer-like. */
  ghost predicate OrdersAgreeOn(es: seq<Entry>) {
    forall x, y :: x in es && y in es && !IntegerLike(x.key) && !IntegerLike(y.key) ==>
      (KeyLess(x.key, y.key, ByUnits) <==> KeyLess(x.key, y.key, ByBytes))
  }

  lemma AgreeingAscends(es: seq<Entry>, others: seq<Entry>)
    requires OrdersAgreeOn(es) && Ascending(others, ByBytes)
    requires forall x :: x in others ==> x in es && !IntegerLike(x.key)
    ensures Ascending(others, ByUnits)
  {
    forall i, j | 0 <= i < j < |others| ensures KeyLess(others[i].key, others[j].key, ByUnits) {
      assert others[i] in others && others[j] in others;
    }
  }

  /** What ascends in both orders is ordered alike by both. */
  lemma BothAscend(others: seq<Entry>, x: Entry, y: Entry)
    requires Ascending(others, ByUnits) && Ascending(others, ByBytes) && x in others && y in others
    ensures KeyLess(x.key, y.key, ByUnits) <==> KeyLess(x.key, y.key, ByBytes)
  {
    var i :| 0 <= i < |others| && others[i] == x;
    var j :| 0 <= j < |others| && others[j] == y;
    KeyOrder(x.key, y.key, x.key, ByUnits);
    KeyOrder(x.key, y.key, x.key, ByBytes);
  }

  lemma EqualPrefixes(a: seq<Entry>, b: seq<Entry>, x: seq<Entry>, y: seq<Entry>)
    requires a == b
    ensures a + x == b + y <==> x == y
  {
    if a + x == b + y {
      assert x == (a + x)[|a|..] == (b + y)[|b|..] == y;
    }
  }

  /**
   * An object built in code unit order and one built in byte order list their properties alike exactly if the
   * two orders agree on the keys that are not integer-like; those that are come first, by value, in both.
   */
  lemma ObjectSurvivesIff(es: seq<Entry>)
    requires DistinctKeys(es)
    ensures FromEntries(Sort(es, ByBytes)) == FromEntries(Sort(es, ByUnits)) <==> OrdersAgreeOn(es)
  {
    Parts(es, ByUnits);
    Parts(es, ByBytes);
    var a, x := Sort(Keep(Sort(es, ByUnits), true), ByUnits), Keep(Sort(es, ByUnits), false);
    var b, y := Sort(Keep(Sort(es, ByBytes), true), ByUnits), Keep(Sort(es, ByBytes), false);
    AscendingIsUnique(a, b, ByUnits);
    EqualPrefixes(a, b, x, y);
    if OrdersAgreeOn(es) {
      AgreeingAscends(es, y);
      AscendingIsUnique(x, y, ByUnits);
    }
    if x == y {
      forall p, q | p in es && q in es && !IntegerLike(p.key) && !IntegerLike(q.key)
        ensures KeyLess(p.key, q.key, ByUnits) <==> KeyLess(p.key, q.key, ByBytes)
      {
        BothAscend(x, p, q);
      }
    }
  }

  // ---------- every depth ----------

  ghost predicate OrdersAgree(j: Json) {
    match j
    case Arr(items) => forall i :: 0 <= i < |items| ==> OrdersAgree(items[i])
    case Obj(es) => OrdersAgreeOn(es) && forall i :: 0 <= i < |es| ==> OrdersAgree(es[i].value)
    case _ => true
  }

  /** Entries with distinct keys that end up in one object are paired by key. */
  lemma PairedByKey(a: seq<Entry>, b: seq<Entry>)
    requires DistinctKeys(a) && DistinctKeys(b) && |a| == |b| && forall i :: 0 <= i < |a| ==> a[i].key == b[i].key
    requires SameEntries(a, b)
    ensures a == b
  {
    forall i | 0 <= i < |a| ensures a[i] == b[i] {
      assert a[i] in a && a[i] in b;
      var j :| 0 <= j < |b| && b[j] == a[i];
    }
  }

  lemma SameKeysAgree(a: seq<Entry>, b: seq<Entry>)
    requires |a| == |b| && forall i :: 0 <= i < |a| ==> a[i].key == b[i].key
    ensures OrdersAgreeOn(a) ==> OrdersAgreeOn(b)
  {
    if OrdersAgreeOn(a) {
      forall x, y | x in b && y in b && !IntegerLike(x.key) && !IntegerLike(y.key)
        ensures KeyLess(x.key, y.key, ByUnits) <==> KeyLess(x.key, y.key, ByBytes)
      {
        var i :| 0 <= i < |b| && b[i] == x;
        var j :| 0 <= j < |b| && b[j] == y;
        assert a[i] in a && a[j] in a;
      }
    }
  }

  lemma ObjectsAlikeIff(es: seq<Entry>, units: seq<Entry>, bytes: seq<Entry>)
    requires DistinctKeys(es) && |units| == |es| && |bytes| == |es|
    requires forall i :: 0 <= i < |es| ==> units[i].key == es[i].key && bytes[i].key == es[i].key
    ensures FromEntries(Sort(bytes, ByBytes)) == FromEntries(Sort(units, ByUnits)) <==>
      bytes == units && OrdersAgreeOn(es)
  {
    assert DistinctKeys(units) && DistinctKeys(bytes);
    ArrangeKeeps(units, ByUnits);
    ArrangeKeeps(bytes, ByBytes);
    if FromEntries(Sort(bytes, ByBytes)) == FromEntries(Sort(units, ByUnits)) {
      PairedByKey(bytes, units);
    }
    if bytes == units {
      ObjectSurvivesIff(units);
      SameKeysAgree(es, units);
      SameKeysAgree(units, es);
    }
  }

  lemma {:induction false} OrdersArrangeAlikeIff(j: Json)
    requires WellFormed(j)
    ensures Arrange(j, ByBytes) == Arrange(j, ByUnits) <==> OrdersAgree(j)
  {
    match j
    case Arr(items) =>
      var bytes, units := ArrangeItems(items, ByBytes), ArrangeItems(items, ByUnits);
      forall i | 0 <= i < |items| ensures bytes[i] == units[i] <==> OrdersAgree(items[i]) {
        ItemAt(items, i, ByBytes);
        ItemAt(items, i, ByUnits);
        OrdersArrangeAlikeIff(items[i]);
      }
      assert bytes == units <==> forall i :: 0 <= i < |items| ==> bytes[i] == units[i];
    case Obj(es) =>
      var bytes, units := ArrangeValues(es, ByBytes), ArrangeValues(es, ByUnits);
      forall i | 0 <= i < |es| ensures bytes[i] == units[i] <==> OrdersAgree(es[i].value) {
        ValueAt(es, i, ByBytes);
        ValueAt(es, i, ByUnits);
        OrdersArrangeAlikeIff(es[i].value);
      }
      assert bytes == units <==> forall i :: 0 <= i < |es| ==> bytes[i] == units[i];
      ObjectsAlikeIff(es, units, bytes);
    case _ =>
  }

  /**
   * The promise: normalized output has the same text before and after a jsonb round trip. It is kept exactly
   * for those values in which, at every depth, comparing keys by UTF-16 length and units and by UTF-8 length
   * and bytes comes out alike on the keys that are not integer-like.
   */
  lemma TextSurvivesIff(j: Json)
    requires WellFormed(j)
    ensures Stringify(RoundTrip(Canonicalize(j))) == Stringify(Canonicalize(j)) <==> OrdersAgree(j)
  {
    ArrangePreserves(j, ByUnits);
    ArrangeIsDetermined(Canonicalize(j), j, ByBytes);
    OrdersArrangeAlikeIff(j);
    SameTextIffSame(RoundTrip(Canonicalize(j)), Canonicalize(j));
  }

  /** What has been through the column once comes back as it is, and always says the same. */
  lemma RoundTripSettles(j: Json)
    requires WellFormed(j)
    ensures RoundTrip(RoundTrip(j)) == RoundTrip(j) && Meaning(RoundTrip(j)) == Meaning(j)
    ensures Canonicalize(RoundTrip(j)) == Canonicalize(j)
  {
    ArrangePreserves(j, ByBytes);
    ArrangeIsDetermined(RoundTrip(j), j, ByBytes);
    ArrangeIsDetermined(RoundTrip(j), j, ByUnits);
  }

  // ---------- a condition on single keys, and the two ways to fail ----------

  predicate Ascii(k: Key) { forall i :: 0 <= i < |k| ==> k[i] < 0x80 }

  ghost predicate AsciiKeys(j: Json) {
    match j
    case Arr(items) => forall i :: 0 <= i < |items| ==> AsciiKeys(items[i])
    case Obj(es) => forall i :: 0 <= i < |es| ==> Ascii(es[i].key) && AsciiKeys(es[i].value)
    case _ => true
  }

  lemma {:induction false} AsciiIsItsCode(k: Key, o: Order)
    requires Ascii(k)
    ensures Encode(k, o) == k
  {
    if |k| > 0 {
      AsciiIsItsCode(k[1..], o);
      assert k == [k[0]] + k[1..];
    }
  }

  lemma AsciiAgrees(es: seq<Entry>)
    requires forall i :: 0 <= i < |es| ==> Ascii(es[i].key)
    ensures OrdersAgreeOn(es)
  {
    forall x, y | x in es && y in es && !IntegerLike(x.key) && !IntegerLike(y.key)
      ensures KeyLess(x.key, y.key, ByUnits) <==> KeyLess(x.key, y.key, ByBytes)
    {
      AsciiIsItsCode(x.key, ByUnits);
      AsciiIsItsCode(x.key, ByBytes);
      AsciiIsItsCode(y.key, ByUnits);
      AsciiIsItsCode(y.key, ByBytes);
    }
  }

  lemma {:induction false} AsciiKeysAgree(j: Json)
    requires AsciiKeys(j)
    ensures OrdersAgree(j)
  {
    match j
    case Arr(items) =>
      forall i | 0 <= i < |items| ensures OrdersAgree(items[i]) {
        AsciiKeysAgree(items[i]);
      }
    case Obj(es) =>
      AsciiAgrees(es);
      forall i | 0 <= i < |es| ensures OrdersAgree(es[i].value) {
        AsciiKeysAgree(es[i].value);
      }
    case _ =>
  }

  /** So the promise holds whenever all keys are ASCII, whatever the texts and whichever keys are integer-like. */
  lemma AsciiTextSurvives(j: Json)
    requires WellFormed(j) && AsciiKeys(j)
    ensures Stringify(RoundTrip(Canonicalize(j))) == Stringify(Canonicalize(j))
  {
    AsciiKeysAgree(j);
    TextSurvivesIff(j);
  }

  /** e with an acute accent: one code unit, two bytes. */
  const E_ACUTE: Key := [0xE9]
  const ZZ: Key := [0x7A, 0x7A]

  lemma AccentedKeyIsEncoded()
    ensures Encode(E_ACUTE, ByUnits) == [0xE9] && Encode(E_ACUTE, ByBytes) == [0xC3, 0xA9]
    ensures Encode(ZZ, ByUnits) == [0x7A, 0x7A] && Encode(ZZ, ByBytes) == [0x7A, 0x7A]
  {
    assert E_ACUTE[1..] == [] && ZZ[1..] == [0x7A] && ZZ[1..][1..] == [];
    assert Encode(E_ACUTE, ByUnits) == Utf16(0xE9) + Encode([], ByUnits);
    assert Encode(E_ACUTE, ByBytes) == Utf8(0xE9) + Encode([], ByBytes);
    AsciiIsItsCode(ZZ, ByUnits);
    AsciiIsItsCode(ZZ, ByBytes);
  }

  lemma AccentedKeyOrders()
    ensures KeyLess(E_ACUTE, ZZ, ByUnits) && !KeyLess(E_ACUTE, ZZ, ByBytes)
    ensures !IntegerLike(E_ACUTE) && !IntegerLike(ZZ) && E_ACUTE != ZZ
  {
    AccentedKeyIsEncoded();
    assert E_ACUTE[0] == 0xE9 && ZZ[0] == 0x7A && |E_ACUTE| == 1 && |ZZ| == 2;
  }

  /** The shorter key is written first and comes back second: equal in bytes, and z is less than any two-byte lead. */
  lemma AnAccentedKeyMoves()
    ensures var j := Obj([Entry(E_ACUTE, Null), Entry(ZZ, Null)]);
      WellFormed(j) && Stringify(RoundTrip(Canonicalize(j))) != Stringify(Canonicalize(j))
  {
    AccentedKeyOrders();
    TwoKeysDisagree(E_ACUTE, ZZ);
  }

  lemma TwoKeysDisagree(a: Key, b: Key)
    requires a != b && !IntegerLike(a) && !IntegerLike(b) && KeyLess(a, b, ByUnits) && !KeyLess(a, b, ByBytes)
    ensures var j := Obj([Entry(a, Null), Entry(b, Null)]);
      WellFormed(j) && Stringify(RoundTrip(Canonicalize(j))) != Stringify(Canonicalize(j))
  {
    var es := [Entry(a, Null), Entry(b, Null)];
    assert es[0] in es && es[1] in es;
    assert !OrdersAgreeOn(es);
    TextSurvivesIff(Obj(es));
  }

  /** Every integer-like key sorts before every key that is not. */
  ghost predicate IntegerKeysAreLeast(es: seq<Entry>) {
    forall x, y :: x in es && y in es && IntegerLike(x.key) && !IntegerLike(y.key) ==> KeyLess(x.key, y.key, ByBytes)
  }

  lemma IntegerLikeIsAscii(k: Key)
    requires IntegerLike(k)
    ensures Encode(k, ByUnits) == k && Encode(k, ByBytes) == k
  {
    AsciiIsItsCode(k, ByUnits);
    AsciiIsItsCode(k, ByBytes);
  }

  lemma IntegersAscendAlike(integers: seq<Entry>)
    requires Ascending(integers, ByUnits) && forall x :: x in integers ==> IntegerLike(x.key)
    ensures Ascending(integers, ByBytes)
  {
    forall i, j | 0 <= i < j < |integers| ensures KeyLess(integers[i].key, integers[j].key, ByBytes) {
      assert integers[i] in integers && integers[j] in integers;
      IntegerLikeIsAscii(integers[i].key);
      IntegerLikeIsAscii(integers[j].key);
    }
  }

  lemma JoinAscends(first: seq<Entry>, rest: seq<Entry>)
    requires Ascending(first, ByBytes)
    ensures Ascending(first + rest, ByBytes) <==>
      Ascending(rest, ByBytes) && forall x, y :: x in first && y in rest ==> KeyLess(x.key, y.key, ByBytes)
  {
    var all := first + rest;
    if Ascending(all, ByBytes) {
      forall x, y | x in first && y in rest ensures KeyLess(x.key, y.key, ByBytes) {
        var i :| 0 <= i < |first| && first[i] == x;
        var j :| 0 <= j < |rest| && rest[j] == y;
        assert all[i] == x && all[|first| + j] == y;
      }
      forall i, j | 0 <= i < j < |rest| ensures KeyLess(rest[i].key, rest[j].key, ByBytes) {
        assert all[|first| + i] == rest[i] && all[|first| + j] == rest[j];
      }
    }
    if Ascending(rest, ByBytes) && forall x, y :: x in first && y in rest ==> KeyLess(x.key, y.key, ByBytes) {
      forall i, j | 0 <= i < j < |all| ensures KeyLess(all[i].key, all[j].key, ByBytes) {
        if i < |first| && j >= |first| {
          assert all[i] in first && all[j] in rest;
        }
      }
    }
  }

  /**
   * The order itself, by byte length and then bytes, is what a normalized object lists exactly if, besides, every
   * integer-like key precedes every other key in it: objects list integer-like keys first whatever the sort did.
   */
  lemma PromisedOrderIff(es: seq<Entry>)
    requires DistinctKeys(es)
    ensures Ascending(FromEntries(Sort(es, ByUnits)).entries, ByBytes) <==> IntegerKeysAreLeast(es) && OrdersAgreeOn(es)
  {
    Parts(es, ByUnits);
    var integers, others := Sort(Keep(Sort(es, ByUnits), true), ByUnits), Keep(Sort(es, ByUnits), false);
    IntegersAscendAlike(integers);
    JoinAscends(integers, others);
    if Ascending(others, ByBytes) {
      forall p, q | p in es && q in es && !IntegerLike(p.key) && !IntegerLike(q.key)
        ensures KeyLess(p.key, q.key, ByUnits) <==> KeyLess(p.key, q.key, ByBytes)
      {
        BothAscend(others, p, q);
      }
    }
    if OrdersAgreeOn(es) {
      forall i, j | 0 <= i < j < |others| ensures KeyLess(others[i].key, others[j].key, ByBytes) {
        assert others[i] in others && others[j] in others;
      }
    }
  }
}
