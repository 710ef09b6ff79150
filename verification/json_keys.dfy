/** What the orders on keys are: codes of scalar values, the first difference, integer-like keys by value. */
module JsonKeys {
  import opened CanonicalJson
  import opened JsonRoundTrip

  // ---------- the two encodings ----------

  /** Sections 2.1 and 2.2 of RFC 2781: one unit, or a pair out of the two surrogate ranges. */
  lemma UnitsOfAScalar(c: Scalar)
    ensures var u := Utf16(c);
      if c < 0x10000 then u == [c]
      else
        |u| == 2 && 0xD800 <= u[0] < 0xDC00 && 0xDC00 <= u[1] < 0xE000 &&
        c == 0x10000 + 0x400 * (u[0] - 0xD800) + (u[1] - 0xDC00)
  {
  }

  /** A continuation byte and its six bits. */
  predicate Continues(b: nat) { 0x80 <= b < 0xC0 }

  /** Section 3 of RFC 3629: as few bytes as the value needs, the lead telling how many follow. */
  lemma BytesOfAScalar(c: Scalar)
    ensures var b := Utf8(c);
      if c < 0x80 then b == [c]
      else if c < 0x800 then
        |b| == 2 && 0xC0 <= b[0] < 0xE0 && Continues(b[1]) && c == 0x40 * (b[0] - 0xC0) + (b[1] - 0x80)
      else if c < 0x10000 then
        |b| == 3 && 0xE0 <= b[0] < 0xF0 && Continues(b[1]) && Continues(b[2]) &&
        c == 0x1000 * (b[0] - 0xE0) + 0x40 * (b[1] - 0x80) + (b[2] - 0x80)
      else
        |b| == 4 && 0xF0 <= b[0] < 0xF8 && Continues(b[1]) && Continues(b[2]) && Continues(b[3]) &&
        c == 0x40000 * (b[0] - 0xF0) + 0x1000 * (b[1] - 0x80) + 0x40 * (b[2] - 0x80) + (b[3] - 0x80)
  {
  }

  // ---------- first difference ----------

  /** Up to place n the two are alike; there the first one ends or has the smaller unit. */
  predicate DiffersAt(a: seq<nat>, b: seq<nat>, n: nat) {
    n <= |a| && n < |b| && a[..n] == b[..n] && (n < |a| ==> a[n] < b[n])
  }

  lemma DiffersLater(a: seq<nat>, b: seq<nat>, n: nat)
    requires |a| > 0 && |b| > 0 && a[0] == b[0]
    ensures DiffersAt(a[1..], b[1..], n) <==> DiffersAt(a, b, n + 1)
  {
    if n < |a| && n < |b| {
      assert a[..n + 1] == [a[0]] + a[1..][..n] && b[..n + 1] == [b[0]] + b[1..][..n];
      assert a[..n + 1][1..] == a[1..][..n] && b[..n + 1][1..] == b[1..][..n];
    }
  }

  lemma HeadsOfDiffering(a: seq<nat>, b: seq<nat>, n: nat)
    requires DiffersAt(a, b, n)
    ensures |b| > 0 && (|a| == 0 || a[0] <= b[0])
  {
    if n > 0 {
      assert a[..n][0] == b[..n][0];
    }
  }

  lemma {:induction false} LexLessIff(a: seq<nat>, b: seq<nat>)
    ensures LexLess(a, b) <==> exists n: nat :: DiffersAt(a, b, n)
    decreases |a|
  {
    if |a| > 0 && |b| > 0 && a[0] == b[0] {
      LexLessIff(a[1..], b[1..]);
      if n: nat :| DiffersAt(a[1..], b[1..], n) {
        DiffersLater(a, b, n);
      }
      if n: nat :| DiffersAt(a, b, n) {
        DiffersLater(a, b, n - 1);
      }
    } else if LexLess(a, b) {
      assert DiffersAt(a, b, 0);
    } else if n: nat :| DiffersAt(a, b, n) {
      HeadsOfDiffering(a, b, n);
    }
  }

  /** The comparator and jsonb alike: the shorter code first, of two equally long ones that with the smaller unit. */
  lemma KeyLessIff(a: Key, b: Key, o: Order)
    ensures var x, y := Encode(a, o), Encode(b, o);
      KeyLess(a, b, o) <==> |x| < |y| || (|x| == |y| && exists n: nat :: DiffersAt(x, y, n))
  {
    LexLessIff(Encode(a, o), Encode(b, o));
  }

  // ---------- integer-like keys are the decimal numerals, and come first by value ----------

  function Decimal(n: nat): (r: Key)
    ensures |r| > 0
  {
    if n < 10 then [48 + n] else Decimal(n / 10) + [48 + n % 10]
  }

  ghost predicate Digits(k: Key) { forall i :: 0 <= i < |k| ==> 48 <= k[i] <= 57 }

  lemma {:induction false} DecimalReads(n: nat)
    ensures Digits(Decimal(n)) && Numeral(Decimal(n)) == n
    ensures Decimal(n)[0] == 48 <==> n == 0
    ensures n < 10 ==> |Decimal(n)| == 1
  {
    if n >= 10 {
      DecimalReads(n / 10);
      assert Decimal(n)[..|Decimal(n)| - 1] == Decimal(n / 10);
    } else {
      assert Decimal(n)[..0] == [];
    }
  }

  lemma {:induction false} NumeralIsNatural(k: Key)
    requires Digits(k)
    ensures Numeral(k) >= 0 && (|k| > 0 && k[0] != 48 ==> Numeral(k) > 0)
  {
    if |k| > 0 {
      NumeralIsNatural(k[..|k| - 1]);
    }
  }

  lemma {:induction false} NumeralWrites(k: Key)
    requires |k| > 0 && Digits(k) && (k[0] == 48 ==> |k| == 1)
    ensures Numeral(k) >= 0 && Decimal(Numeral(k)) == k
    decreases |k|
  {
    NumeralIsNatural(k);
    if |k| == 1 {
      assert k[..0] == [];
      assert k == [k[0]];
    } else {
      var front := k[..|k| - 1];
      NumeralIsNatural(front);
      NumeralWrites(front);
      var n := Numeral(k);
      assert n / 10 == Numeral(front) && n % 10 == k[|k| - 1] - 48;
      assert k == front + [k[|k| - 1]];
    }
  }

  lemma DecimalIsIntegerLike(n: nat)
    requires n < 0xFFFF_FFFF
    ensures IntegerLike(Decimal(n))
  {
    DecimalReads(n);
  }

  lemma IntegerLikeIff(k: Key)
    ensures IntegerLike(k) <==> exists n: nat :: n < 0xFFFF_FFFF && k == Decimal(n)
  {
    if IntegerLike(k) {
      NumeralWrites(k);
    }
    if n: nat :| n < 0xFFFF_FFFF && k == Decimal(n) {
      DecimalIsIntegerLike(n);
    }
  }

  lemma {:induction false} LexLessAtTheEnd(a: seq<nat>, b: seq<nat>, x: nat, y: nat)
    requires |a| == |b|
    ensures LexLess(a + [x], b + [y]) <==> LexLess(a, b) || (a == b && x < y)
    decreases |a|
  {
    if |a| > 0 {
      assert (a + [x])[1..] == a[1..] + [x] && (b + [y])[1..] == b[1..] + [y];
      LexLessAtTheEnd(a[1..], b[1..], x, y);
      assert a == [a[0]] + a[1..] && b == [b[0]] + b[1..];
    }
  }

  lemma {:induction false} SmallerIsBefore(m: nat, n: nat)
    requires m < n
    ensures Before(Decimal(m), Decimal(n))
    decreases n
  {
    if m >= 10 {
      if m / 10 < n / 10 {
        SmallerIsBefore(m / 10, n / 10);
      }
      if |Decimal(m)| == |Decimal(n)| {
        LexLessAtTheEnd(Decimal(m / 10), Decimal(n / 10), 48 + m % 10, 48 + n % 10);
      }
    }
  }

  lemma IntegersByValue(m: nat, n: nat)
    requires m < 0xFFFF_FFFF && n < 0xFFFF_FFFF
    ensures KeyLess(Decimal(m), Decimal(n), ByUnits) <==> m < n
  {
    DecimalIsIntegerLike(m);
    DecimalIsIntegerLike(n);
    IntegerLikeIsAscii(Decimal(m));
    IntegerLikeIsAscii(Decimal(n));
    KeyOrder(Decimal(m), Decimal(n), Decimal(m), ByUnits);
    if m < n {
      SmallerIsBefore(m, n);
    } else if n < m {
      SmallerIsBefore(n, m);
    }
  }

  lemma {:induction false} KeepDistinct(es: seq<Entry>, integers: bool)
    requires DistinctKeys(es)
    ensures DistinctKeys(Keep(es, integers))
  {
    if |es| > 0 {
      KeepDistinct(es[1..], integers);
      var rest := Keep(es[1..], integers);
      forall j | 0 <= j < |rest| ensures rest[j].key != es[0].key {
        KeepHolds(es[1..], integers, rest[j]);
        var i :| 0 <= i < |es[1..]| && es[1..][i] == rest[j];
        assert es[i + 1] == rest[j];
      }
    }
  }

  lemma ListedFirst(es: seq<Entry>, i: nat, j: nat)
    requires DistinctKeys(es) && i < j < |FromEntries(es).entries|
    ensures var out := FromEntries(es).entries;
      IntegerLike(out[j].key) ==> IntegerLike(out[i].key) && KeyLess(out[i].key, out[j].key, ByUnits)
  {
    var first, rest := Sort(Keep(es, true), ByUnits), Keep(es, false);
    KeepDistinct(es, true);
    SortKeeps(Keep(es, true), ByUnits);
    if j < |first| {
      assert first[i] in first && first[j] in first;
      KeepHolds(es, true, first[i]);
    } else {
      assert rest[j - |first|] in rest;
      KeepHolds(es, false, rest[j - |first|]);
    }
  }

  /** What an object lists: integer-like keys ascending by value, and only then the others. */
  lemma ObjectsListIntegersFirst(es: seq<Entry>, i: nat, j: nat, n: nat)
    requires DistinctKeys(es) && i < j < |FromEntries(es).entries|
    requires n < 0xFFFF_FFFF && FromEntries(es).entries[j].key == Decimal(n)
    ensures exists m: nat :: m < n && FromEntries(es).entries[i].key == Decimal(m)
  {
    DecimalIsIntegerLike(n);
    ListedFirst(es, i, j);
    IntegerLikeIff(FromEntries(es).entries[i].key);
    var m: nat :| m < 0xFFFF_FFFF && FromEntries(es).entries[i].key == Decimal(m);
    IntegersByValue(m, n);
  }
}
