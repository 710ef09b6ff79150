/**
 * Keyset pages of campaign content and the preview that drains them (src/campaigns/content.ts,
 * src/campaigns/persistence.ts).
 */
module ContentPages {
  import opened Wrappers
  import opened Policy

  /** `micros` is the stored creation instant; cursors carry it cut to the millisecond. */
  datatype Row = Row(
    id: nat, micros: nat, campaignId: string, active: bool, creator: UserId, audience: ContentAudience,
    grants: set<UserId>)

  datatype Cursor = Cursor(ms: nat, id: nat)

  datatype Reader = Reader(campaignId: string, actor: UserId, isGm: bool)

  function Key(r: Row): Cursor { Cursor(r.micros / 1000, r.id) }

  predicate Less(a: Cursor, b: Cursor) { a.ms < b.ms || (a.ms == b.ms && a.id < b.id) }

  /** The visibility predicate inside the page query. */
  predicate SqlVisible(r: Row, actor: UserId, isGm: bool) {
    || r.audience == AllPlayers
    || (isGm && (r.audience == GmOnlyNote || r.audience == SelectedPlayers))
    || (r.audience == SelectedPlayers && actor in r.grants)
    || (r.audience == OwnerOnlyNote && r.creator == actor)
  }

  predicate Selected(r: Row, reader: Reader) {
    r.campaignId == reader.campaignId && r.active && SqlVisible(r, reader.actor, reader.isGm)
  }

  /** The query's predicate and the policy that guards single reads agree for every active member. */
  lemma QueryVisibilityIsPolicy(r: Row, actor: UserId, m: Option<Member>)
    requires IsActive(m)
    ensures SqlVisible(r, actor, IsGameMaster(m)) <==> CanReadContent(r.audience, r.creator, r.grants, actor, m)
  {
  }

  // ---------- ORDER BY ... DESC ----------

  predicate Descending(rows: seq<Row>) {
    forall i, j :: 0 <= i < j < |rows| ==> Less(Key(rows[j]), Key(rows[i]))
  }

  predicate DistinctIds(rows: seq<Row>) {
    forall i, j :: 0 <= i < j < |rows| ==> rows[i].id != rows[j].id
  }

  function Insert(rows: seq<Row>, r: Row): seq<Row> {
    if |rows| == 0 || Less(Key(rows[0]), Key(r)) then [r] + rows else [rows[0]] + Insert(rows[1..], r)
  }

  function Sort(rows: seq<Row>): seq<Row> {
    if |rows| == 0 then [] else Insert(Sort(rows[1..]), rows[0])
  }

  function Filter(rows: seq<Row>, keep: Row -> bool): seq<Row> {
    if |rows| == 0 then [] else
    if keep(rows[0]) then [rows[0]] + Filter(rows[1..], keep) else Filter(rows[1..], keep)
  }

  lemma FirstAndRest(rows: seq<Row>)
    requires |rows| > 0
    ensures multiset(rows) == multiset{rows[0]} + multiset(rows[1..])
  {
    assert rows == [rows[0]] + rows[1..];
  }

  lemma {:induction false} InsertContents(rows: seq<Row>, r: Row)
    ensures multiset(Insert(rows, r)) == multiset(rows) + multiset{r}
  {
    if |rows| > 0 && !Less(Key(rows[0]), Key(r)) {
      InsertContents(rows[1..], r);
      FirstAndRest(rows);
    }
  }

  lemma {:induction false} SortContents(rows: seq<Row>)
    ensures multiset(Sort(rows)) == multiset(rows)
  {
    if |rows| > 0 {
      SortContents(rows[1..]);
      InsertContents(Sort(rows[1..]), rows[0]);
      FirstAndRest(rows);
    }
  }

  lemma {:induction false} InsertDescending(rows: seq<Row>, r: Row)
    requires Descending(rows) && forall i :: 0 <= i < |rows| ==> rows[i].id != r.id
    ensures Descending(Insert(rows, r))
  {
    if |rows| > 0 && !Less(Key(rows[0]), Key(r)) {
      InsertDescending(rows[1..], r);
      var rest := Insert(rows[1..], r);
      forall j | 0 <= j < |rest| ensures Less(Key(rest[j]), Key(rows[0])) {
        InsertContents(rows[1..], r);
        assert rest[j] in multiset(rest);
        assert rest[j] in rows[1..] || rest[j] == r;
      }
    }
  }

  lemma {:induction false} SortDescending(rows: seq<Row>)
    requires DistinctIds(rows)
    ensures Descending(Sort(rows))
  {
    if |rows| > 0 {
      SortDescending(rows[1..]);
      SortContents(rows[1..]);
      forall i | 0 <= i < |Sort(rows[1..])| ensures Sort(rows[1..])[i].id != rows[0].id {
        assert Sort(rows[1..])[i] in multiset(Sort(rows[1..]));
        assert Sort(rows[1..])[i] in rows[1..];
      }
      InsertDescending(Sort(rows[1..]), rows[0]);
    }
  }

  lemma {:induction false} FilterMembers(rows: seq<Row>, keep: Row -> bool)
    ensures forall r :: r in Filter(rows, keep) <==> r in rows && keep(r)
    ensures DistinctIds(rows) ==> DistinctIds(Filter(rows, keep))
  {
    if |rows| > 0 {
      FilterMembers(rows[1..], keep);
      assert rows == [rows[0]] + rows[1..];
      if DistinctIds(rows) {
        assert DistinctIds(rows[1..]);
        forall r | r in Filter(rows[1..], keep) ensures r.id != rows[0].id {
          assert r in rows[1..];
        }
      }
    }
  }

  lemma {:induction false} FilterInsert(rows: seq<Row>, r: Row, keep: Row -> bool)
    requires Descending(rows)
    ensures Filter(Insert(rows, r), keep) == if keep(r) then Insert(Filter(rows, keep), r) else Filter(rows, keep)
  {
    if |rows| == 0 || Less(Key(rows[0]), Key(r)) {
      assert ([r] + rows)[1..] == rows;
      FilterMembers(rows, keep);
      if |Filter(rows, keep)| > 0 {
        var head := Filter(rows, keep)[0];
        assert head in rows;
      }
    } else {
      FilterInsert(rows[1..], r, keep);
      assert ([rows[0]] + Insert(rows[1..], r))[1..] == Insert(rows[1..], r);
      assert keep(rows[0]) ==> ([rows[0]] + Filter(rows[1..], keep))[1..] == Filter(rows[1..], keep);
      if !keep(rows[0]) && keep(r) {
      }
    }
  }

  /** Filtering and ordering commute: WHERE before ORDER BY is WHERE after it. */
  lemma {:induction false} FilterSort(rows: seq<Row>, keep: Row -> bool)
    requires DistinctIds(rows)
    ensures Sort(Filter(rows, keep)) == Filter(Sort(rows), keep)
  {
    if |rows| > 0 {
      FilterSort(rows[1..], keep);
      SortDescending(rows[1..]);
      FilterInsert(Sort(rows[1..]), rows[0], keep);
      if keep(rows[0]) {
        assert ([rows[0]] + Filter(rows[1..], keep))[1..] == Filter(rows[1..], keep);
      }
    }
  }

  // ---------- the page query ----------

  predicate After(r: Row, cursor: Option<Cursor>) { cursor.None? || Less(Key(r), cursor.value) }

  function Take(rows: seq<Row>, n: nat): seq<Row> { if |rows| <= n then rows else rows[..n] }

  /**
   * WHERE campaign, status, visibility and keyset clause; ORDER BY; LIMIT limit + 1. The table keeps rows in no
   * particular order.
   */
  function ListContentPage(table: seq<Row>, reader: Reader, limit: nat, cursor: Option<Cursor>): seq<Row> {
    Take(Sort(Filter(table, r => Selected(r, reader) && After(r, cursor))), limit + 1)
  }

  /** What the reader may see, in reading order. */
  ghost function Listing(table: seq<Row>, reader: Reader): seq<Row> {
    Sort(Filter(table, r => Selected(r, reader)))
  }

  lemma {:induction false} FilterTwice(rows: seq<Row>, p: Row -> bool, q: Row -> bool, both: Row -> bool)
    requires forall r :: both(r) <==> p(r) && q(r)
    ensures Filter(rows, both) == Filter(Filter(rows, p), q)
  {
    if |rows| > 0 {
      FilterTwice(rows[1..], p, q, both);
      if p(rows[0]) {
        assert ([rows[0]] + Filter(rows[1..], p))[1..] == Filter(rows[1..], p);
      }
    }
  }

  /** After the key of its n-th row, an ordered listing continues with its tail. */
  lemma {:induction false} AfterIsTail(rows: seq<Row>, n: nat, keep: Row -> bool)
    requires Descending(rows) && n <= |rows|
    requires forall i :: 0 <= i < n ==> !keep(rows[i])
    requires forall i :: n <= i < |rows| ==> keep(rows[i])
    ensures Filter(rows, keep) == rows[n..]
  {
    if |rows| > 0 {
      if n == 0 {
        AfterIsTail(rows[1..], 0, keep);
        assert rows == [rows[0]] + rows[1..];
      } else {
        AfterIsTail(rows[1..], n - 1, keep);
      }
    }
  }

  lemma PageIsSlice(table: seq<Row>, reader: Reader, limit: nat, n: nat)
    requires DistinctIds(table) && n <= |Listing(table, reader)|
    ensures var all := Listing(table, reader);
      ListContentPage(table, reader, limit, if n == 0 then None else Some(Key(all[n - 1]))) == Take(all[n..], limit + 1)
  {
    var selected := r => Selected(r, reader);
    var all := Listing(table, reader);
    var cursor := if n == 0 then None else Some(Key(all[n - 1]));
    var after := r => After(r, cursor);
    FilterMembers(table, selected);
    FilterTwice(table, selected, after, r => Selected(r, reader) && After(r, cursor));
    FilterSort(Filter(table, selected), after);
    SortDescending(Filter(table, selected));
    AfterIsTail(all, n, after);
  }

  function PageOf(rows: seq<Row>, pageMax: nat): seq<Row> { if |rows| > pageMax then rows[..pageMax] else rows }

  /** One round: the page extends the prefix read so far, and a short answer means the end. */
  lemma PageExtendsPrefix(all: seq<Row>, n: nat, pageMax: nat)
    requires n <= |all|
    ensures var rows := Take(all[n..], pageMax + 1);
      var page := PageOf(rows, pageMax);
      n + |page| <= |all| && all[..n] + page == all[..n + |page|] &&
      (|rows| <= pageMax <==> n + |page| == |all|) &&
      (|rows| > pageMax && pageMax > 0 ==> |page| > 0 && page[|page| - 1] == all[n + |page| - 1]) &&
      (pageMax == 0 ==> page == [])
  {
    var rows := Take(all[n..], pageMax + 1);
    assert rows <= all[n..];
  }

  /** One query of the drain: the next page, and whether the listing ends with it. */
  method NextPage(table: seq<Row>, reader: Reader, pageMax: nat, cursor: Option<Cursor>, ghost n: nat)
      returns (page: seq<Row>, last: bool)
    requires DistinctIds(table) && n <= |Listing(table, reader)|
    requires cursor == if n == 0 then None else Some(Key(Listing(table, reader)[n - 1]))
    ensures n + |page| <= |Listing(table, reader)| && page == Listing(table, reader)[n..n + |page|]
    ensures last <==> n + |page| == |Listing(table, reader)|
    ensures pageMax == 0 ==> page == []
    ensures pageMax > 0 && !last ==> page != []
  {
    ghost var all := Listing(table, reader);
    PageIsSlice(table, reader, pageMax, n);
    PageExtendsPrefix(all, n, pageMax);
    var rows := ListContentPage(table, reader, pageMax, cursor);
    page, last := PageOf(rows, pageMax), |rows| <= pageMax;
    assert all[..n + |page|][n..] == page;
  }

  /** The preview's drain loop. A page size of zero ends at once; any other size yields the whole listing. */
  method Drain(table: seq<Row>, reader: Reader, pageMax: nat) returns (content: seq<Row>)
    requires DistinctIds(table)
    ensures pageMax > 0 ==> content == Listing(table, reader)
    ensures pageMax == 0 ==> content == []
  {
    ghost var all := Listing(table, reader);
    content := [];
    var cursor := None;
    var more := true;
    while more
      invariant |content| <= |all| && content == all[..|content|]
      invariant pageMax == 0 ==> content == []
      invariant more ==> cursor == if content == [] then None else Some(Key(all[|content| - 1]))
      invariant !more && pageMax > 0 ==> |content| == |all|
      decreases more, |all| - |content|
    {
      var page, last := NextPage(table, reader, pageMax, cursor, |content|);
      content := content + page;
      if last || page == [] {
        more := false;
      } else {
        cursor := Some(Key(page[|page| - 1]));
      }
    }
  }

  /** Newest first, to the millisecond, and rows of one millisecond by descending id. */
  lemma ListingIsNewestFirst(table: seq<Row>, reader: Reader, i: nat, j: nat)
    requires DistinctIds(table) && i < j < |Listing(table, reader)|
    ensures var earlier, later := Listing(table, reader)[i], Listing(table, reader)[j];
      later.micros / 1000 <= earlier.micros / 1000 &&
      (later.micros / 1000 == earlier.micros / 1000 ==> later.id < earlier.id)
  {
    FilterMembers(table, r => Selected(r, reader));
    SortDescending(Filter(table, r => Selected(r, reader)));
  }

  /** So the preview shows each row the member may read exactly once, newest first, whatever shares a millisecond. */
  lemma ListingIsExactlyTheReadableRows(table: seq<Row>, campaignId: string, target: UserId, m: Option<Member>)
    requires DistinctIds(table) && IsActive(m)
    ensures var listing := Listing(table, Reader(campaignId, target, IsGameMaster(m)));
      Descending(listing) && DistinctIds(listing) &&
      forall r :: r in listing <==>
        r in table && r.campaignId == campaignId && r.active &&
          CanReadContent(r.audience, r.creator, r.grants, target, m)
  {
    var reader := Reader(campaignId, target, IsGameMaster(m));
    var visible := Filter(table, r => Selected(r, reader));
    FilterMembers(table, r => Selected(r, reader));
    SortDescending(visible);
    SortContents(visible);
    var listing := Sort(visible);
    forall r ensures r in listing <==>
      r in table && r.campaignId == campaignId && r.active && CanReadContent(r.audience, r.creator, r.grants, target, m)
    {
      assert r in listing <==> r in multiset(listing);
      assert r in visible <==> r in multiset(visible);
      QueryVisibilityIsPolicy(r, target, m);
    }
    SortKeepsIdsDistinct(visible);
  }

  lemma SortKeepsIdsDistinct(rows: seq<Row>)
    requires DistinctIds(rows)
    ensures DistinctIds(Sort(rows))
  {
    SortContents(rows);
    SortDescending(rows);
    var sorted := Sort(rows);
    forall i, j | 0 <= i < j < |sorted| ensures sorted[i].id != sorted[j].id {
      assert sorted[i] in multiset(sorted) && sorted[j] in multiset(sorted);
      var a :| 0 <= a < |rows| && rows[a] == sorted[i];
      var b :| 0 <= b < |rows| && rows[b] == sorted[j];
      assert sorted[i] != sorted[j];
    }
  }
}
