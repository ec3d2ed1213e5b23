/** Pages of one row (outlook.py 1169-1253): from every folder such a run can be followed to its end. */
module PagingOneRow {
  import opened Common
  import opened Cursors
  import opened Paging

  // ---- a table of any folder ----

  /** Among rows of one time the read ones come first. */
  ghost predicate ReadFirst(table: seq<Row>) {
    forall i, j :: 0 <= i < j < |table| && table[i].received == table[j].received && table[i].unread ==> table[j].unread
  }

  predicate Leads(f: Row, q: Row) {
    q.received < f.received || (q.received == f.received && (f.unread ==> q.unread))
  }

  lemma {:induction false} Newest(rows: set<Row>) returns (f: Row)
    requires rows != {}
    ensures f in rows && forall q <- rows :: Leads(f, q)
    decreases |rows|
  {
    var r :| r in rows;
    var rest := rows - {r};
    if rest == {} {
      f := r;
      assert rows == {r};
    } else {
      var g := Newest(rest);
      f := if Leads(r, g) then r else g;
      forall q | q in rows ensures Leads(f, q) {
        assert q in rest ==> Leads(g, q);
      }
    }
  }

  /** The store may hand out the rows of equal times with the read ones first. */
  lemma {:induction false} SomeTable(rows: set<Row>) returns (table: seq<Row>)
    ensures NewestFirst(table) && ReadFirst(table) && forall r :: r in table <==> r in rows
    decreases |rows|
  {
    if rows == {} {
      table := [];
    } else {
      var f := Newest(rows);
      var rest := SomeTable(rows - {f});
      table := [f] + rest;
      forall j | 0 <= j < |rest| ensures rest[j] != f && Leads(f, rest[j]) {
        assert rest[j] in rest;
      }
    }
  }

  // ---- a page of one row ----

  /** The first row of the table that the cursor does not bar, and nothing wanted before it. */
  ghost predicate FirstWanted(table: seq<Row>, skip: set<string>, k: nat) {
    k < |table| && Wanted(table[k], skip) && forall j :: 0 <= j < k ==> !Wanted(table[j], skip)
  }

  lemma {:induction false} SomeFirst(table: seq<Row>, skip: set<string>, i: nat, y: Row) returns (k: nat)
    requires i <= |table| && y in table[i..] && Wanted(y, skip) && forall j :: 0 <= j < i ==> !Wanted(table[j], skip)
    ensures FirstWanted(table, skip, k)
    decreases |table| - i
  {
    if Wanted(table[i], skip) {
      k := i;
    } else {
      k := SomeFirst(table, skip, i + 1, y);
    }
  }

  lemma {:induction false} StopsBehindFirst(table: seq<Row>, skip: set<string>, i: nat, k: nat)
    requires FirstWanted(table, skip, k) && i <= k
    ensures Stop(table, i, 1, skip) == k + 1
    decreases k - i
  {
    if i < k {
      StopsBehindFirst(table, skip, i + 1, k);
    }
  }

  lemma {:induction false} NothingKept(rows: seq<Row>, skip: set<string>)
    requires forall j :: 0 <= j < |rows| ==> !Wanted(rows[j], skip)
    ensures Kept(rows, skip) == []
  {
    if rows == [] {
    } else {
      NothingKept(rows[..|rows| - 1], skip);
    }
  }

  /** A page of one row shows the first wanted row, and nothing if it is read and only unread mail is
      asked for. */
  lemma OneRow(clock: Clock, table: seq<Row>, prev: Option<Mark>, k: nat, unreadOnly: bool)
    requires FirstWanted(table, SkipSet(prev), k)
    ensures var page := PageOf(clock, table, 1, prev, unreadOnly);
            if unreadOnly && !table[k].unread then page == Page([], None)
            else
              && page.items == [table[k]]
              && page.cursor == if k + 1 < |table| then TextOf(clock, NextCursor([table[k]], true, prev)) else None
  {
    OneKept(table, SkipSet(prev), k);
    OneShown(table[k], unreadOnly);
  }

  lemma OneKept(table: seq<Row>, skip: set<string>, k: nat)
    requires FirstWanted(table, skip, k)
    ensures Stop(table, 0, 1, skip) == k + 1 && Kept(table[..k + 1], skip) == [table[k]]
  {
    StopsBehindFirst(table, skip, 0, k);
    TakeOne(table, k);
    NothingKept(table[..k], skip);
  }

  lemma OneShown(row: Row, unreadOnly: bool)
    ensures Shown([row], unreadOnly) == if unreadOnly && !row.unread then [] else [row]
  {
    assert [row][..0] == [] && OnlyUnread([]) == [];
    assert OnlyUnread([row]) == [] + if row.unread then [row] else [];
  }

  lemma {:induction false} StopsNowhere(table: seq<Row>, skip: set<string>, i: nat)
    requires i <= |table| && forall j :: 0 <= j < |table| ==> !Wanted(table[j], skip)
    ensures Stop(table, i, 1, skip) == |table|
    decreases |table| - i
  {
    if i < |table| {
      StopsNowhere(table, skip, i + 1);
    }
  }

  lemma NoRow(clock: Clock, table: seq<Row>, prev: Option<Mark>, unreadOnly: bool)
    requires forall j :: 0 <= j < |table| ==> !Wanted(table[j], SkipSet(prev))
    ensures PageOf(clock, table, 1, prev, unreadOnly) == Page([], None)
  {
    StopsNowhere(table, SkipSet(prev), 0);
    NothingKept(table, SkipSet(prev));
    assert table[..|table|] == table;
  }

  // ---- a finished run ----

  /** The cursor's ids are those of rows of its second or newer. */
  ghost predicate Marks(folder: set<Row>, prev: Option<Mark>) {
    prev.Some? ==> forall id <- SkipSet(prev) :: exists r <- folder :: r.id == id && prev.value.before <= r.received
  }

  /** The rows that the cursor still admits. */
  ghost function Offered(folder: set<Row>, prev: Option<Mark>): set<Row> {
    set r | r in folder && (prev.Some? ==> r.received <= prev.value.before) && r.id !in SkipSet(prev)
  }

  lemma MarkDecodes(clock: Clock, folder: set<Row>, prev: Option<Mark>)
    requires clock.Lawful() && GoodIds(folder) && Marks(folder, prev)
    ensures Decodes(clock, TextOf(clock, prev), prev)
  {
    if prev.Some? {
      forall id | id in prev.value.skip ensures PlainId(id) {
        assert id in SkipSet(prev);
      }
      DecodeInvertsEncode(clock, prev.value.before, prev.value.skip);
    }
  }

  lemma MarkedRow(folder: set<Row>, prev: Option<Mark>, r: Row)
    requires GoodIds(folder) && Marks(folder, prev) && r in folder
    ensures r.id in SkipSet(prev) ==> prev.Some? && prev.value.before <= r.received
  {
  }

  /** Behind a row the cursor admits fewer. */
  lemma FewerOffered(folder: set<Row>, prev: Option<Mark>, f: Row)
    requires GoodIds(folder) && Marks(folder, prev) && f in Offered(folder, prev)
    ensures var next := NextCursor([f], true, prev);
            && next.Some? && Marks(folder, next) && f !in Offered(folder, next)
            && Offered(folder, next) <= Offered(folder, prev)
  {
    var next := NextCursor([f], true, prev);
    assert [f][..0] == [];
    assert SameSecond([f], WholeSecond(f.received)) == [f];
    assert Ids([f]) == [f.id];
    forall id | id in SkipSet(next) ensures exists r <- folder :: r.id == id && next.value.before <= r.received {
      assert id == f.id || id in SkipSet(prev);
    }
    if prev.Some? {
      NoLaterSecond(prev.value.before, f.received);
    }
    forall r | r in Offered(folder, next) ensures r in Offered(folder, prev) {
      MarkedRow(folder, prev, r);
    }
    assert f.id in SkipSet(next);
  }

  lemma NoLaterSecond(before: Whole, t: int)
    requires t <= before
    ensures WholeSecond(t) <= before && (WholeSecond(t) < before ==> t < before)
  {
  }

  /** One more page of one row. */
  lemma OneRowStep(clock: Clock, folder: set<Row>, prev: Option<Mark>, unreadOnly: bool) returns (page: Page, next: Mark)
    requires clock.Lawful() && GoodIds(folder) && Marks(folder, prev)
    ensures IsPage(clock, folder, TextOf(clock, prev), 1, unreadOnly, page)
    ensures page.cursor.Some? ==>
              page.cursor == TextOf(clock, Some(next)) && Marks(folder, Some(next)) && Offered(folder, Some(next)) < Offered(folder, prev)
  {
    var skip := SkipSet(prev);
    var rows := set r | r in folder && (prev.Some? ==> r.received <= prev.value.before);
    var table := SomeTable(rows);
    page, next := PageOf(clock, table, 1, prev, unreadOnly), Mark(0, []);
    MarkDecodes(clock, folder, prev);
    assert Shows(clock, folder, TextOf(clock, prev), 1, unreadOnly, page, prev, table);
    if y :| y in table && Wanted(y, skip) {
      var k := SomeFirst(table, skip, 0, y);
      OneRow(clock, table, prev, k, unreadOnly);
      assert table[k] in table && table[k] in Offered(folder, prev);
      FewerOffered(folder, prev, table[k]);
      next := NextCursor([table[k]], true, prev).value;
    } else {
      NoRow(clock, table, prev, unreadOnly);
    }
  }

  lemma {:induction false} OneRowRun(clock: Clock, folder: set<Row>, prev: Option<Mark>, unreadOnly: bool)
    returns (limits: seq<nat>, pages: seq<Page>)
    requires clock.Lawful() && GoodIds(folder) && Marks(folder, prev)
    ensures Run(clock, folder, TextOf(clock, prev), unreadOnly, limits, pages) && Finished(pages) && Ones(limits)
    decreases |Offered(folder, prev)|
  {
    var page, next := OneRowStep(clock, folder, prev, unreadOnly);
    if page.cursor.None? {
      limits, pages := [1], [page];
      OnlyPage(clock, folder, TextOf(clock, prev), unreadOnly, page);
    } else {
      SubsetSize(Offered(folder, Some(next)), Offered(folder, prev));
      var moreLimits, more := OneRowRun(clock, folder, Some(next), unreadOnly);
      limits, pages := [1] + moreLimits, [page] + more;
      OnePageBefore(clock, folder, TextOf(clock, prev), unreadOnly, page, moreLimits, more);
    }
  }

  lemma OnePageBefore(clock: Clock, folder: set<Row>, cursor: Option<string>, unreadOnly: bool, page: Page, limits: seq<nat>, pages: seq<Page>)
    requires IsPage(clock, folder, cursor, 1, unreadOnly, page) && page.cursor.Some?
    requires Run(clock, folder, page.cursor, unreadOnly, limits, pages) && Finished(pages) && Ones(limits)
    ensures Run(clock, folder, cursor, unreadOnly, [1] + limits, [page] + pages) && Finished([page] + pages) && Ones([1] + limits)
  {
    RunBefore(clock, folder, cursor, unreadOnly, page, limits, pages);
    ItemsBefore(page, pages);
  }

  lemma OnlyPage(clock: Clock, folder: set<Row>, cursor: Option<string>, unreadOnly: bool, page: Page)
    requires IsPage(clock, folder, cursor, 1, unreadOnly, page) && page.cursor.None?
    ensures Run(clock, folder, cursor, unreadOnly, [1], [page]) && Finished([page]) && Ones([1])
  {
  }

  lemma {:induction false} SubsetSize(a: set<Row>, b: set<Row>)
    requires a < b
    ensures |a| < |b|
  {
    assert b == a + (b - a);
    assert b - a != {};
  }

  lemma RunBefore(clock: Clock, folder: set<Row>, cursor: Option<string>, unreadOnly: bool, page: Page, limits: seq<nat>, pages: seq<Page>)
    requires IsPage(clock, folder, cursor, 1, unreadOnly, page) && page.cursor.Some?
    requires Run(clock, folder, page.cursor, unreadOnly, limits, pages)
    ensures Run(clock, folder, cursor, unreadOnly, [1] + limits, [page] + pages)
  {
    assert ([1] + limits)[1..] == limits && ([page] + pages)[1..] == pages;
  }

  lemma ItemsBefore(page: Page, pages: seq<Page>)
    requires Finished(pages)
    ensures Finished([page] + pages) && Items([page] + pages) == page.items + Items(pages)
  {
    assert ([page] + pages)[1..] == pages;
  }

  /** Wherever a second hides a row asked for, a finished run misses one: it is enough to page one row
      at a time. */
  lemma AHidingSecondLosesARow(clock: Clock, folder: set<Row>, unreadOnly: bool)
    returns (limits: seq<nat>, pages: seq<Page>, y: Row)
    requires clock.Lawful() && GoodIds(folder) && !SecondsDoNotHide(Asked(folder, unreadOnly))
    ensures Run(clock, folder, None, unreadOnly, limits, pages) && Finished(pages) && Ones(limits)
    ensures y in Asked(folder, unreadOnly) && y !in Items(pages)
  {
    limits, pages := OneRowRun(clock, folder, None, unreadOnly);
    PagingNeedsTheCondition(clock, folder, unreadOnly, limits, pages);
    y :| y in Asked(folder, unreadOnly) && y !in Items(pages);
  }
}
