/** Exactly when following cursors loses nothing (outlook.py 1169-1253). When the store lets read mail
    through its unread filter, a page of read rows ends the listing. */
module PagingUnread {
  import opened Common
  import opened Cursors
  import opened Paging
  import opened PagingOneRow

  // ---- a run that ends too early ----

  /** Where a cursor stands, with read mail ahead of unread mail that is still missing. */
  ghost predicate Blocked(folder: set<Row>, returned: set<Row>, prev: Option<Mark>, x: Row, y: Row) {
    && GoodIds(folder) && SecondsDoNotHide(Asked(folder, true)) && InStep(Asked(folder, true), returned, prev)
    && x in folder && !x.unread && !Passed(folder, x) && (prev.Some? ==> x.received <= prev.value.before)
    && y in Asked(folder, true) - returned && y.received <= x.received
  }

  /** One more page of one row: either it is empty and ends the listing, or it shows an unread row
      newer than the read one, which still stands in the way. */
  lemma BlockedPage(clock: Clock, folder: set<Row>, returned: set<Row>, prev: Option<Mark>, x: Row, y: Row)
    returns (table: seq<Row>, page: Page, next: Mark)
    requires Blocked(folder, returned, prev, x, y)
    ensures IsTable(folder, Upper(prev), table) && page == PageOf(clock, table, 1, prev, true)
    ensures page.cursor.None? ==> page.items == []
    ensures page.cursor.Some? ==>
              && page.cursor == TextOf(clock, Some(next)) && |page.items| == 1 && y !in page.items
              && page.items[0] in Asked(folder, true) - returned
              && Blocked(folder, returned + {page.items[0]}, Some(next), x, y)
  {
    var asked, skip := Asked(folder, true), SkipSet(prev);
    var rows := set r | r in folder && (prev.Some? ==> r.received <= prev.value.before);
    table := SomeTable(rows);
    XIsWanted(folder, returned, prev, x, y);
    var k := SomeFirst(table, skip, 0, y);
    OneRow(clock, table, prev, k, true);
    page := PageOf(clock, table, 1, prev, true);
    next := Mark(0, []);
    if table[k].unread {
      var f := table[k];
      FirstIsNewer(table, skip, k, x);
      next := NextCursor([f], true, prev).value;
      FirstStepsOn(folder, returned, prev, table, k, x, y);
      assert page.items == [f];
    }
  }

  lemma XIsWanted(folder: set<Row>, returned: set<Row>, prev: Option<Mark>, x: Row, y: Row)
    requires Blocked(folder, returned, prev, x, y)
    ensures Wanted(x, SkipSet(prev)) && Wanted(y, SkipSet(prev)) && (prev.Some? ==> y.received <= prev.value.before)
  {
    assert x.id in SkipSet(prev) ==> IdOf(x.id, returned);
  }

  /** An unread row that is first in such a table is newer than every read row. */
  lemma FirstIsNewer(table: seq<Row>, skip: set<string>, k: nat, x: Row)
    requires NewestFirst(table) && ReadFirst(table) && FirstWanted(table, skip, k) && table[k].unread
    requires x in table && !x.unread && Wanted(x, skip)
    ensures x.received < table[k].received && k + 1 < |table|
  {
    var i :| 0 <= i < |table| && table[i] == x;
    assert i > k;
  }

  lemma FirstStepsOn(folder: set<Row>, returned: set<Row>, prev: Option<Mark>, table: seq<Row>, k: nat, x: Row, y: Row)
    requires Blocked(folder, returned, prev, x, y) && IsTable(folder, Upper(prev), table)
    requires FirstWanted(table, SkipSet(prev), k) && table[k].unread && x.received < table[k].received
    ensures table[k] in Asked(folder, true) - returned && table[k] != y
    ensures Blocked(folder, returned + {table[k]}, NextCursor([table[k]], true, prev), x, y)
  {
    var asked, f := Asked(folder, true), table[k];
    FirstIsMissing(folder, returned, prev, table, k);
    NextInStep(asked, returned, prev, [f]);
    assert (set r | r in [f]) == {f};
    StaysBehind(folder, x, f);
  }

  lemma FirstIsMissing(folder: set<Row>, returned: set<Row>, prev: Option<Mark>, table: seq<Row>, k: nat)
    requires GoodIds(folder) && InStep(Asked(folder, true), returned, prev) && IsTable(folder, Upper(prev), table)
    requires FirstWanted(table, SkipSet(prev), k) && table[k].unread
    ensures table[k] in Asked(folder, true) - returned
    ensures forall q <- Asked(folder, true) - returned :: q.received <= table[k].received
  {
    var asked := Asked(folder, true);
    assert table[k] in table;
    OffersTheMissing(folder, asked, returned, prev, table);
    forall q | q in asked - returned ensures q.received <= table[k].received {
      var i :| 0 <= i < |table| && table[i] == q;
      assert i >= k;
    }
  }

  /** A read row older than f, and not passed over, is not newer than the second of f. */
  lemma StaysBehind(folder: set<Row>, x: Row, f: Row)
    requires f in folder && f.unread && x.received < f.received && !Passed(folder, x)
    ensures x.received <= WholeSecond(f.received)
  {
    assert WholeSecond(x.received) == WholeSecond(f.received) ==> x.received == WholeSecond(x.received);
  }

  lemma {:induction false} BlockedRunEndsEarly(clock: Clock, folder: set<Row>, returned: set<Row>, prev: Option<Mark>,
                                               x: Row, y: Row)
    returns (limits: seq<nat>, pages: seq<Page>)
    requires clock.Lawful() && Blocked(folder, returned, prev, x, y)
    ensures EndsEarly(clock, folder, TextOf(clock, prev), limits, pages, y)
    decreases |Asked(folder, true) - returned|
  {
    var table, page, next := BlockedPage(clock, folder, returned, prev, x, y);
    assert IsPage(clock, folder, TextOf(clock, prev), 1, true, page) by {
      SameMark(clock, folder, returned, prev, x, y);
      assert Shows(clock, folder, TextOf(clock, prev), 1, true, page, prev, table);
    }
    if page.cursor.None? {
      limits, pages := [1], [page];
      LastPage(clock, folder, TextOf(clock, prev), page, y);
    } else {
      var f := page.items[0];
      OneFewer(Asked(folder, true), returned, f);
      var moreLimits, more := BlockedRunEndsEarly(clock, folder, returned + {f}, Some(next), x, y);
      limits, pages := [1] + moreLimits, [page] + more;
      PageBefore(clock, folder, TextOf(clock, prev), page, moreLimits, more, y);
    }
  }

  ghost predicate EndsEarly(clock: Clock, folder: set<Row>, cursor: Option<string>, limits: seq<nat>, pages: seq<Page>, y: Row) {
    Run(clock, folder, cursor, true, limits, pages) && Finished(pages) && Ones(limits) && y !in Items(pages)
  }

  lemma OneFewer(asked: set<Row>, returned: set<Row>, f: Row)
    requires f in asked - returned
    ensures |asked - (returned + {f})| < |asked - returned|
  {
    assert asked - (returned + {f}) == asked - returned - {f};
  }

  lemma LastPage(clock: Clock, folder: set<Row>, cursor: Option<string>, page: Page, y: Row)
    requires IsPage(clock, folder, cursor, 1, true, page) && page.cursor.None? && page.items == []
    ensures EndsEarly(clock, folder, cursor, [1], [page], y)
  {
    OnePageItems(page);
  }

  lemma PageBefore(clock: Clock, folder: set<Row>, cursor: Option<string>, page: Page, limits: seq<nat>, pages: seq<Page>, y: Row)
    requires IsPage(clock, folder, cursor, 1, true, page) && page.cursor.Some? && y !in page.items
    requires EndsEarly(clock, folder, page.cursor, limits, pages, y)
    ensures EndsEarly(clock, folder, cursor, [1] + limits, [page] + pages, y)
  {
    RunBefore(clock, folder, cursor, true, page, limits, pages);
    ItemsBefore(page, pages);
    assert Ones([1] + limits);
  }

  lemma SameMark(clock: Clock, folder: set<Row>, returned: set<Row>, prev: Option<Mark>, x: Row, y: Row)
    requires clock.Lawful() && Blocked(folder, returned, prev, x, y)
    ensures Decodes(clock, TextOf(clock, prev), prev)
  {
    if prev.Some? {
      forall id | id in prev.value.skip ensures PlainId(id) {
        assert id in SkipSet(prev) && IdOf(id, returned);
      }
      DecodeInvertsEncode(clock, prev.value.before, prev.value.skip);
    }
  }

  /** Wherever a read row stands in the way, a finished run misses an unread row. */
  lemma ReadRowEndsListing(clock: Clock, folder: set<Row>) returns (limits: seq<nat>, pages: seq<Page>, y: Row)
    requires clock.Lawful() && GoodIds(folder) && SecondsDoNotHide(Asked(folder, true)) && !NoReadBlocks(folder, true)
    ensures y in folder && y.unread && EndsEarly(clock, folder, None, limits, pages, y)
  {
    var x, z :| x in folder && z in folder && !x.unread && z.unread && x.received >= z.received && !Passed(folder, x);
    y := z;
    assert InStep(Asked(folder, true), {}, None);
    limits, pages := BlockedRunEndsEarly(clock, folder, {}, None, x, y);
  }

  // ---- the exact condition ----

  /** Every finished run, for any limits and any order of equal times, returns every row asked for. */
  ghost predicate AllAreListed(clock: Clock, folder: set<Row>, unreadOnly: bool) {
    forall limits, pages :: Run(clock, folder, None, unreadOnly, limits, pages) && Finished(pages) ==>
      forall r <- Asked(folder, unreadOnly) :: r in Items(pages)
  }

  /** For every folder: exactly when following the cursors loses nothing. */
  lemma ListingIsExact(clock: Clock, folder: set<Row>, unreadOnly: bool)
    requires clock.Lawful() && GoodIds(folder)
    ensures AllAreListed(clock, folder, unreadOnly) <==>
            SecondsDoNotHide(Asked(folder, unreadOnly)) && NoReadBlocks(folder, unreadOnly)
  {
    if !SecondsDoNotHide(Asked(folder, unreadOnly)) {
      var limits, pages, y := AHidingSecondLosesARow(clock, folder, unreadOnly);
    } else if !NoReadBlocks(folder, unreadOnly) {
      var limits, pages, y := ReadRowEndsListing(clock, folder);
    } else {
      forall limits, pages | Run(clock, folder, None, unreadOnly, limits, pages) && Finished(pages)
        ensures forall r <- Asked(folder, unreadOnly) :: r in Items(pages)
      {
        PagingIsComplete(clock, folder, unreadOnly, limits, pages);
      }
    }
  }

  /** No read row is as new as an unread one. */
  ghost predicate ReadIsOlder(folder: set<Row>) {
    forall x, y :: x in folder && y in folder && !x.unread && y.unread ==> x.received < y.received
  }

  /** Where no second hides any row of the folder, read ones included, unread mail is listed without
      loss exactly if all of it is newer than the read mail that the store lets through. */
  lemma UnreadListingIsExact(clock: Clock, folder: set<Row>)
    requires clock.Lawful() && GoodIds(folder) && SecondsDoNotHide(folder)
    ensures AllAreListed(clock, folder, true) <==> ReadIsOlder(folder)
  {
    ListingIsExact(clock, folder, true);
    forall x | x in folder && !x.unread ensures !Passed(folder, x) {
      NothingPasses(folder, x);
    }
  }

  lemma NothingPasses(folder: set<Row>, x: Row)
    requires SecondsDoNotHide(folder) && x in folder && !x.unread
    ensures !Passed(folder, x)
  {
    forall f | f in folder && f.unread && x.received < f.received && WholeSecond(f.received) == WholeSecond(x.received)
      ensures x.received == WholeSecond(x.received)
    {
      assert f.received != WholeSecond(f.received);
    }
  }

  /** An instance: one read mail newer than an unread one. */
  lemma InexactFilterExample(clock: Clock) returns (folder: set<Row>)
    requires clock.Lawful()
    ensures GoodIds(folder) && SecondsDoNotHide(folder) && !AllAreListed(clock, folder, true)
  {
    var x, y := Row("x", 2_000_000, false), Row("y", 1_000_000, true);
    folder := {x, y};
    assert x in folder && y in folder;
    UnreadListingIsExact(clock, folder);
  }
}
