/** Listing a folder page by page (outlook.py 397-407, 1169-1256): each page is a fresh query of
    the store, and a text cursor says where the next one continues.

    `received` is in microseconds; a cursor keeps whole seconds only. */
module Cursors {
  import opened Common

  const SECOND := 1_000_000

  type Whole = t: int | t % SECOND == 0

  /** `strftime` and `strptime` of a whole second in UTC. */
  datatype Clock = Clock(show: Whole -> string, read: string -> Option<Whole>) {
    ghost predicate Lawful() {
      forall t: Whole :: '|' !in show(t) && read(show(t)) == Some(t)
    }
  }

  function Join(ids: seq<string>): string {
    if ids == [] then "" else if |ids| == 1 then ids[0] else ids[0] + "," + Join(ids[1..])
  }

  /** Everything before the first c, and everything after it (nothing if there is none). */
  function Partition(s: string, c: char): (string, string) {
    if s == "" then ("", "")
    else if s[0] == c then ("", s[1..])
    else var (head, tail) := Partition(s[1..], c); ([s[0]] + head, tail)
  }

  function Split(s: string): seq<string> {
    if s == "" then [""]
    else
      var rest := Split(s[1..]);
      if s[0] == ',' then [""] + rest else [[s[0]] + rest[0]] + rest[1..]
  }

  function Encode(clock: Clock, before: Whole, skip: seq<string>): string {
    clock.show(before) + "|" + Join(skip)
  }

  function Decode(clock: Clock, cursor: string): Result<(Whole, set<string>), string> {
    var (stamp, ids) := Partition(cursor, '|');
    match clock.read(stamp)
    case Some(before) => Ok((before, set i | i in Split(ids) && i != ""))
    case None => Err("bad cursor")
  }

  predicate PlainId(id: string) { id != "" && ',' !in id }

  lemma {:induction false} SplitPlain(id: string, rest: string)
    requires ',' !in id
    ensures Split(id) == [id]
    ensures Split(id + "," + rest) == [id] + Split(rest)
  {
    var whole := id + "," + rest;
    if id == "" {
      assert whole[1..] == rest;
    } else {
      assert id == [id[0]] + id[1..];
      SplitPlain(id[1..], rest);
      assert whole[1..] == id[1..] + "," + rest;
    }
  }

  lemma {:induction false} SplitJoin(ids: seq<string>)
    requires ids != [] && forall id <- ids :: ',' !in id
    ensures Split(Join(ids)) == ids
  {
    if |ids| == 1 {
      SplitPlain(ids[0], "");
    } else {
      SplitJoin(ids[1..]);
      SplitPlain(ids[0], Join(ids[1..]));
    }
  }

  lemma {:induction false} PartitionFirst(head: string, c: char, tail: string)
    requires c !in head
    ensures Partition(head + [c] + tail, c) == (head, tail)
  {
    var whole := head + [c] + tail;
    if head == "" {
      assert whole[1..] == tail;
    } else {
      assert head == [head[0]] + head[1..];
      PartitionFirst(head[1..], c, tail);
      assert whole[1..] == head[1..] + [c] + tail;
    }
  }

  /** Decoding inverts encoding, for any ids that are not empty and hold no comma. */
  lemma DecodeInvertsEncode(clock: Clock, before: Whole, skip: seq<string>)
    requires clock.Lawful() && forall id <- skip :: PlainId(id)
    ensures Decode(clock, Encode(clock, before, skip)) == Ok((before, set id | id in skip))
  {
    PartitionFirst(clock.show(before), '|', Join(skip));
    assert Encode(clock, before, skip) == clock.show(before) + ['|'] + Join(skip);
    if skip == [] {
      assert Split("") == [""];
      assert (set i | i in Split("") && i != "") == (set id | id in skip);
    } else {
      SplitJoin(skip);
      assert (set i | i in Split(Join(skip)) && i != "") == (set id | id in skip);
    }
  }
}

module Paging {
  import opened Common
  import opened Cursors

  datatype Row = Row(id: string, received: int, unread: bool)

  function WholeSecond(t: int): Whole { t - t % SECOND }

  // ---- one table ----

  /** The store's table: rows in the order in which it hands them out. */
  class Table {
    const rows: seq<Row>
    var pos: nat

    constructor (rows: seq<Row>)
      ensures this.rows == rows && pos == 0
    {
      this.rows := rows;
      pos := 0;
    }

    predicate EndOfTable()
      reads this
    {
      pos >= |rows|
    }

    /** The next rows, at most n. */
    method GetArray(n: nat) returns (chunk: seq<Row>)
      requires pos <= |rows|
      modifies this`pos
      ensures pos == Min(old(pos) + n, |rows|) && chunk == rows[old(pos)..pos]
    {
      var end := if pos + n < |rows| then pos + n else |rows|;
      chunk := rows[pos..end];
      pos := end;
    }
  }

  predicate Wanted(r: Row, skip: set<string>) { r.id != "" && r.id !in skip }

  function Kept(rows: seq<Row>, skip: set<string>): seq<Row> {
    if rows == [] then []
    else Kept(rows[..|rows| - 1], skip) + if Wanted(rows[|rows| - 1], skip) then [rows[|rows| - 1]] else []
  }

  /** Where reading stops: behind the row that fills the page, or at the end. */
  function Stop(rows: seq<Row>, i: nat, need: nat, skip: set<string>): (end: nat)
    requires i <= |rows|
    ensures i <= end <= |rows|
    decreases |rows| - i
  {
    if need == 0 || i == |rows| then i
    else Stop(rows, i + 1, if Wanted(rows[i], skip) then need - 1 else need, skip)
  }

  function IsWanted(skip: set<string>): Row -> bool { (r: Row) => r.id != "" && r.id !in skip }

  function Unchanged(): (Row, Row) -> bool { (r: Row, shown: Row) => shown == r }

  /** `rows` are, in order, the wanted ones among the first `end` rows of the table: as many as asked for,
      the last of them being the last row read, or all there are. */
  ghost predicate FillsThePage(table: seq<Row>, end: nat, limit: nat, skip: set<string>, rows: seq<Row>) {
    && end <= |table| && Selected(rows, table[..end], IsWanted(skip), Unchanged())
    && |rows| <= limit && (|rows| < limit ==> end == |table|)
    && (|rows| == limit ==> end > 0 && IsWanted(skip)(table[end - 1]))
  }

  lemma {:induction false} KeptAreWanted(rows: seq<Row>, skip: set<string>)
    ensures Selected(Kept(rows, skip), rows, IsWanted(skip), Unchanged())
  {
    if rows == [] {
      SelectedNone(IsWanted(skip), Unchanged());
    } else {
      var before, last := rows[..|rows| - 1], rows[|rows| - 1];
      assert rows == before + [last];
      KeptAreWanted(before, skip);
      SelectedOneMore(Kept(before, skip), before, last, if Wanted(last, skip) then [last] else [], IsWanted(skip), Unchanged());
    }
  }

  lemma {:induction false} StopFills(rows: seq<Row>, i: nat, need: nat, skip: set<string>)
    requires i <= |rows|
    ensures var end := Stop(rows, i, need, skip);
            && |Kept(rows[..end], skip)| <= |Kept(rows[..i], skip)| + need
            && (|Kept(rows[..end], skip)| < |Kept(rows[..i], skip)| + need ==> end == |rows|)
            && (need > 0 && |Kept(rows[..end], skip)| == |Kept(rows[..i], skip)| + need ==> end > 0 && Wanted(rows[end - 1], skip))
    decreases |rows| - i
  {
    if need > 0 && i < |rows| {
      TakeOne(rows, i);
      StopFills(rows, i + 1, if Wanted(rows[i], skip) then need - 1 else need, skip);
    }
  }

  lemma ReadsTheFirstWanted(table: seq<Row>, limit: nat, skip: set<string>)
    requires limit >= 1
    ensures var end := Stop(table, 0, limit, skip); FillsThePage(table, end, limit, skip, Kept(table[..end], skip))
  {
    StopFills(table, 0, limit, skip);
    KeptAreWanted(table[..Stop(table, 0, limit, skip)], skip);
  }

  method ReadTable(tbl: Table, limit: nat, skip: set<string>) returns (rows: seq<Row>, more: bool)
    requires tbl.pos == 0 && limit >= 1
    modifies tbl
    ensures var end := Stop(tbl.rows, 0, limit, skip);
            && rows == Kept(tbl.rows[..end], skip) && more == (end < |tbl.rows|)
            && FillsThePage(tbl.rows, end, limit, skip, rows)
  {
    rows, more := ReadRows(tbl, limit, skip);
    ReadsTheFirstWanted(tbl.rows, limit, skip);
  }

  /** Its loop. */
  method ReadRows(tbl: Table, limit: nat, skip: set<string>) returns (rows: seq<Row>, more: bool)
    requires tbl.pos == 0 && limit >= 1
    modifies tbl
    ensures var end := Stop(tbl.rows, 0, limit, skip);
            rows == Kept(tbl.rows[..end], skip) && more == (end < |tbl.rows|)
  {
    rows := [];
    var leftover := 0;
    while |rows| < limit
      invariant tbl.pos <= |tbl.rows| && 0 <= leftover <= tbl.pos
      invariant Reading(tbl.rows, tbl.pos - leftover, rows, limit, skip)
      invariant |rows| < limit ==> leftover == 0
      decreases |tbl.rows| - tbl.pos
    {
      if tbl.EndOfTable() {
        break;
      }
      var chunk := tbl.GetArray(Min(250, limit - |rows| + |skip| + 1));
      if chunk == [] {
        break;
      }
      rows, leftover := TakeChunk(tbl.rows, tbl.pos - |chunk|, chunk, rows, limit, skip);
    }
    assert Stop(tbl.rows, 0, limit, skip) == tbl.pos - leftover;
    more := leftover > 0 || !tbl.EndOfTable();
  }

  /** The rows before `done` have been read, and the page is not overfull. */
  ghost predicate Reading(table: seq<Row>, done: int, rows: seq<Row>, limit: nat, skip: set<string>) {
    && 0 <= done <= |table| && |rows| <= limit
    && rows == Kept(table[..done], skip)
    && Stop(table, 0, limit, skip) == Stop(table, done, limit - |rows|, skip)
  }

  method TakeChunk(table: seq<Row>, start: nat, chunk: seq<Row>, rows0: seq<Row>, limit: nat, skip: set<string>)
    returns (rows: seq<Row>, leftover: nat)
    requires start + |chunk| <= |table| && chunk == table[start..start + |chunk|]
    requires Reading(table, start, rows0, limit, skip) && |rows0| < limit
    ensures leftover <= |chunk| && Reading(table, start + |chunk| - leftover, rows, limit, skip)
    ensures |rows| < limit ==> leftover == 0
  {
    rows, leftover := rows0, 0;
    var i := 0;
    while i < |chunk|
      invariant 0 <= i <= |chunk| && |rows| < limit
      invariant Reading(table, start + i, rows, limit, skip)
    {
      var row := chunk[i];
      assert row == table[start + i];
      assert table[..start + i + 1][..start + i] == table[..start + i];
      if row.id != "" && row.id !in skip {
        rows := rows + [row];
        if |rows| >= limit {
          leftover := |chunk| - i - 1;
          return;
        }
      }
      i := i + 1;
    }
  }

  // ---- one page ----

  /** What a cursor says: no row newer than `before`, and none of the ids in `skip`. */
  datatype Mark = Mark(before: Whole, skip: seq<string>)

  function Ids(rows: seq<Row>): seq<string> {
    seq(|rows|, i requires 0 <= i < |rows| => rows[i].id)
  }

  /** The rows of the last second of the page. */
  function SameSecond(rows: seq<Row>, second: int): seq<Row> {
    if rows == [] then []
    else SameSecond(rows[..|rows| - 1], second)
         + if WholeSecond(rows[|rows| - 1].received) == second then [rows[|rows| - 1]] else []
  }

  function SkipSet(prev: Option<Mark>): set<string> {
    if prev.Some? then set id | id in prev.value.skip else {}
  }

  function Upper(prev: Option<Mark>): Option<int> {
    if prev.Some? then Some(prev.value.before) else None
  }

  /** The boundary second and the ids already returned from it. */
  function NextCursor(rows: seq<Row>, more: bool, prev: Option<Mark>): Option<Mark> {
    if !more || rows == [] then None
    else
      var boundary := WholeSecond(rows[|rows| - 1].received);
      var same := Ids(SameSecond(rows, boundary));
      Some(Mark(boundary, if prev.Some? && prev.value.before == boundary then prev.value.skip + same else same))
  }

  function OnlyUnread(rows: seq<Row>): seq<Row> {
    if rows == [] then []
    else OnlyUnread(rows[..|rows| - 1]) + if rows[|rows| - 1].unread then [rows[|rows| - 1]] else []
  }

  /** What of the rows read is shown. */
  function Shown(rows: seq<Row>, unreadOnly: bool): seq<Row> {
    if unreadOnly then OnlyUnread(rows) else rows
  }

  function ClampLimit(limit: int): nat {
    Max(1, Min(if limit == 0 then 25 else limit, 500))
  }

  datatype Page = Page(items: seq<Row>, cursor: Option<string>)

  /** What `list_items` returns for a table, given the bound and the ids of its cursor. `skipOrder`
      is the order in which the decoded ids are iterated. */
  function PageOf(clock: Clock, table: seq<Row>, limit: nat, prev: Option<Mark>, unreadOnly: bool): Page {
    var skip := SkipSet(prev);
    var end := Stop(table, 0, limit, skip);
    var rows := Kept(table[..end], skip);
    var kept := Shown(rows, unreadOnly);
    Page(kept,
         match NextCursor(kept, end < |table|, prev)
         case Some(c) => Some(Encode(clock, c.before, c.skip))
         case None => None)
  }

  /** One query: the rows of the folder up to `upper`, newest first, equal times in any order. */
  ghost predicate IsTable(folder: set<Row>, upper: Option<int>, table: seq<Row>) {
    && (forall i, j :: 0 <= i < j < |table| ==> table[i] != table[j] && table[i].received >= table[j].received)
    && (forall r :: r in table <==> r in folder && (upper.Some? ==> r.received <= upper.value))
  }

  /** `prev` is what a cursor text decodes to, its ids listed in some order. */
  ghost predicate Decodes(clock: Clock, cursor: Option<string>, prev: Option<Mark>) {
    match cursor
    case None => prev == None
    case Some(text) => prev.Some? && Decode(clock, text) == Ok((prev.value.before, SkipSet(prev)))
  }

  /** A page that the server may return for a cursor while the folder does not change. */
  ghost predicate IsPage(clock: Clock, folder: set<Row>, cursor: Option<string>, limit: nat, unreadOnly: bool, page: Page) {
    exists prev, table :: Shows(clock, folder, cursor, limit, unreadOnly, page, prev, table)
  }

  ghost predicate Shows(clock: Clock, folder: set<Row>, cursor: Option<string>, limit: nat, unreadOnly: bool, page: Page,
                        prev: Option<Mark>, table: seq<Row>)
  {
    && Decodes(clock, cursor, prev)
    && IsTable(folder, Upper(prev), table)
    && page == PageOf(clock, table, limit, prev, unreadOnly)
  }

  function IsUnread(): Row -> bool { (r: Row) => r.unread }

  lemma {:induction false} UnreadAreShown(rows: seq<Row>)
    ensures Selected(OnlyUnread(rows), rows, IsUnread(), Unchanged())
  {
    if rows == [] {
      SelectedNone(IsUnread(), Unchanged());
    } else {
      var before, last := rows[..|rows| - 1], rows[|rows| - 1];
      assert rows == before + [last];
      UnreadAreShown(before);
      SelectedOneMore(OnlyUnread(before), before, last, if last.unread then [last] else [], IsUnread(), Unchanged());
    }
  }

  /** The page shows the first rows that are wanted, or the unread ones among these, and it has a cursor
      exactly if it shows anything and the table goes on. */
  ghost predicate ShowsTheFirst(table: seq<Row>, limit: nat, skip: set<string>, unreadOnly: bool, page: Page,
                                end: nat, rows: seq<Row>) {
    && FillsThePage(table, end, limit, skip, rows)
    && (if unreadOnly then Selected(page.items, rows, IsUnread(), Unchanged()) else page.items == rows)
    && (page.cursor.Some? <==> end < |table| && page.items != [])
  }

  ghost predicate ShowsFirstRows(table: seq<Row>, limit: nat, skip: set<string>, unreadOnly: bool, page: Page) {
    exists end, rows :: ShowsTheFirst(table, limit, skip, unreadOnly, page, end, rows)
  }

  lemma PageShowsTheFirst(clock: Clock, table: seq<Row>, limit: nat, prev: Option<Mark>, unreadOnly: bool)
    requires limit >= 1
    ensures ShowsFirstRows(table, limit, SkipSet(prev), unreadOnly, PageOf(clock, table, limit, prev, unreadOnly))
  {
    var end := Stop(table, 0, limit, SkipSet(prev));
    var rows := Kept(table[..end], SkipSet(prev));
    ReadsTheFirstWanted(table, limit, SkipSet(prev));
    UnreadAreShown(rows);
    assert ShowsTheFirst(table, limit, SkipSet(prev), unreadOnly, PageOf(clock, table, limit, prev, unreadOnly), end, rows);
  }

  method ListItems(clock: Clock, tbl: Table, prev: Option<Mark>, limit: int, unreadOnly: bool,
                   ghost cursor: Option<string>, ghost folder: set<Row>) returns (page: Page)
    requires tbl.pos == 0 && Decodes(clock, cursor, prev)
    requires IsTable(folder, Upper(prev), tbl.rows)
    modifies tbl
    ensures var n := if limit == 0 then 25 else if limit < 1 then 1 else if limit > 500 then 500 else limit;
            && IsPage(clock, folder, cursor, n, unreadOnly, page)
            && ShowsFirstRows(tbl.rows, n, SkipSet(prev), unreadOnly, page)
  {
    page := QueryPage(clock, tbl, prev, ClampLimit(limit), unreadOnly);
    assert Shows(clock, folder, cursor, ClampLimit(limit), unreadOnly, page, prev, tbl.rows);
    PageShowsTheFirst(clock, tbl.rows, ClampLimit(limit), prev, unreadOnly);
  }

  method QueryPage(clock: Clock, tbl: Table, prev: Option<Mark>, limit: nat, unreadOnly: bool) returns (page: Page)
    requires tbl.pos == 0 && limit >= 1
    modifies tbl
    ensures page == PageOf(clock, tbl.rows, limit, prev, unreadOnly)
  {
    var rows, more := ReadTable(tbl, limit, SkipSet(prev));
    if unreadOnly {
      rows := OnlyUnread(rows);
    }
    var next := NextCursor(rows, more, prev);
    page := Page(rows, if next.Some? then Some(Encode(clock, next.value.before, next.value.skip)) else None);
  }

  // ---- following the cursors ----

  /** Pages obtained one after the other, each from the cursor of the one before; the limit of a
      page is free. */
  ghost predicate Run(clock: Clock, folder: set<Row>, cursor: Option<string>, unreadOnly: bool, limits: seq<nat>, pages: seq<Page>)
    decreases |pages|
  {
    && |limits| == |pages|
    && (pages != [] ==>
          && limits[0] >= 1
          && IsPage(clock, folder, cursor, limits[0], unreadOnly, pages[0])
          && if pages[0].cursor.None? then |pages| == 1
             else Run(clock, folder, pages[0].cursor, unreadOnly, limits[1..], pages[1..]))
  }

  ghost predicate Finished(pages: seq<Page>) {
    pages != [] && pages[|pages| - 1].cursor.None?
  }

  function Items(pages: seq<Page>): seq<Row> {
    if pages == [] then [] else pages[0].items + Items(pages[1..])
  }

  /** Ids identify rows, and a cursor can carry them. */
  ghost predicate GoodIds(folder: set<Row>) {
    && (forall r <- folder :: PlainId(r.id))
    && (forall r, q :: r in folder && q in folder && r.id == q.id ==> r == q)
  }

  /** No second holds two rows that both lie strictly inside it. */
  ghost predicate SecondsDoNotHide(folder: set<Row>) {
    forall r, q :: r in folder && q in folder && r != q && WholeSecond(r.received) == WholeSecond(q.received) ==>
      r.received == WholeSecond(r.received) || q.received == WholeSecond(q.received)
  }

  /** What a listing is to return, of what the store lets through its filter. */
  ghost function Asked(folder: set<Row>, unreadOnly: bool): set<Row> {
    if unreadOnly then set r | r in folder && r.unread else folder
  }

  /** An unread row newer than x ends in the same second, and x lies strictly inside it: the cursor
      behind that row has passed x. */
  ghost predicate Passed(folder: set<Row>, x: Row) {
    x.received != WholeSecond(x.received)
    && exists f <- folder :: f.unread && x.received < f.received && WholeSecond(f.received) == WholeSecond(x.received)
  }

  /** With the unread filter on, every read row that the store lets through is older than every unread
      one, or is passed over together with a newer one. */
  ghost predicate NoReadBlocks(folder: set<Row>, unreadOnly: bool) {
    unreadOnly ==> forall x, y :: x in folder && y in folder && !x.unread && y.unread ==>
      x.received < y.received || Passed(folder, x)
  }

  // ---- reading a prefix ----

  lemma {:induction false} KeptMembers(rows: seq<Row>, skip: set<string>)
    ensures forall r :: r in Kept(rows, skip) <==> r in rows && Wanted(r, skip)
  {
    if rows == [] {
    } else {
      KeptMembers(rows[..|rows| - 1], skip);
      assert rows == rows[..|rows| - 1] + [rows[|rows| - 1]];
    }
  }

  ghost predicate NewestFirst(rows: seq<Row>) {
    forall i, j :: 0 <= i < j < |rows| ==> rows[i] != rows[j] && rows[i].received >= rows[j].received
  }

  lemma {:induction false} KeptNewestFirst(rows: seq<Row>, skip: set<string>)
    requires NewestFirst(rows)
    ensures NewestFirst(Kept(rows, skip))
  {
    if rows == [] {
    } else {
      var before := rows[..|rows| - 1];
      KeptNewestFirst(before, skip);
      KeptMembers(before, skip);
      var k := Kept(before, skip);
      forall i | 0 <= i < |k| ensures k[i] != rows[|rows| - 1] && k[i].received >= rows[|rows| - 1].received {
        assert k[i] in k;
        var m :| 0 <= m < |before| && before[m] == k[i];
        assert rows[m] == k[i];
      }
    }
  }

  /** Reading stops at the end of the table, or right behind a row that is kept. */
  lemma {:induction false} StopBehindKept(rows: seq<Row>, i: nat, need: nat, skip: set<string>)
    requires i <= |rows| && need >= 1
    ensures var end := Stop(rows, i, need, skip);
            end == |rows| || (i < end && Wanted(rows[end - 1], skip))
    decreases |rows| - i
  {
    if i < |rows| {
      if Wanted(rows[i], skip) {
        if need > 1 { StopBehindKept(rows, i + 1, need - 1, skip); }
      } else {
        StopBehindKept(rows, i + 1, need, skip);
      }
    }
  }

  /** What a page holds of a table, and what it leaves. */
  lemma PageSplitsTable(table: seq<Row>, limit: nat, skip: set<string>)
    requires NewestFirst(table) && limit >= 1
    ensures var end := Stop(table, 0, limit, skip);
            var rows := Kept(table[..end], skip);
            && NewestFirst(rows)
            && (forall r <- rows :: r in table && Wanted(r, skip))
            && (rows == [] ==> end == |table|)
            && (forall q <- table :: Wanted(q, skip) && q !in rows ==> Left(q, rows) && end < |table|)
  {
    var end := Stop(table, 0, limit, skip);
    var seen := table[..end];
    var rows := Kept(seen, skip);
    StopBehindKept(table, 0, limit, skip);
    KeptMembers(seen, skip);
    KeptNewestFirst(seen, skip);
    if end < |table| {
      assert seen[..end - 1] + [table[end - 1]] == seen;
      assert rows[|rows| - 1] == table[end - 1];
    }
    forall m | 0 <= m < end ensures table[m] in seen {
      assert seen[m] == table[m];
    }
    forall m | 0 <= m < |table| && Wanted(table[m], skip) && table[m] !in rows
      ensures Left(table[m], rows) && end < |table|
    {
      assert end <= m;
    }
  }

  /** q is no newer than the last row of the page. */
  ghost predicate Left(q: Row, rows: seq<Row>) {
    rows != [] && q.received <= rows[|rows| - 1].received
  }

  lemma {:induction false} ShownMembers(rows: seq<Row>, unreadOnly: bool)
    ensures forall r :: r in Shown(rows, unreadOnly) <==> r in rows && (unreadOnly ==> r.unread)
  {
    if rows == [] || !unreadOnly {
    } else {
      ShownMembers(rows[..|rows| - 1], unreadOnly);
      assert rows == rows[..|rows| - 1] + [rows[|rows| - 1]];
    }
  }

  lemma {:induction false} ShownInOrder(rows: seq<Row>, unreadOnly: bool)
    requires NewestFirst(rows)
    ensures NewestFirst(Shown(rows, unreadOnly))
  {
    if rows == [] || !unreadOnly {
    } else {
      var before, last := rows[..|rows| - 1], rows[|rows| - 1];
      ShownInOrder(before, unreadOnly);
      ShownMembers(before, unreadOnly);
      var shown := Shown(before, unreadOnly);
      forall k | 0 <= k < |shown| ensures shown[k] != last && shown[k].received >= last.received {
        assert shown[k] in before;
        var i :| 0 <= i < |before| && before[i] == shown[k];
        assert rows[i] == shown[k];
      }
    }
  }

  /** What is left is no newer than the last row shown, if one is shown. */
  lemma LeftOfShown(rows: seq<Row>, unreadOnly: bool, q: Row)
    requires NewestFirst(rows) && Left(q, rows) && Shown(rows, unreadOnly) != []
    ensures Left(q, Shown(rows, unreadOnly))
  {
    var shown := Shown(rows, unreadOnly);
    ShownMembers(rows, unreadOnly);
    assert shown[|shown| - 1] in rows;
  }

  lemma {:induction false} SameSecondIds(rows: seq<Row>, second: int)
    ensures forall r <- rows :: WholeSecond(r.received) == second ==> r.id in Ids(SameSecond(rows, second))
    ensures forall id <- Ids(SameSecond(rows, second)) :: exists r <- rows :: r.id == id
  {
    if rows == [] {
    } else {
      var before, last := rows[..|rows| - 1], rows[|rows| - 1];
      SameSecondIds(before, second);
      assert rows == before + [last];
      var s, s' := SameSecond(before, second), SameSecond(rows, second);
      assert Ids(s') == Ids(s) + if WholeSecond(last.received) == second then [last.id] else [];
    }
  }

  // ---- one step of a run ----

  /** What is returned so far and what the cursor says fit together: the cursor admits exactly
      what is still missing, and everything returned is at least as new. */
  ghost predicate InStep(folder: set<Row>, returned: set<Row>, prev: Option<Mark>) {
    && returned <= folder
    && (forall r, q :: r in returned && q in folder - returned ==> q.received <= r.received)
    && match prev
       case None => returned == {}
       case Some(mark) =>
         && AdmitsMissing(folder - returned, mark.before, SkipSet(prev))
         && BarsReturned(returned, mark.before, SkipSet(prev))
  }

  ghost predicate AdmitsMissing(missing: set<Row>, before: int, skip: set<string>) {
    forall q <- missing :: q.received <= before && q.id !in skip
  }

  ghost predicate BarsReturned(returned: set<Row>, before: int, skip: set<string>) {
    && (forall r <- returned :: before <= r.received && (r.received == before ==> r.id in skip))
    && (forall id <- skip :: IdOf(id, returned))
  }

  ghost predicate IdOf(id: string, rows: set<Row>) { exists r <- rows :: r.id == id }

  /** The missing rows are the ones a page's query offers. */
  lemma OffersTheMissing(folder: set<Row>, asked: set<Row>, returned: set<Row>, prev: Option<Mark>, table: seq<Row>)
    requires GoodIds(folder) && asked <= folder && InStep(asked, returned, prev) && IsTable(folder, Upper(prev), table)
    ensures forall r :: r in asked - returned <==> r in asked && r in table && Wanted(r, SkipSet(prev))
  {
  }

  lemma NextInStep(folder: set<Row>, returned: set<Row>, prev: Option<Mark>, rows: seq<Row>)
    requires GoodIds(folder) && SecondsDoNotHide(folder) && InStep(folder, returned, prev)
    requires rows != [] && NewestFirst(rows)
    requires forall r <- rows :: r in folder - returned
    requires forall q <- folder - returned :: q !in rows ==> q.received <= rows[|rows| - 1].received
    ensures InStep(folder, returned + (set r | r in rows), NextCursor(rows, true, prev))
  {
    var last := rows[|rows| - 1];
    var now := returned + set r | r in rows;
    assert last in rows;
    forall r | r in rows ensures last.received <= r.received {
      var i :| 0 <= i < |rows| && rows[i] == r;
    }
    NextBars(folder, returned, prev, rows);
    NextAdmits(folder, now, NextCursor(rows, true, prev).value, last);
    forall r, q | r in now && q in folder - now ensures q.received <= r.received {
      assert q in folder - returned && q !in rows;
    }
  }

  /** Nothing missing is newer than the second of the last row returned. */
  lemma NextAdmits(folder: set<Row>, now: set<Row>, next: Mark, last: Row)
    requires GoodIds(folder) && SecondsDoNotHide(folder) && now <= folder && last in now
    requires next.before == WholeSecond(last.received) && (forall id <- SkipSet(Some(next)) :: IdOf(id, now))
    requires forall q <- folder - now :: q.received <= last.received
    ensures AdmitsMissing(folder - now, next.before, SkipSet(Some(next)))
  {
    forall q | q in folder - now ensures q.received <= next.before && q.id !in SkipSet(Some(next)) {
      assert q.received > next.before ==> WholeSecond(q.received) == WholeSecond(last.received);
    }
  }

  /** The new cursor's ids are the ids of what was returned of its second. */
  lemma NextBars(folder: set<Row>, returned: set<Row>, prev: Option<Mark>, rows: seq<Row>)
    requires InStep(folder, returned, prev) && rows != [] && (forall r <- rows :: r in folder - returned)
    requires forall r <- rows :: rows[|rows| - 1].received <= r.received
    ensures var next := NextCursor(rows, true, prev);
            BarsReturned(returned + (set r | r in rows), next.value.before, SkipSet(next))
  {
    var next := NextCursor(rows, true, prev);
    var boundary := next.value.before;
    var last := rows[|rows| - 1];
    var now := returned + set r | r in rows;
    SameSecondIds(rows, boundary);
    assert last in rows;
    forall r | r in now ensures boundary <= r.received && (r.received == boundary ==> r.id in SkipSet(next)) {
      if r in returned {
        assert last.received <= r.received;
      }
    }
    forall id | id in SkipSet(next) ensures IdOf(id, now) {
      if id in Ids(SameSecond(rows, boundary)) {
        var r :| r in rows && r.id == id;
        assert r in now;
      } else {
        assert id in SkipSet(prev) && IdOf(id, returned);
        var r :| r in returned && r.id == id;
        assert r in now;
      }
    }
  }

  /** A page returns only missing rows, newest first; its null cursor means nothing is missing,
      and any other cursor admits exactly what is. */
  lemma PageInStep(clock: Clock, folder: set<Row>, returned: set<Row>, prev: Option<Mark>,
                   table: seq<Row>, limit: nat, unreadOnly: bool) returns (next: Mark)
    requires GoodIds(folder) && SecondsDoNotHide(Asked(folder, unreadOnly)) && NoReadBlocks(folder, unreadOnly)
    requires InStep(Asked(folder, unreadOnly), returned, prev) && limit >= 1
    requires IsTable(folder, Upper(prev), table)
    ensures var page := PageOf(clock, table, limit, prev, unreadOnly);
            var asked, now := Asked(folder, unreadOnly), returned + set r | r in page.items;
            && NewestFirst(page.items)
            && (forall r <- page.items :: r in asked - returned)
            && (page.cursor.None? ==> now == asked)
            && (page.cursor.Some? ==>
                  && page.cursor == Some(Encode(clock, next.before, next.skip))
                  && page.items != [] && InStep(asked, now, Some(next)))
  {
    var asked := Asked(folder, unreadOnly);
    var end := Stop(table, 0, limit, SkipSet(prev));
    var items := Shown(Kept(table[..end], SkipSet(prev)), unreadOnly);
    ItemsAreMissing(folder, returned, prev, table, limit, unreadOnly);
    CursorOf(clock, table, limit, prev, unreadOnly);
    if end < |table| && items != [] {
      NextInStep(asked, returned, prev, items);
      next := NextCursor(items, true, prev).value;
    } else {
      AllReturned(asked, returned, items);
      next := Mark(0, []);
    }
  }

  lemma CursorOf(clock: Clock, table: seq<Row>, limit: nat, prev: Option<Mark>, unreadOnly: bool)
    ensures var end := Stop(table, 0, limit, SkipSet(prev));
            var items := Shown(Kept(table[..end], SkipSet(prev)), unreadOnly);
            var page := PageOf(clock, table, limit, prev, unreadOnly);
            && page.items == items
            && page.cursor == if end < |table| && items != [] then
                                var next := NextCursor(items, true, prev).value;
                                Some(Encode(clock, next.before, next.skip))
                              else None
  {
  }

  lemma AllReturned(asked: set<Row>, returned: set<Row>, items: seq<Row>)
    requires returned <= asked && (forall r <- items :: r in asked) && forall q <- asked - returned :: q in items
    ensures returned + (set r | r in items) == asked
  {
  }

  /** The rows of a page are missing rows, and a missing row left out is no newer than they are. */
  lemma ItemsAreMissing(folder: set<Row>, returned: set<Row>, prev: Option<Mark>, table: seq<Row>, limit: nat, unreadOnly: bool)
    requires GoodIds(folder) && NoReadBlocks(folder, unreadOnly) && IsTable(folder, Upper(prev), table)
    requires InStep(Asked(folder, unreadOnly), returned, prev) && limit >= 1
    ensures var end := Stop(table, 0, limit, SkipSet(prev));
            var items := Shown(Kept(table[..end], SkipSet(prev)), unreadOnly);
            var asked := Asked(folder, unreadOnly);
            && NewestFirst(items) && (forall r <- items :: r in asked - returned)
            && (forall q <- asked - returned :: q !in items ==> Left(q, items) && end < |table|)
  {
    var asked := Asked(folder, unreadOnly);
    var end := Stop(table, 0, limit, SkipSet(prev));
    var rows := Kept(table[..end], SkipSet(prev));
    PageSplitsTable(table, limit, SkipSet(prev));
    OffersTheMissing(folder, asked, returned, prev, table);
    ShownMembers(rows, unreadOnly);
    ShownInOrder(rows, unreadOnly);
    forall q | q in asked - returned && q !in Shown(rows, unreadOnly)
      ensures Left(q, Shown(rows, unreadOnly)) && end < |table|
    {
      assert q !in rows && Left(q, rows);
      SomethingShown(folder, returned, prev, table, limit, unreadOnly, rows, q);
      LeftOfShown(rows, unreadOnly, q);
    }
  }

  /** While an unread row is left, a page is not all read mail. */
  lemma SomethingShown(folder: set<Row>, returned: set<Row>, prev: Option<Mark>, table: seq<Row>, limit: nat,
                       unreadOnly: bool, rows: seq<Row>, q: Row)
    requires GoodIds(folder) && NoReadBlocks(folder, unreadOnly) && IsTable(folder, Upper(prev), table)
    requires InStep(Asked(folder, unreadOnly), returned, prev) && limit >= 1
    requires rows == Kept(table[..Stop(table, 0, limit, SkipSet(prev))], SkipSet(prev))
    requires q in Asked(folder, unreadOnly) && Left(q, rows)
    ensures Shown(rows, unreadOnly) != []
  {
    var x := rows[|rows| - 1];
    PageSplitsTable(table, limit, SkipSet(prev));
    ShownMembers(rows, unreadOnly);
    assert x in rows && x in table;
    if unreadOnly && !x.unread {
      assert Passed(folder, x);
      var f :| f in folder && f.unread && x.received < f.received && WholeSecond(f.received) == WholeSecond(x.received);
      NewerIsShown(folder, returned, prev, table, rows, x, f);
      assert f in Shown(rows, unreadOnly);
    } else {
      assert x in Shown(rows, unreadOnly);
    }
  }

  /** The newer row of x's second is on the page: had it been returned, the cursor would bar x. */
  lemma NewerIsShown(folder: set<Row>, returned: set<Row>, prev: Option<Mark>, table: seq<Row>, rows: seq<Row>, x: Row, f: Row)
    requires GoodIds(folder) && IsTable(folder, Upper(prev), table) && InStep(Asked(folder, true), returned, prev)
    requires x in table && x.received != WholeSecond(x.received)
    requires f in folder && f.unread && x.received < f.received && WholeSecond(f.received) == WholeSecond(x.received)
    requires forall r <- table :: Wanted(r, SkipSet(prev)) && r !in rows ==> r.received <= x.received
    ensures f in rows
  {
    if f in returned {
      assert prev.Some? && prev.value.before <= f.received;
      BelowWhole(prev.value.before, f.received);
      assert false;
    }
    OffersTheMissing(folder, Asked(folder, true), returned, prev, table);
    assert f in Asked(folder, true) - returned;
  }

  lemma BelowWhole(before: Whole, t: int)
    requires before <= t
    ensures before <= WholeSecond(t)
  {
  }

  function TextOf(clock: Clock, mark: Option<Mark>): Option<string> {
    match mark
    case None => None
    case Some(m) => Some(Encode(clock, m.before, m.skip))
  }

  ghost predicate PlainMark(mark: Option<Mark>) {
    forall id <- SkipSet(mark) :: PlainId(id)
  }

  /** What a cursor text decodes to bars the ids it was made from. */
  lemma SameSkip(clock: Clock, mark: Mark, prev: Option<Mark>)
    requires clock.Lawful() && PlainMark(Some(mark)) && Decodes(clock, TextOf(clock, Some(mark)), prev)
    ensures prev.Some? && prev.value.before == mark.before && SkipSet(prev) == SkipSet(Some(mark))
  {
    assert forall id <- mark.skip :: id in SkipSet(Some(mark));
    DecodeInvertsEncode(clock, mark.before, mark.skip);
  }

  /** A cursor text names one bound and one set of ids; their order does not matter. */
  lemma StepFromText(clock: Clock, folder: set<Row>, returned: set<Row>, start: Option<Mark>, prev: Option<Mark>)
    requires clock.Lawful() && GoodIds(folder) && InStep(folder, returned, start)
    requires Decodes(clock, TextOf(clock, start), prev)
    ensures InStep(folder, returned, prev)
  {
    if start.Some? {
      forall id | id in SkipSet(start) ensures PlainId(id) {
        assert IdOf(id, returned);
      }
      SameSkip(clock, start.value, prev);
    }
  }

  // ---- whole runs ----

  /** Only missing rows, each once and newest first. */
  ghost predicate Returns(folder: set<Row>, returned: set<Row>, items: seq<Row>) {
    NewestFirst(items) && forall r <- items :: r in folder - returned
  }

  ghost predicate Complete(folder: set<Row>, returned: set<Row>, items: seq<Row>) {
    forall r <- folder - returned :: r in items
  }

  lemma FirstPage(clock: Clock, folder: set<Row>, returned: set<Row>, start: Option<Mark>, unreadOnly: bool,
                  limit: nat, page: Page) returns (next: Mark)
    requires clock.Lawful() && GoodIds(folder) && SecondsDoNotHide(Asked(folder, unreadOnly)) && NoReadBlocks(folder, unreadOnly)
    requires limit >= 1 && IsPage(clock, folder, TextOf(clock, start), limit, unreadOnly, page)
    requires InStep(Asked(folder, unreadOnly), returned, start)
    ensures Returns(Asked(folder, unreadOnly), returned, page.items)
    ensures page.cursor.None? ==> Complete(Asked(folder, unreadOnly), returned, page.items)
    ensures page.cursor.Some? ==>
              && page.cursor == TextOf(clock, Some(next)) && page.items != []
              && InStep(Asked(folder, unreadOnly), returned + (set r | r in page.items), Some(next))
  {
    var prev, table :| Shows(clock, folder, TextOf(clock, start), limit, unreadOnly, page, prev, table);
    StepFromText(clock, Asked(folder, unreadOnly), returned, start, prev);
    next := PageInStep(clock, folder, returned, prev, table, limit, unreadOnly);
    forall r | r in Asked(folder, unreadOnly) - returned && page.cursor.None? ensures r in page.items {
      assert r in returned + set q | q in page.items;
    }
  }

  ghost predicate AllAsNew(returned: set<Row>, missing: set<Row>) {
    forall r, q :: r in returned && q in missing ==> q.received <= r.received
  }

  /** What each page of a run adds to the rows returned before it. */
  ghost predicate Steps(folder: set<Row>, returned: set<Row>, pages: seq<Page>)
    decreases |pages|
  {
    pages != [] ==>
      var now := returned + set r | r in pages[0].items;
      && Returns(folder, returned, pages[0].items)
      && if pages[0].cursor.None? then |pages| == 1 && Complete(folder, returned, pages[0].items)
         else pages[0].items != [] && AllAsNew(now, folder - now) && Steps(folder, now, pages[1..])
  }

  lemma {:induction false} RunSteps(clock: Clock, folder: set<Row>, returned: set<Row>, start: Option<Mark>,
                                    unreadOnly: bool, limits: seq<nat>, pages: seq<Page>)
    requires clock.Lawful() && GoodIds(folder) && SecondsDoNotHide(Asked(folder, unreadOnly)) && NoReadBlocks(folder, unreadOnly)
    requires Run(clock, folder, TextOf(clock, start), unreadOnly, limits, pages)
    requires InStep(Asked(folder, unreadOnly), returned, start)
    ensures Steps(Asked(folder, unreadOnly), returned, pages)
    decreases |pages|
  {
    if pages == [] {
    } else {
      var next := FirstPage(clock, folder, returned, start, unreadOnly, limits[0], pages[0]);
      if pages[0].cursor.Some? {
        var now := returned + set r | r in pages[0].items;
        RunSteps(clock, folder, now, Some(next), unreadOnly, limits[1..], pages[1..]);
      }
    }
  }

  lemma {:induction false} StepsReturnTheMissing(folder: set<Row>, returned: set<Row>, pages: seq<Page>)
    requires Steps(folder, returned, pages)
    ensures Returns(folder, returned, Items(pages))
    ensures Finished(pages) ==> Complete(folder, returned, Items(pages))
    ensures |pages| <= |Items(pages)| + 1
    decreases |pages|
  {
    if pages == [] {
    } else {
      if pages[0].cursor.Some? {
        var now := returned + set r | r in pages[0].items;
        StepsReturnTheMissing(folder, now, pages[1..]);
        assert |pages| > 1 ==> pages[1..][|pages| - 2] == pages[|pages| - 1];
        JoinPages(folder, returned, now, pages[0].items, Items(pages[1..]));
      } else {
        assert pages == [pages[0]];
        OnePageItems(pages[0]);
      }
    }
  }

  /** A run from any reachable point returns the missing rows only, each once and newest first,
      and all of them if it is finished; every page but the last returns something. */
  lemma RunReturnsTheMissing(clock: Clock, folder: set<Row>, returned: set<Row>, start: Option<Mark>,
                             unreadOnly: bool, limits: seq<nat>, pages: seq<Page>)
    requires clock.Lawful() && GoodIds(folder) && SecondsDoNotHide(Asked(folder, unreadOnly)) && NoReadBlocks(folder, unreadOnly)
    requires Run(clock, folder, TextOf(clock, start), unreadOnly, limits, pages)
    requires InStep(Asked(folder, unreadOnly), returned, start)
    ensures Returns(Asked(folder, unreadOnly), returned, Items(pages))
    ensures Finished(pages) ==> Complete(Asked(folder, unreadOnly), returned, Items(pages))
    ensures |pages| <= |Items(pages)| + 1
  {
    RunSteps(clock, folder, returned, start, unreadOnly, limits, pages);
    StepsReturnTheMissing(Asked(folder, unreadOnly), returned, pages);
  }

  lemma OnePageItems(page: Page)
    ensures Items([page]) == page.items
  {
    assert [page][1..] == [] && page.items + [] == page.items;
  }

  lemma JoinPages(folder: set<Row>, returned: set<Row>, now: set<Row>, items: seq<Row>, rest: seq<Row>)
    requires Returns(folder, returned, items) && Returns(folder, now, rest) && AllAsNew(now, folder - now)
    requires now == returned + set r | r in items
    ensures Returns(folder, returned, items + rest)
    ensures Complete(folder, now, rest) ==> Complete(folder, returned, items + rest)
  {
    forall i, j | 0 <= i < |items| && 0 <= j < |rest|
      ensures items[i] != rest[j] && items[i].received >= rest[j].received
    {
      assert items[i] in items && rest[j] in rest;
    }
    forall r | r in folder - returned && Complete(folder, now, rest) ensures r in items + rest {
      assert r !in items ==> r in folder - now;
    }
  }

  /** Following the cursors from the first page to the null cursor returns every row asked for
      exactly once, newest first, whatever the page limits and the order of equal times. */
  lemma PagingIsComplete(clock: Clock, folder: set<Row>, unreadOnly: bool, limits: seq<nat>, pages: seq<Page>)
    requires clock.Lawful() && GoodIds(folder) && SecondsDoNotHide(Asked(folder, unreadOnly)) && NoReadBlocks(folder, unreadOnly)
    requires Run(clock, folder, None, unreadOnly, limits, pages)
    ensures NewestFirst(Items(pages))
    ensures forall r <- Items(pages) :: r in Asked(folder, unreadOnly)
    ensures Finished(pages) ==> forall r <- Asked(folder, unreadOnly) :: r in Items(pages)
    ensures |pages| <= |Asked(folder, unreadOnly)| + 1
  {
    RunReturnsTheMissing(clock, folder, {}, None, unreadOnly, limits, pages);
    DistinctSize(Items(pages), Asked(folder, unreadOnly));
  }

  lemma {:induction false} DistinctSize(rows: seq<Row>, folder: set<Row>)
    requires NewestFirst(rows) && forall r <- rows :: r in folder
    ensures |rows| <= |folder|
  {
    if rows == [] {
    } else {
      var last := rows[|rows| - 1];
      forall r | r in rows[..|rows| - 1] ensures r in folder - {last} {
        assert r in rows;
      }
      DistinctSize(rows[..|rows| - 1], folder - {last});
    }
  }

  // ---- when a second hides a row ----

  /** A page past a mark is no newer than it, and neither is the mark it hands on. */
  lemma PageBelow(clock: Clock, folder: set<Row>, prev: Option<Mark>, table: seq<Row>, limit: nat, unreadOnly: bool)
    returns (next: Mark)
    requires GoodIds(folder) && IsTable(folder, Upper(prev), table) && (forall id <- SkipSet(prev) :: PlainId(id))
    ensures var page := PageOf(clock, table, limit, prev, unreadOnly);
            && (forall r <- page.items :: r in folder && r in table)
            && (page.cursor.Some? ==>
                  && page.cursor == Some(Encode(clock, next.before, next.skip)) && (forall id <- next.skip :: PlainId(id))
                  && page.items != [] && next.before == WholeSecond(page.items[|page.items| - 1].received))
  {
    var seen := table[..Stop(table, 0, limit, SkipSet(prev))];
    KeptMembers(seen, SkipSet(prev));
    ShownMembers(Kept(seen, SkipSet(prev)), unreadOnly);
    var items := PageOf(clock, table, limit, prev, unreadOnly).items;
    if items != [] {
      next := NextCursor(items, true, prev).value;
      SameSecondIds(items, next.before);
      forall id | id in next.skip ensures PlainId(id) {
        assert id in Ids(SameSecond(items, next.before)) || id in SkipSet(prev);
      }
    } else {
      next := Mark(0, []);
    }
  }

  /** Once past a mark, a run returns nothing newer than it. */
  lemma {:induction false} NothingNewer(clock: Clock, folder: set<Row>, mark: Mark, unreadOnly: bool, limits: seq<nat>, pages: seq<Page>)
    requires clock.Lawful() && GoodIds(folder) && PlainMark(Some(mark))
    requires Run(clock, folder, TextOf(clock, Some(mark)), unreadOnly, limits, pages)
    ensures forall r <- Items(pages) :: r.received <= mark.before
    decreases |pages|
  {
    if pages == [] {
    } else {
      var next := PageNotNewer(clock, folder, mark, unreadOnly, limits[0], pages[0]);
      if pages[0].cursor.Some? {
        NothingNewer(clock, folder, next, unreadOnly, limits[1..], pages[1..]);
      }
    }
  }

  lemma PageNotNewer(clock: Clock, folder: set<Row>, mark: Mark, unreadOnly: bool, limit: nat, page: Page) returns (next: Mark)
    requires clock.Lawful() && GoodIds(folder) && PlainMark(Some(mark))
    requires IsPage(clock, folder, TextOf(clock, Some(mark)), limit, unreadOnly, page)
    ensures forall r <- page.items :: r.received <= mark.before
    ensures page.cursor.Some? ==>
              page.cursor == TextOf(clock, Some(next)) && PlainMark(Some(next)) && next.before <= mark.before
  {
    var prev, table :| Shows(clock, folder, TextOf(clock, Some(mark)), limit, unreadOnly, page, prev, table);
    SameSkip(clock, mark, prev);
    next := PageBelow(clock, folder, prev, table, limit, unreadOnly);
    if page.cursor.Some? {
      assert page.items[|page.items| - 1] in page.items;
    }
  }

  /** A page of one row hands on the second of that row. */
  lemma OneRowPage(clock: Clock, folder: set<Row>, start: Option<Mark>, unreadOnly: bool, page: Page) returns (next: Mark)
    requires clock.Lawful() && GoodIds(folder) && PlainMark(start)
    requires IsPage(clock, folder, TextOf(clock, start), 1, unreadOnly, page)
    ensures |page.items| <= 1
    ensures page.cursor.Some? ==>
              && page.cursor == TextOf(clock, Some(next)) && PlainMark(Some(next))
              && |page.items| == 1 && next.before == WholeSecond(page.items[0].received)
  {
    var prev, table :| Shows(clock, folder, TextOf(clock, start), 1, unreadOnly, page, prev, table);
    PlainDecodes(clock, start, prev);
    next := OneRowOf(clock, folder, prev, table, unreadOnly);
  }

  lemma PlainDecodes(clock: Clock, start: Option<Mark>, prev: Option<Mark>)
    requires clock.Lawful() && PlainMark(start) && Decodes(clock, TextOf(clock, start), prev)
    ensures PlainMark(prev)
  {
    if start.Some? {
      SameSkip(clock, start.value, prev);
    }
  }

  lemma OneRowOf(clock: Clock, folder: set<Row>, prev: Option<Mark>, table: seq<Row>, unreadOnly: bool) returns (next: Mark)
    requires GoodIds(folder) && IsTable(folder, Upper(prev), table) && PlainMark(prev)
    ensures var page := PageOf(clock, table, 1, prev, unreadOnly);
            && |page.items| <= 1
            && (page.cursor.Some? ==>
                  && page.cursor == Some(Encode(clock, next.before, next.skip)) && PlainMark(Some(next))
                  && |page.items| == 1 && next.before == WholeSecond(page.items[0].received))
  {
    next := PageBelow(clock, folder, prev, table, 1, unreadOnly);
    OneAtATime(clock, table, prev, unreadOnly);
  }

  ghost predicate Ones(limits: seq<nat>) { forall i :: 0 <= i < |limits| ==> limits[i] == 1 }

  lemma RunTail(clock: Clock, folder: set<Row>, cursor: Option<string>, unreadOnly: bool, limits: seq<nat>, pages: seq<Page>)
    requires Run(clock, folder, cursor, unreadOnly, limits, pages) && Ones(limits) && pages != []
    ensures IsPage(clock, folder, cursor, 1, unreadOnly, pages[0])
    ensures if pages[0].cursor.None? then pages == [pages[0]]
            else Run(clock, folder, pages[0].cursor, unreadOnly, limits[1..], pages[1..]) && Ones(limits[1..])
  {
  }

  /** One row a page, and nothing behind a page is newer than the second of its row. */
  ghost predicate Descends(pages: seq<Page>)
    decreases |pages|
  {
    pages != [] ==>
      && |pages[0].items| <= 1
      && if pages[0].cursor.None? then |pages| == 1
         else && |pages[0].items| == 1 && NoneAfter(pages[0].items[0], Items(pages[1..])) && Descends(pages[1..])
  }

  ghost predicate NoneAfter(first: Row, rest: seq<Row>) {
    forall r <- rest :: r.received <= WholeSecond(first.received)
  }

  lemma {:induction false} OneRowRunDescends(clock: Clock, folder: set<Row>, start: Option<Mark>, unreadOnly: bool,
                                             limits: seq<nat>, pages: seq<Page>)
    requires clock.Lawful() && GoodIds(folder) && PlainMark(start)
    requires Run(clock, folder, TextOf(clock, start), unreadOnly, limits, pages) && Ones(limits)
    ensures Descends(pages)
    decreases |pages|
  {
    if pages == [] {
    } else {
      RunTail(clock, folder, TextOf(clock, start), unreadOnly, limits, pages);
      var next := OneRowPage(clock, folder, start, unreadOnly, pages[0]);
      if pages[0].cursor.Some? {
        NothingNewer(clock, folder, next, unreadOnly, limits[1..], pages[1..]);
        OneRowRunDescends(clock, folder, Some(next), unreadOnly, limits[1..], pages[1..]);
      }
    }
  }

  /** One row at a time, of two rows inside one second only the first is ever returned. */
  lemma {:induction false} HiddenRowIsSkipped(pages: seq<Page>, x: Row, y: Row)
    requires Descends(pages)
    requires x != y && WholeSecond(x.received) == WholeSecond(y.received)
    requires x.received > WholeSecond(x.received) && y.received > WholeSecond(y.received)
    ensures x !in Items(pages) || y !in Items(pages)
    decreases |pages|
  {
    if pages == [] {
    } else {
      if pages[0].cursor.Some? {
        HiddenRowIsSkipped(pages[1..], x, y);
        assert pages[0].items == [pages[0].items[0]];
        FirstHides(pages[0].items[0], Items(pages[1..]), x, y);
      } else {
        assert pages == [pages[0]];
        OnePageItems(pages[0]);
        NotBoth(pages[0].items, x, y);
      }
    }
  }

  lemma NotBoth(items: seq<Row>, x: Row, y: Row)
    requires |items| <= 1 && x != y
    ensures x !in items || y !in items
  {
  }

  lemma FirstHides(first: Row, rest: seq<Row>, x: Row, y: Row)
    requires NoneAfter(first, rest)
    requires x != y && WholeSecond(x.received) == WholeSecond(y.received)
    requires x.received > WholeSecond(x.received) && y.received > WholeSecond(y.received)
    requires x !in rest || y !in rest
    ensures x !in [first] + rest || y !in [first] + rest
  {
  }

  lemma OneAtATime(clock: Clock, table: seq<Row>, prev: Option<Mark>, unreadOnly: bool)
    ensures |PageOf(clock, table, 1, prev, unreadOnly).items| <= 1
  {
    KeptAtMost(table, 0, 1, SkipSet(prev));
    assert table[..0] == [];
    OnlyUnreadShrinks(Kept(table[..Stop(table, 0, 1, SkipSet(prev))], SkipSet(prev)));
  }

  lemma {:induction false} OnlyUnreadShrinks(rows: seq<Row>)
    ensures |OnlyUnread(rows)| <= |rows|
  {
    if rows == [] {
    } else {
      OnlyUnreadShrinks(rows[..|rows| - 1]);
    }
  }

  lemma {:induction false} KeptAtMost(table: seq<Row>, i: nat, need: nat, skip: set<string>)
    requires i <= |table|
    ensures |Kept(table[..Stop(table, i, need, skip)], skip)| <= |Kept(table[..i], skip)| + need
    decreases |table| - i
  {
    if need > 0 && i < |table| {
      assert table[..i + 1][..i] == table[..i];
      KeptAtMost(table, i + 1, if Wanted(table[i], skip) then need - 1 else need, skip);
    }
  }

  /** The condition is exact: if a second does hide a row asked for, paging one row at a time cannot
      return all of them. */
  lemma PagingNeedsTheCondition(clock: Clock, folder: set<Row>, unreadOnly: bool, limits: seq<nat>, pages: seq<Page>)
    requires clock.Lawful() && GoodIds(folder) && !SecondsDoNotHide(Asked(folder, unreadOnly))
    requires Run(clock, folder, None, unreadOnly, limits, pages) && Ones(limits)
    ensures exists r <- Asked(folder, unreadOnly) :: r !in Items(pages)
  {
    var asked := Asked(folder, unreadOnly);
    var x, y :| x in asked && y in asked && x != y && WholeSecond(x.received) == WholeSecond(y.received)
                && x.received != WholeSecond(x.received) && y.received != WholeSecond(y.received);
    OneRowRunDescends(clock, folder, None, unreadOnly, limits, pages);
    HiddenRowIsSkipped(pages, x, y);
  }

  lemma FirstOfTwo(clock: Clock, x: Row, y: Row, unreadOnly: bool)
    requires x.id != "" && (unreadOnly ==> !x.unread)
    ensures PageOf(clock, [x, y], 1, None, unreadOnly) ==
            if unreadOnly then Page([], None) else Page([x], Some(Encode(clock, WholeSecond(x.received), [x.id])))
  {
    assert [x, y][..1] == [x] && [x][..0] == [];
    assert Kept([x], {}) == Kept([], {}) + [x];
    assert OnlyUnread([x]) == OnlyUnread([]) + if x.unread then [x] else [];
    assert Stop([x, y], 0, 1, {}) == Stop([x, y], 1, 0, {}) == 1;
    assert SameSecond([x], WholeSecond(x.received)) == [x];
    assert Ids([x]) == [x.id];
  }

  /** Any two rows inside one second are such a folder: there is a finished run that returns the
      first and misses the second. */
  lemma HidingPair(clock: Clock, x: Row, y: Row) returns (pages: seq<Page>)
    requires clock.Lawful() && PlainId(x.id) && WholeSecond(x.received) < y.received <= x.received && x != y
    ensures Run(clock, {x, y}, None, false, [1, 1], pages) && Finished(pages)
    ensures Items(pages) == [x]
  {
    var mark := Mark(WholeSecond(x.received), [x.id]);
    var first := Page([x], Some(Encode(clock, mark.before, mark.skip)));
    FirstShows(clock, x, y);
    EmptyPage(clock, {x, y}, mark);
    pages := [first, Page([], None)];
    TwoPageRun(clock, {x, y}, first, Page([], None));
  }

  lemma FirstShows(clock: Clock, x: Row, y: Row)
    requires x.id != "" && y.received <= x.received && x != y
    ensures IsPage(clock, {x, y}, None, 1, false, Page([x], Some(Encode(clock, WholeSecond(x.received), [x.id]))))
  {
    FirstOfTwo(clock, x, y, false);
    PairIsTable(x, y);
    TableIsShown(clock, {x, y}, 1, false, [x, y]);
  }

  lemma PairIsTable(x: Row, y: Row)
    requires y.received <= x.received && x != y
    ensures IsTable({x, y}, None, [x, y])
  {
  }

  lemma TableIsShown(clock: Clock, folder: set<Row>, limit: nat, unreadOnly: bool, table: seq<Row>)
    requires IsTable(folder, None, table)
    ensures IsPage(clock, folder, None, limit, unreadOnly, PageOf(clock, table, limit, None, unreadOnly))
  {
    assert Shows(clock, folder, None, limit, unreadOnly, PageOf(clock, table, limit, None, unreadOnly), None, table);
  }

  lemma TwoPageRun(clock: Clock, folder: set<Row>, first: Page, last: Page)
    requires IsPage(clock, folder, None, 1, false, first) && first.cursor.Some?
    requires IsPage(clock, folder, first.cursor, 1, false, last) && last == Page([], None)
    ensures Run(clock, folder, None, false, [1, 1], [first, last]) && Items([first, last]) == first.items
  {
    assert [first, last][1..] == [last] && [1, 1][1..] == [1];
    assert Run(clock, folder, first.cursor, false, [1], [last]);
    assert Items([last]) == [] + Items([]);
  }

  lemma EmptyPage(clock: Clock, folder: set<Row>, mark: Mark)
    requires clock.Lawful() && (forall id <- mark.skip :: PlainId(id)) && forall r <- folder :: r.received > mark.before
    ensures IsPage(clock, folder, Some(Encode(clock, mark.before, mark.skip)), 1, false, Page([], None))
  {
    DecodeInvertsEncode(clock, mark.before, mark.skip);
    assert Stop([], 0, 1, SkipSet(Some(mark))) == 0;
    assert PageOf(clock, [], 1, Some(mark), false) == Page([], None);
    assert Shows(clock, folder, Some(Encode(clock, mark.before, mark.skip)), 1, false, Page([], None), Some(mark), []);
  }
}
