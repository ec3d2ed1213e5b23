/** `plan_meetings` (outlook.py 830-908): several meetings at once, the scarcest first. */
module Planner {
  import opened Common
  import opened FreeBusy
  import opened WorkHours
  import opened CommonSlots
  import opened CommonWindows
  import Sorting

  datatype Request = Request(name: string, people: seq<Person>, count: int)

  // ---- one choice ----

  /** What one meeting needs: the people required, the starts already taken, the earliest start that is
      far enough after the one before it, and the people who are welcome but not required. */
  datatype Need = Need(everyone: seq<Person>, rule: Rule, taken: seq<int>, earliest: Option<int>, optional: seq<Person>)
  {
    /** The meeting may start at c: on the grid of the window, far enough after the one before it, clear
        of every meeting taken, and with everyone required free. */
    ghost predicate Possible(w: Window, c: int)
      requires rule.Valid()
    {
      && c + rule.duration <= w.end
      && (exists n: nat :: c == At(CeilToGrid(w.start, rule.minutes), rule.minutes * MINUTE, n))
      && (earliest.Some? ==> c >= earliest.value)
      && (forall a <- taken :: Abs(a - c) >= rule.duration)
      && (forall x <- everyone :: PersonFits(x, c, c + rule.duration, rule.blocking))
    }

    /** The same, as it is tested. */
    function Admissible(): int -> bool {
      c => (earliest.None? || c >= earliest.value)
           && (forall a <- taken :: !(a < c + rule.duration && a + rule.duration > c))
           && FitsAt(everyone, c, rule)
    }

    /** How many optional people cannot come to a meeting at c. */
    ghost function Missing(c: int): nat {
      Absent(optional, rule, c)
    }
  }

  lemma PossibleIs(need: Need, w: Window, c: int)
    requires need.rule.Valid()
    ensures need.Possible(w, c) <==> c in Grid(w, need.rule.duration, need.rule.minutes) && need.Admissible()(c)
  {
    GridMembers(CeilToGrid(w.start, need.rule.minutes), w.end, need.rule.duration, need.rule.minutes * MINUTE, c);
  }

  /** The names of the optional people who cannot come to a meeting at c. */
  function BusyNames(optional: seq<Person>, rule: Rule, c: int): seq<string> {
    if optional == [] then []
    else
      var p := optional[|optional| - 1];
      BusyNames(optional[..|optional| - 1], rule, c) + if FitsAt([p], c, rule) then [] else [p.who]
  }

  lemma {:induction false} BusyAreThose(optional: seq<Person>, rule: Rule, c: int)
    ensures Selected(BusyNames(optional, rule, c), optional, CannotCome(c, c + rule.duration, rule.blocking), HasName())
  {
    var busy := CannotCome(c, c + rule.duration, rule.blocking);
    if optional == [] {
      SelectedNone(busy, HasName());
    } else {
      var before, p := optional[..|optional| - 1], optional[|optional| - 1];
      assert optional == before + [p];
      BusyAreThose(before, rule, c);
      assert p in [p];
      SelectedOneMore(BusyNames(before, rule, c), before, p, if FitsAt([p], c, rule) then [] else [p.who], busy, HasName());
    }
  }

  lemma BusyCount(optional: seq<Person>, rule: Rule, c: int)
    ensures |BusyNames(optional, rule, c)| == Absent(optional, rule, c)
  {
    BusyAreThose(optional, rule, c);
    SelectedSize(BusyNames(optional, rule, c), optional, CannotCome(c, c + rule.duration, rule.blocking), HasName(),
                 WhoCannot(optional, c, c + rule.duration, rule.blocking));
  }

  datatype Choice = Choice(at: int, day: int, missing: nat)

  /** `best` is the start in the window that the fewest optional people miss, the earliest of these;
      there is none only if the meeting may start nowhere in the window. */
  ghost predicate BestHere(need: Need, w: Window, best: Option<Choice>)
    requires need.rule.Valid()
  {
    match best
    case None => forall c :: !need.Possible(w, c)
    case Some(b) =>
      && need.Possible(w, b.at) && b.day == w.day
      && b.missing == |WhoCannot(need.optional, b.at, b.at + need.rule.duration, need.rule.blocking)|
      && forall c :: need.Possible(w, c) ==> NoWorse(need.optional, need.rule, b.at, c)
  }

  /** The documented choice: the earliest day on which the meeting may start at all, and on that day the
      start that the fewest optional people miss, the earliest of these. */
  ghost predicate BestOverall(need: Need, windows: seq<Window>, best: Option<Choice>)
    requires need.rule.Valid()
  {
    match best
    case None => forall k, c :: 0 <= k < |windows| ==> !need.Possible(windows[k], c)
    case Some(b) => exists j :: 0 <= j < |windows| && BestFrom(need, windows, j, b)
  }

  ghost predicate BestFrom(need: Need, windows: seq<Window>, j: int, b: Choice)
    requires need.rule.Valid() && 0 <= j < |windows|
  {
    && BestHere(need, windows[j], Some(b))
    && forall k, c {:trigger need.Possible(windows[k], c)} :: 0 <= k < |windows| && need.Possible(windows[k], c) ==>
         windows[j].day < windows[k].day || (windows[j].day == windows[k].day && NoWorse(need.optional, need.rule, b.at, c))
  }

  lemma NoneBetter(need: Need, windows: seq<Window>, j: int, b: Choice, k: int, c: int)
    requires need.rule.Valid() && 0 <= j < |windows| && 0 <= k < |windows|
    requires BestFrom(need, windows, j, b) && need.Possible(windows[k], c)
    ensures windows[j].day < windows[k].day || (windows[j].day == windows[k].day && NoWorse(need.optional, need.rule, b.at, c))
  {
  }

  // ---- one window ----

  /** The best of the starts seen so far. */
  ghost predicate BestOf(seen: seq<int>, need: Need, best: Option<Choice>) {
    match best
    case None => forall c <- seen :: !need.Admissible()(c)
    case Some(b) => b.at in seen && need.Admissible()(b.at) && b.missing == need.Missing(b.at)
                    && forall c <- seen :: need.Admissible()(c) ==> NoWorse(need.optional, need.rule, b.at, c)
  }

  lemma BestOfOneMore(seen: seq<int>, c: int, need: Need, best: Option<Choice>, day: int, missing: nat)
    requires BestOf(seen, need, best) && (forall x <- seen :: x < c) && missing == need.Missing(c)
    ensures BestOf(seen + [c], need,
                   if need.Admissible()(c) && (best.None? || missing < best.value.missing) then Some(Choice(c, day, missing)) else best)
  {
  }

  method IsAdmissible(need: Need, cursor: int) returns (ok: bool)
    ensures ok == need.Admissible()(cursor)
  {
    var end := cursor + need.rule.duration;
    ok := (need.earliest.None? || cursor >= need.earliest.value)
       && !(exists a <- need.taken :: a < end && a + need.rule.duration > cursor)
       && Fits(need.everyone, cursor, end, need.rule.blocking);
  }

  /** One window of the search. */
  method BestInWindow(need: Need, w: Window) returns (best: Option<Choice>)
    requires need.rule.Valid()
    ensures BestHere(need, w, best)
  {
    best := ScanStarts(need, w);
    forall c ensures need.Possible(w, c) <==> c in Grid(w, need.rule.duration, need.rule.minutes) && need.Admissible()(c) {
      PossibleIs(need, w, c);
    }
  }

  /** Its loop, which stops at the first start that suits every optional person. */
  method ScanStarts(need: Need, w: Window) returns (best: Option<Choice>)
    requires need.rule.Valid()
    ensures BestOf(Grid(w, need.rule.duration, need.rule.minutes), need, best)
    ensures best.Some? ==> best.value.day == w.day
  {
    best := None;
    var cursor := CeilToGrid(w.start, need.rule.minutes);
    ghost var seen: seq<int> := [];
    while cursor + need.rule.duration <= w.end
      invariant Scanned(w, need.rule, seen, cursor)
      invariant BestOf(seen, need, best) && (best.Some? ==> best.value.day == w.day)
      decreases w.end - need.rule.duration - cursor
    {
      ScanOneMore(w, need.rule, seen, cursor);
      var fits := IsAdmissible(need, cursor);
      var busy := |BusyNames(need.optional, need.rule, cursor)|;
      BusyCount(need.optional, need.rule, cursor);
      BestOfOneMore(seen, cursor, need, best, w.day, busy);
      seen := seen + [cursor];
      if fits {
        if best.None? || busy < best.value.missing {
          best := Some(Choice(cursor, w.day, busy));
        }
        if busy == 0 {
          RestIsNoBetter(w, need, seen, cursor + need.rule.minutes * MINUTE, best);
          return;
        }
      }
      cursor := cursor + need.rule.minutes * MINUTE;
    }
    AllScanned(w, need.rule, seen, cursor);
  }

  /** The starts before the cursor have been seen. */
  ghost predicate Scanned(w: Window, rule: Rule, seen: seq<int>, cursor: int) {
    && rule.Valid()
    && seen + GridFrom(cursor, w.end, rule.duration, rule.minutes * MINUTE) == Grid(w, rule.duration, rule.minutes)
  }

  lemma ScanOneMore(w: Window, rule: Rule, seen: seq<int>, cursor: int)
    requires Scanned(w, rule, seen, cursor) && cursor + rule.duration <= w.end
    ensures Scanned(w, rule, seen + [cursor], cursor + rule.minutes * MINUTE)
    ensures forall x <- seen :: x < cursor
    ensures rule.minutes * MINUTE > 0
  {
    CursorStep(seen, cursor, w.end, rule.duration, rule.minutes * MINUTE);
    GridInside(w, rule.duration, rule.minutes);
    var grid := Grid(w, rule.duration, rule.minutes);
    assert grid[|seen|] == cursor;
    forall i | 0 <= i < |seen| ensures seen[i] < cursor {
      assert grid[i] == seen[i];
    }
  }

  lemma AllScanned(w: Window, rule: Rule, seen: seq<int>, cursor: int)
    requires Scanned(w, rule, seen, cursor) && cursor + rule.duration > w.end
    ensures seen == Grid(w, rule.duration, rule.minutes)
  {
    assert seen + [] == seen;
  }

  lemma RestIsNoBetter(w: Window, need: Need, seen: seq<int>, cursor: int, best: Option<Choice>)
    requires Scanned(w, need.rule, seen, cursor)
    requires BestOf(seen, need, best) && best.Some? && best.value.missing == 0
    ensures BestOf(Grid(w, need.rule.duration, need.rule.minutes), need, best)
  {
    var rule := need.rule;
    GridInside(w, rule.duration, rule.minutes);
    var grid := Grid(w, rule.duration, rule.minutes);
    assert rule.minutes * MINUTE > 0;
    assert grid[..|seen|] == seen;
    var k :| 0 <= k < |seen| && seen[k] == best.value.at;
    assert grid[k] == best.value.at;
    forall c | c in grid && need.Admissible()(c) ensures NoWorse(need.optional, rule, best.value.at, c) {
      var i :| 0 <= i < |grid| && grid[i] == c;
      if i < |seen| {
        assert seen[i] == c;
      }
    }
  }

  /** The search over all windows. */
  method FindBest(need: Need, windows: seq<Window>) returns (best: Option<Choice>)
    requires need.rule.Valid() && WorkHours.InOrder(windows)
    ensures BestOverall(need, windows, best)
  {
    best := None;
    ghost var home := 0;
    var i := 0;
    while i < |windows|
      invariant 0 <= i <= |windows|
      invariant if best.None? then NothingBefore(need, windows, i) else 0 <= home < |windows| && home == i - 1
      invariant best.Some? ==> BestHere(need, windows[home], best) && NothingBefore(need, windows, home)
    {
      if best.Some? && best.value.day < windows[i].day {
        break;
      }
      best := BestInWindow(need, windows[i]);
      home := i;
      i := i + 1;
      if best.Some? && best.value.missing == 0 {
        break;
      }
    }
    if best.Some? {
      FirstDayIsBest(need, windows, home, best.value);
    }
  }

  /** The meeting may start in none of the first windows. */
  ghost predicate NothingBefore(need: Need, windows: seq<Window>, n: nat)
    requires need.rule.Valid() && n <= |windows|
  {
    forall k, c :: 0 <= k < n ==> !need.Possible(windows[k], c)
  }

  lemma FirstDayIsBest(need: Need, windows: seq<Window>, home: nat, b: Choice)
    requires need.rule.Valid() && WorkHours.InOrder(windows) && home < |windows|
    requires BestHere(need, windows[home], Some(b)) && NothingBefore(need, windows, home)
    ensures BestFrom(need, windows, home, b)
  {
    forall k, c | 0 <= k < |windows| && need.Possible(windows[k], c)
      ensures windows[home].day < windows[k].day || (windows[home].day == windows[k].day && NoWorse(need.optional, need.rule, b.at, c))
    {
    }
  }

  // ---- the plan ----

  /** What happened, in the order in which the meetings were placed: meeting n of request r got
      start `at`, or could not be placed. */
  datatype Event = Placed(r: nat, n: int, at: int) | Refused(r: nat, n: int)

  function Taken(log: seq<Event>): seq<int> {
    if log == [] then []
    else
      var e := log[|log| - 1];
      Taken(log[..|log| - 1]) + if e.Placed? then [e.at] else []
  }

  /** The last start given to request r. */
  function Previous(log: seq<Event>, r: nat): Option<int> {
    if log == [] then None
    else
      var e := log[|log| - 1];
      if e.Placed? && e.r == r then Some(e.at) else Previous(log[..|log| - 1], r)
  }

  function Earliest(log: seq<Event>, r: nat, minGap: int): Option<int> {
    match Previous(log, r)
    case Some(at) => Some(at + minGap)
    case None => None
  }

  /** Event i is the last meeting placed for request r. */
  ghost predicate LastPlaced(log: seq<Event>, r: nat, i: int) {
    && 0 <= i < |log| && log[i].Placed? && log[i].r == r
    && forall m :: i < m < |log| ==> !(log[m].Placed? && log[m].r == r)
  }

  /** The fixed inputs of a plan. */
  datatype Inputs = Inputs(base: seq<Person>, requests: seq<Request>, windows: seq<Window>, rule: Rule,
                           minGap: int, optional: seq<Person>)
  {
    ghost predicate Valid() { rule.Valid() && WorkHours.InOrder(windows) }

    function Ask(r: nat): Request {
      if r < |requests| then requests[r] else Request("", [], 0)
    }

    function Everyone(r: nat): seq<Person> {
      base + Ask(r).people
    }

    function NeedOf(log: seq<Event>, r: nat): Need {
      Need(Everyone(r), rule, Taken(log), Earliest(log, r, minGap), optional)
    }

    /** A meeting of request r may start at c, in window j, after the meetings in the log: on the grid,
        with the people of every meeting and those of the request free, overlapping no meeting placed,
        and `min_gap` after the last one placed for the request. */
    ghost predicate MayStart(log: seq<Event>, r: nat, j: int, c: int)
      requires Valid()
    {
      && 0 <= j < |windows| && r < |requests|
      && c + rule.duration <= windows[j].end
      && (exists n: nat :: c == At(CeilToGrid(windows[j].start, rule.minutes), rule.minutes * MINUTE, n))
      && (forall x <- base :: PersonFits(x, c, c + rule.duration, rule.blocking))
      && (forall x <- requests[r].people :: PersonFits(x, c, c + rule.duration, rule.blocking))
      && (forall e <- log :: e.Placed? ==> Abs(e.at - c) >= rule.duration)
      && (forall i :: LastPlaced(log, r, i) ==> c >= log[i].at + minGap)
    }

    /** Each event is the right one, given those before it: a meeting is placed on the first day on which
        it may start, where the fewest optional people miss it, the earliest of these; and it is refused
        if and only if it may start nowhere. */
    ghost predicate Right(log: seq<Event>, e: Event)
      requires Valid()
    {
      && e.r < |requests|
      && match e
         case Placed(r, n, at) => exists j :: MayStart(log, r, j, at) && NoneBefore(log, r, j, at)
         case Refused(r, n) => forall k, c :: !MayStart(log, r, k, c)
    }

    /** Wherever else the meeting may start, that is on a later day, or on the same day with more optional
        people busy, or with as many and no earlier. */
    ghost predicate NoneBefore(log: seq<Event>, r: nat, j: int, at: int)
      requires Valid() && 0 <= j < |windows|
    {
      forall k, c {:trigger MayStart(log, r, k, c)} :: MayStart(log, r, k, c) ==>
        || windows[j].day < windows[k].day
        || (windows[j].day == windows[k].day && NoWorse(optional, rule, at, c))
    }

    ghost predicate Justified(log: seq<Event>)
      requires Valid()
    {
      forall k :: 0 <= k < |log| ==> Right(log[..k], log[k])
    }

    /** The total common time of a request. */
    function Room(r: nat): int
      requires rule.Valid()
    {
      TotalTime(AllSpans(Everyone(r), windows, rule))
    }
  }

  /** Taken are the starts of the meetings placed. */
  lemma {:induction false} TakenAre(log: seq<Event>, a: int)
    ensures a in Taken(log) <==> exists e <- log :: e.Placed? && e.at == a
  {
    if log == [] {
    } else {
      var before, last := log[..|log| - 1], log[|log| - 1];
      TakenAre(before, a);
      assert log == before + [last];
    }
  }

  lemma {:induction false} PreviousIs(log: seq<Event>, r: nat)
    ensures match Previous(log, r)
            case None => forall i :: !LastPlaced(log, r, i)
            case Some(at) => (exists i :: LastPlaced(log, r, i)) && forall i :: LastPlaced(log, r, i) ==> log[i].at == at
  {
    if log == [] {
    } else {
      var before, last := log[..|log| - 1], log[|log| - 1];
      if last.Placed? && last.r == r {
        assert LastPlaced(log, r, |log| - 1);
      } else {
        PreviousIs(before, r);
        forall i ensures LastPlaced(log, r, i) <==> LastPlaced(before, r, i) {
          LastBefore(log, r, i);
        }
      }
    }
  }

  lemma LastBefore(log: seq<Event>, r: nat, i: int)
    requires log != [] && !(log[|log| - 1].Placed? && log[|log| - 1].r == r)
    ensures LastPlaced(log, r, i) <==> LastPlaced(log[..|log| - 1], r, i)
  {
    var before := log[..|log| - 1];
    assert forall m :: 0 <= m < |before| ==> before[m] == log[m];
  }

  lemma MayStartIs(p: Inputs, log: seq<Event>, r: nat, j: int, c: int)
    requires p.Valid() && 0 <= j < |p.windows| && r < |p.requests|
    ensures p.MayStart(log, r, j, c) <==> p.NeedOf(log, r).Possible(p.windows[j], c)
  {
    var need := p.NeedOf(log, r);
    EveryoneFits(p, r, c);
    ClearOfPlaced(p, log, c);
    PreviousIs(log, r);
    assert need.earliest.Some? && c >= need.earliest.value ==>
      forall i :: LastPlaced(log, r, i) ==> c >= log[i].at + p.minGap;
  }

  lemma EveryoneFits(p: Inputs, r: nat, c: int)
    requires r < |p.requests|
    ensures (forall x <- p.Everyone(r) :: PersonFits(x, c, c + p.rule.duration, p.rule.blocking)) <==>
            && (forall x <- p.base :: PersonFits(x, c, c + p.rule.duration, p.rule.blocking))
            && (forall x <- p.requests[r].people :: PersonFits(x, c, c + p.rule.duration, p.rule.blocking))
  {
    assert forall x :: x in p.Everyone(r) <==> x in p.base || x in p.requests[r].people;
  }

  lemma ClearOfPlaced(p: Inputs, log: seq<Event>, c: int)
    ensures (forall a <- Taken(log) :: Abs(a - c) >= p.rule.duration) <==>
            (forall e <- log :: e.Placed? ==> Abs(e.at - c) >= p.rule.duration)
  {
    if a :| a in Taken(log) && Abs(a - c) < p.rule.duration {
      TakenAre(log, a);
    }
    if e :| e in log && e.Placed? && Abs(e.at - c) < p.rule.duration {
      TakenAre(log, e.at);
    }
  }

  function TotalTime(spans: seq<Span>): int {
    if spans == [] then 0 else spans[0].end - spans[0].start + TotalTime(spans[1..])
  }

  /** It is the sum of the lengths of the spans. */
  lemma {:induction false} TotalTimeAdds(a: seq<Span>, b: seq<Span>, sp: Span)
    ensures TotalTime(a + b) == TotalTime(a) + TotalTime(b) && TotalTime([sp]) == sp.end - sp.start
  {
    if a == [] {
      assert a + b == b;
    } else {
      assert (a + b)[1..] == a[1..] + b;
      TotalTimeAdds(a[1..], b, sp);
    }
  }

  function OfRequest(log: seq<Event>, r: nat): seq<Event> {
    if log == [] then []
    else
      var e := log[|log| - 1];
      OfRequest(log[..|log| - 1], r) + if e.r == r then [e] else []
  }

  function OfThe(r: nat): Event -> bool { (e: Event) => e.r == r }

  function Itself(): (Event, Event) -> bool { (e: Event, mine: Event) => mine == e }

  lemma {:induction false} OfRequestAre(log: seq<Event>, r: nat)
    ensures Selected(OfRequest(log, r), log, OfThe(r), Itself())
  {
    if log == [] {
      SelectedNone(OfThe(r), Itself());
    } else {
      var before, e := log[..|log| - 1], log[|log| - 1];
      assert log == before + [e];
      OfRequestAre(before, r);
      SelectedOneMore(OfRequest(before, r), before, e, if e.r == r then [e] else [], OfThe(r), Itself());
    }
  }

  /** Meetings 1, 2, ... of request r, all placed. */
  ghost predicate AllPlaced(mine: seq<Event>, r: nat) {
    forall k :: 0 <= k < |mine| ==> mine[k].Placed? && mine[k].r == r && mine[k].n == k + 1
  }

  /** A request yields all its meetings, or the first few and exactly one refusal. */
  ghost predicate Complete(mine: seq<Event>, r: nat, count: int) {
    || (|mine| == Max(count, 0) && AllPlaced(mine, r))
    || (0 < |mine| <= count && AllPlaced(mine[..|mine| - 1], r) && mine[|mine| - 1] == Refused(r, |mine|))
  }

  lemma LogOneMore(log: seq<Event>, e: Event, r: nat)
    ensures Taken(log + [e]) == Taken(log) + if e.Placed? then [e.at] else []
    ensures Previous(log + [e], r) == if e.Placed? && e.r == r then Some(e.at) else Previous(log, r)
    ensures OfRequest(log + [e], r) == OfRequest(log, r) + if e.r == r then [e] else []
  {
    assert (log + [e])[..|log|] == log;
  }

  lemma JustifiedOneMore(p: Inputs, log: seq<Event>, e: Event)
    requires p.Valid() && p.Justified(log) && p.Right(log, e)
    ensures p.Justified(log + [e])
  {
    var more := log + [e];
    forall k | 0 <= k < |more| ensures p.Right(more[..k], more[k]) {
      assert more[..k] == log[..k];
    }
    assert more[..|log|] == log && log[..|log|] == log;
  }

  // ---- what a justified log guarantees ----

  /** The window in which a meeting was placed. */
  lemma PlacedWasOpen(p: Inputs, log: seq<Event>, k: nat) returns (j: int)
    requires p.Valid() && p.Justified(log) && k < |log| && log[k].Placed?
    ensures p.MayStart(log[..k], log[k].r, j, log[k].at) && p.NoneBefore(log[..k], log[k].r, j, log[k].at)
  {
    assert p.Right(log[..k], log[k]);
    j :| p.MayStart(log[..k], log[k].r, j, log[k].at) && p.NoneBefore(log[..k], log[k].r, j, log[k].at);
  }

  /** No two meetings overlap, whoever they are for. */
  lemma PlacedApart(p: Inputs, log: seq<Event>, i: nat, k: nat)
    requires p.Valid() && p.Justified(log) && i < k < |log| && log[i].Placed? && log[k].Placed?
    ensures Abs(log[i].at - log[k].at) >= p.rule.duration
  {
    var j := PlacedWasOpen(p, log, k);
    assert log[..k][i] == log[i] && log[..k][i] in log[..k];
  }

  /** Everyone required is free, and the slot lies in one of the windows that `common_windows`
      reports for that meeting. */
  lemma PlacedInCommonWindow(p: Inputs, log: seq<Event>, k: nat)
    requires p.Valid() && p.Justified(log) && k < |log| && log[k].Placed?
    ensures log[k].r < |p.requests|
    ensures exists sp <- AllSpans(p.Everyone(log[k].r), p.windows, p.rule) :: Holds(sp, log[k].at, p.rule.duration)
  {
    var c, r := log[k].at, log[k].r;
    var j := PlacedWasOpen(p, log, k);
    GridMembers(CeilToGrid(p.windows[j].start, p.rule.minutes), p.windows[j].end, p.rule.duration, p.rule.minutes * MINUTE, c);
    StartsInGrid(p.windows, p.rule.duration, p.rule.minutes);
    EveryoneFits(p, r, c);
    assert c in Grid(p.windows[j], p.rule.duration, p.rule.minutes);
    SpansAreExact(p.Everyone(r), p.windows, p.rule, c);
  }

  /** Each placed event is at least `gap` after the last one of its request. */
  ghost predicate KeepsGap(log: seq<Event>, gap: int) {
    forall k :: 0 <= k < |log| && log[k].Placed? && Previous(log[..k], log[k].r).Some? ==>
      log[k].at >= Previous(log[..k], log[k].r).value + gap
  }

  lemma {:induction false} PreviousIsLater(log: seq<Event>, gap: int, i: nat)
    requires KeepsGap(log, gap) && gap >= 0 && i < |log| && log[i].Placed?
    ensures Previous(log, log[i].r).Some? && Previous(log, log[i].r).value >= log[i].at
  {
    if i < |log| - 1 {
      var before := log[..|log| - 1];
      assert forall k :: 0 <= k < |before| ==> before[..k] == log[..k];
      PreviousIsLater(before, gap, i);
    }
  }

  lemma PlacedKeepsGap(p: Inputs, log: seq<Event>, k: nat)
    requires p.Valid() && p.Justified(log) && k < |log| && log[k].Placed?
    ensures var last := Previous(log[..k], log[k].r); last.Some? ==> log[k].at >= last.value + p.minGap
  {
    var j := PlacedWasOpen(p, log, k);
    PreviousIs(log[..k], log[k].r);
    if Previous(log[..k], log[k].r).Some? {
      var i :| LastPlaced(log[..k], log[k].r, i);
    }
  }

  /** Repeats of one request come in order, each at least `min_gap` after every earlier one. */
  lemma RepeatsAreSpaced(p: Inputs, log: seq<Event>, i: nat, k: nat)
    requires p.Valid() && p.Justified(log) && p.minGap >= 0
    requires i < k < |log| && log[i].Placed? && log[k].Placed? && log[i].r == log[k].r
    ensures log[k].at >= log[i].at + p.minGap
  {
    forall m | 0 <= m < |log| && log[m].Placed?
      ensures Previous(log[..m], log[m].r).Some? ==> log[m].at >= Previous(log[..m], log[m].r).value + p.minGap
    {
      PlacedKeepsGap(p, log, m);
    }
    GapSoFar(log, p.minGap, k);
    PreviousIsLater(log[..k], p.minGap, i);
  }

  lemma GapSoFar(log: seq<Event>, gap: int, k: nat)
    requires KeepsGap(log, gap) && k <= |log|
    ensures KeepsGap(log[..k], gap)
  {
    assert forall m :: 0 <= m < k ==> log[..k][..m] == log[..m];
  }

  // ---- the report ----

  datatype Proposal = Proposal(name: string, n: int, count: int, start: int, end: int, attendees: seq<string>,
                               optionalBusy: Option<seq<string>>)

  datatype Unplaced = Unplaced(name: string, n: int, count: int)

  function Addresses(people: seq<Person>): seq<string> {
    seq(|people|, i requires 0 <= i < |people| => people[i].address)
  }

  function ProposalOf(p: Inputs, e: Event): Proposal
    requires e.Placed?
  {
    var r := p.Ask(e.r);
    Proposal(r.name, e.n, r.count, e.at, e.at + p.rule.duration, Addresses(r.people),
             if p.optional == [] then None else Some(BusyNames(p.optional, p.rule, e.at)))
  }

  function UnplacedOf(p: Inputs, r: nat, n: int): Unplaced {
    Unplaced(p.Ask(r).name, n, p.Ask(r).count)
  }

  function Proposals(p: Inputs, log: seq<Event>): seq<Proposal> {
    if log == [] then []
    else
      var e := log[|log| - 1];
      Proposals(p, log[..|log| - 1]) + if e.Placed? then [ProposalOf(p, e)] else []
  }

  function Refusals(p: Inputs, log: seq<Event>): seq<Unplaced> {
    if log == [] then []
    else
      var e := log[|log| - 1];
      Refusals(p, log[..|log| - 1])
      + if e.Refused? then [UnplacedOf(p, e.r, e.n)] else []
  }

  /** The proposal says which meeting was placed and when, lists the people of the request, and names
      exactly the optional people, in order, who cannot come. */
  ghost predicate Describes(p: Inputs, e: Event, x: Proposal) {
    && e.Placed? && e.r < |p.requests|
    && x.name == p.requests[e.r].name && x.n == e.n && x.count == p.requests[e.r].count
    && x.start == e.at && x.end == e.at + p.rule.duration
    && |x.attendees| == |p.requests[e.r].people|
    && (forall i :: 0 <= i < |x.attendees| ==> x.attendees[i] == p.requests[e.r].people[i].address)
    && match x.optionalBusy
       case None => p.optional == []
       case Some(names) =>
         p.optional != [] && Selected(names, p.optional, CannotCome(x.start, x.end, p.rule.blocking), HasName())
  }

  ghost predicate DescribesRefusal(p: Inputs, e: Event, x: Unplaced) {
    && e.Refused? && e.r < |p.requests|
    && x.name == p.requests[e.r].name && x.n == e.n && x.count == p.requests[e.r].count
  }

  function WasPlaced(): Event -> bool { (e: Event) => e.Placed? }

  function WasRefused(): Event -> bool { (e: Event) => e.Refused? }

  ghost function Describing(p: Inputs): (Event, Proposal) -> bool { (e: Event, x: Proposal) => Describes(p, e, x) }

  ghost function DescribingRefusal(p: Inputs): (Event, Unplaced) -> bool {
    (e: Event, x: Unplaced) => DescribesRefusal(p, e, x)
  }

  /** One proposal for each meeting placed and one entry for each refused, in order. */
  ghost predicate AccountsFor(p: Inputs, log: seq<Event>, placed: seq<Proposal>, unplaced: seq<Unplaced>) {
    && Selected(placed, log, WasPlaced(), Describing(p))
    && Selected(unplaced, log, WasRefused(), DescribingRefusal(p))
  }

  lemma ProposalDescribes(p: Inputs, e: Event)
    requires e.Placed? && e.r < |p.requests|
    ensures Describes(p, e, ProposalOf(p, e))
  {
    BusyAreThose(p.optional, p.rule, e.at);
  }

  lemma {:induction false} ReportAccounts(p: Inputs, log: seq<Event>)
    requires forall e <- log :: e.r < |p.requests|
    ensures AccountsFor(p, log, Proposals(p, log), Refusals(p, log))
  {
    if log == [] {
      SelectedNone(WasPlaced(), Describing(p));
      SelectedNone(WasRefused(), DescribingRefusal(p));
    } else {
      var before, e := log[..|log| - 1], log[|log| - 1];
      assert log == before + [e];
      ReportAccounts(p, before);
      if e.Placed? { ProposalDescribes(p, e); }
      SelectedOneMore(Proposals(p, before), before, e, if e.Placed? then [ProposalOf(p, e)] else [], WasPlaced(), Describing(p));
      SelectedOneMore(Refusals(p, before), before, e, if e.Refused? then [UnplacedOf(p, e.r, e.n)] else [],
                      WasRefused(), DescribingRefusal(p));
    }
  }

  predicate StartsFirst(a: Proposal, b: Proposal) { a.start <= b.start }

  /** The proposals of a justified log, however they are reordered, do not overlap. */
  ghost predicate Apart(ps: seq<Proposal>, duration: int) {
    forall i, k :: 0 <= i < k < |ps| ==> Abs(ps[i].start - ps[k].start) >= duration
  }

  /** Each proposal comes from one placed event. */
  lemma {:induction false} ProposalSource(p: Inputs, log: seq<Event>, i: nat) returns (k: nat)
    requires i < |Proposals(p, log)|
    ensures k < |log| && log[k].Placed? && Proposals(p, log)[i] == ProposalOf(p, log[k])
    ensures |Proposals(p, log[..k])| == i
  {
    var before := log[..|log| - 1];
    if i < |Proposals(p, before)| {
      k := ProposalSource(p, before, i);
      assert before[..k] == log[..k];
    } else {
      k := |log| - 1;
    }
  }

  lemma {:induction false} ProposalsGrow(p: Inputs, log: seq<Event>, k: nat)
    requires k <= |log|
    ensures |Proposals(p, log[..k])| <= |Proposals(p, log)|
    decreases |log| - k
  {
    if k < |log| {
      ProposalsGrow(p, log, k + 1);
      assert log[..k + 1][..k] == log[..k];
    } else {
      assert log[..k] == log;
    }
  }

  lemma SourcesInOrder(p: Inputs, log: seq<Event>, a: nat, b: nat)
    requires a <= |log| && b <= |log| && |Proposals(p, log[..a])| < |Proposals(p, log[..b])|
    ensures a < b
  {
    if b <= a {
      assert log[..a][..b] == log[..b];
      ProposalsGrow(p, log[..a], b);
    }
  }

  lemma ProposalsApart(p: Inputs, log: seq<Event>)
    requires p.Valid() && p.Justified(log)
    ensures Apart(Proposals(p, log), p.rule.duration)
  {
    var ps := Proposals(p, log);
    forall i, k | 0 <= i < k < |ps| ensures Abs(ps[i].start - ps[k].start) >= p.rule.duration {
      var a := ProposalSource(p, log, i);
      var b := ProposalSource(p, log, k);
      SourcesInOrder(p, log, a, b);
      PlacedApart(p, log, a, b);
    }
  }

  /** Sorted by start they come one after the other. */
  lemma SortedProposalsFollow(ps: seq<Proposal>, sorted: seq<Proposal>, duration: int)
    requires Apart(ps, duration) && duration > 0
    requires multiset(sorted) == multiset(ps) && Sorting.Sorted(sorted, StartsFirst)
    ensures forall i, k :: 0 <= i < k < |sorted| ==> sorted[i].start + duration <= sorted[k].start
  {
    forall i, k | 0 <= i < k < |sorted| ensures sorted[i].start + duration <= sorted[k].start {
      SameMembers(sorted, ps);
      assert sorted[i] in sorted && sorted[k] in sorted;
      var a :| 0 <= a < |ps| && ps[a] == sorted[i];
      var b :| 0 <= b < |ps| && ps[b] == sorted[k];
      if a == b {
        DistinctCount(ps, ps[a]);
        CountTwice(sorted, i, k);
      }
      assert StartsFirst(sorted[i], sorted[k]);
    }
  }

  lemma CountTwice<T>(s: seq<T>, i: nat, k: nat)
    requires i < k < |s| && s[i] == s[k]
    ensures multiset(s)[s[i]] >= 2
  {
    assert s == s[..i] + [s[i]] + s[i + 1..k] + [s[k]] + s[k + 1..];
  }

  // ---- the order ----

  function Key(keys: seq<int>, i: nat): int { if i < |keys| then keys[i] else 0 }

  function ByKey(keys: seq<int>): (nat, nat) -> bool {
    (a: nat, b: nat) => Key(keys, a) < Key(keys, b) || (Key(keys, a) == Key(keys, b) && a <= b)
  }

  function Indices(n: nat): seq<nat> { seq(n, i requires 0 <= i < n => i) }

  lemma SortedIndices(keys: seq<int>, n: nat) returns (order: seq<nat>)
    ensures order == Sorting.Sort(Indices(n), ByKey(keys))
    ensures multiset(order) == multiset(Indices(n)) && forall i <- order :: i < n
    ensures forall i, k :: 0 <= i < k < |order| ==>
              order[i] != order[k]
              && (Key(keys, order[i]) < Key(keys, order[k])
                  || (Key(keys, order[i]) == Key(keys, order[k]) && order[i] < order[k]))
  {
    order := Sorting.Sort(Indices(n), ByKey(keys));
    Sorting.SortSorted(Indices(n), ByKey(keys));
    SameMembers(order, Indices(n));
    forall i, k | 0 <= i < k < |order|
      ensures order[i] != order[k] && ByKey(keys)(order[i], order[k])
    {
      if order[i] == order[k] {
        DistinctCount(Indices(n), order[i]);
        CountTwice(order, i, k);
      }
    }
  }

  /** Less common time, or as much and given earlier. */
  ghost predicate Scarcer(p: Inputs, q: nat, r: nat)
    requires p.Valid()
  {
    p.Room(q) < p.Room(r) || (p.Room(q) == p.Room(r) && q < r)
  }

  /** All requests, those with the least common time first, ties in the order given. */
  ghost predicate ScarcestFirst(p: Inputs, order: seq<nat>)
    requires p.Valid()
  {
    && multiset(order) == multiset(Indices(|p.requests|))
    && (forall i <- order :: i < |p.requests|)
    && (forall i, k :: 0 <= i < k < |order| ==> Scarcer(p, order[i], order[k]))
  }

  method Scarcest(p: Inputs) returns (order: seq<nat>)
    requires p.Valid()
    ensures ScarcestFirst(p, order)
  {
    var keys := Rooms(p);
    order := Sorting.Sort(Indices(|p.requests|), ByKey(keys));
    SortedByRoom(p, keys);
  }

  /** The common times of the first requests. */
  ghost predicate RoomsOfFirst(p: Inputs, keys: seq<int>, n: nat)
    requires p.Valid()
  {
    |keys| == n && forall k :: 0 <= k < n ==> keys[k] == p.Room(k)
  }

  method Rooms(p: Inputs) returns (keys: seq<int>)
    requires p.Valid()
    ensures RoomsOfFirst(p, keys, |p.requests|)
  {
    keys := [];
    var i := 0;
    while i < |p.requests|
      invariant 0 <= i <= |p.requests| && RoomsOfFirst(p, keys, i)
    {
      var room := RoomOf(p, i);
      OneRoomMore(p, keys, i, room);
      keys := keys + [room];
      i := i + 1;
    }
  }

  lemma OneRoomMore(p: Inputs, keys: seq<int>, n: nat, room: int)
    requires p.Valid() && RoomsOfFirst(p, keys, n) && room == p.Room(n)
    ensures RoomsOfFirst(p, keys + [room], n + 1)
  {
  }

  lemma SortedByRoom(p: Inputs, keys: seq<int>)
    requires p.Valid() && RoomsOfFirst(p, keys, |p.requests|)
    ensures ScarcestFirst(p, Sorting.Sort(Indices(|p.requests|), ByKey(keys)))
  {
    var order := SortedIndices(keys, |p.requests|);
    forall k | 0 <= k < |order| ensures order[k] < |keys| && Key(keys, order[k]) == p.Room(order[k]) {
      assert order[k] in order;
    }
  }

  /** `room`: the time of all common windows of request r. */
  method RoomOf(p: Inputs, r: nat) returns (room: int)
    requires p.Valid() && r < |p.requests|
    ensures room == p.Room(r)
  {
    var ws := FindCommonWindows(p.Everyone(r), p.windows, p.rule, []);
    ghost var spans := AllSpans(p.Everyone(r), p.windows, p.rule);
    ReportedSpans(spans, p.rule);
    room := TimeOf(ws, spans);
  }

  method TimeOf(ws: seq<Reported>, ghost spans: seq<Span>) returns (room: int)
    requires |ws| == |spans| && forall k :: 0 <= k < |ws| ==> ws[k].span == spans[k]
    ensures room == TotalTime(spans)
  {
    room := 0;
    var i := 0;
    assert spans[0..] == spans;
    while i < |ws|
      invariant 0 <= i <= |ws|
      invariant room + TotalTime(spans[i..]) == TotalTime(spans)
    {
      DropOne(spans, i);
      room := room + (ws[i].span.end - ws[i].span.start);
      i := i + 1;
    }
  }

  lemma {:induction false} ReportedSpans(spans: seq<Span>, rule: Rule)
    requires rule.Valid()
    ensures var ws := ReportAll(spans, [], rule);
            |ws| == |spans| && forall k :: 0 <= k < |ws| ==> ws[k].span == spans[k]
  {
    if spans == [] {
    } else {
      ReportedSpans(spans[..|spans| - 1], rule);
    }
  }

  // ---- the method ----

  /** The log so far is justified and reported. */
  ghost predicate Consistent(p: Inputs, log: seq<Event>, taken: seq<int>, proposal: seq<Proposal>, unplaced: seq<Unplaced>)
    requires p.Valid()
  {
    && p.Justified(log) && taken == Taken(log)
    && proposal == Proposals(p, log) && unplaced == Refusals(p, log)
  }

  /** All of request r's events, with r's count. */
  ghost predicate Settled(p: Inputs, log: seq<Event>, r: nat) {
    Complete(OfRequest(log, r), r, p.Ask(r).count)
  }

  /** Events come scarcest request first, those of one request together. */
  ghost predicate InRoomOrder(p: Inputs, log: seq<Event>)
    requires p.Valid()
  {
    forall i, k :: 0 <= i < k < |log| ==> log[i].r == log[k].r || Scarcer(p, log[i].r, log[k].r)
  }

  method PlanMeetings(p: Inputs)
    returns (proposal: seq<Proposal>, unplaced: seq<Unplaced>, ghost log: seq<Event>, ghost placed: seq<Proposal>)
    requires p.Valid()
    ensures p.Justified(log)
    ensures forall r :: 0 <= r < |p.requests| ==> Settled(p, log, r)
    ensures InRoomOrder(p, log)
    ensures multiset(proposal) == multiset(placed) && AccountsFor(p, log, placed, unplaced)
    ensures forall i, k :: 0 <= i < k < |proposal| ==> proposal[i].start + p.rule.duration <= proposal[k].start
  {
    var all;
    all, unplaced, log := PlaceAll(p);
    placed := all;
    ProposalsApart(p, log);
    EventsAreOfRequests(p, log);
    ReportAccounts(p, log);
    proposal := Sorting.Sort(all, StartsFirst);
    Sorting.SortSorted(all, StartsFirst);
    SortedProposalsFollow(all, proposal, p.rule.duration);
  }

  lemma EventsAreOfRequests(p: Inputs, log: seq<Event>)
    requires p.Valid() && p.Justified(log)
    ensures forall e <- log :: e.r < |p.requests|
  {
    forall k | 0 <= k < |log| ensures log[k].r < |p.requests| {
      assert p.Right(log[..k], log[k]);
    }
  }

  /** The requests one after the other, the scarcest first. */
  method PlaceAll(p: Inputs) returns (placed: seq<Proposal>, unplaced: seq<Unplaced>, ghost log: seq<Event>)
    requires p.Valid()
    ensures p.Justified(log) && placed == Proposals(p, log) && unplaced == Refusals(p, log)
    ensures forall r :: 0 <= r < |p.requests| ==> Settled(p, log, r)
    ensures InRoomOrder(p, log)
  {
    log := [];
    var taken: seq<int> := [];
    placed, unplaced := [], [];
    var order := Scarcest(p);
    var i := 0;
    while i < |order|
      invariant 0 <= i <= |order|
      invariant Consistent(p, log, taken, placed, unplaced)
      invariant Planned(p, order, i, log)
    {
      ghost var before := log;
      NotYetPlanned(p, order, i, log);
      taken, placed, unplaced, log := PlanRequest(p, order[i], log, taken, placed, unplaced);
      PlannedOneMore(p, order, i, before, log);
      i := i + 1;
    }
    EveryRequestPlanned(p, order, log);
  }

  /** The meetings of one request, appended to the log. */
  method PlanRequest(p: Inputs, r: nat, ghost before: seq<Event>, taken0: seq<int>, placed0: seq<Proposal>, unplaced0: seq<Unplaced>)
    returns (taken: seq<int>, placed: seq<Proposal>, unplaced: seq<Unplaced>, ghost log: seq<Event>)
    requires p.Valid() && r < |p.requests| && Consistent(p, before, taken0, placed0, unplaced0)
    requires forall e <- before :: e.r != r
    ensures Consistent(p, log, taken, placed, unplaced)
    ensures Extends(before, log, r) && Settled(p, log, r)
  {
    log, taken, placed, unplaced := before, taken0, placed0, unplaced0;
    NoneOfRequest(before, r);
    var previous: Option<int> := None;
    var count := p.requests[r].count;
    var n := 1;
    while n <= count
      invariant 1 <= n <= Max(count, 0) + 1
      invariant Underway(p, before, log, r, n, taken, placed, unplaced, previous)
      decreases count - n
    {
      var best := Choose(p, log, r, n, taken, previous);
      ghost var e := EventOf(r, n, best);
      OneMeetingMore(p, before, log, e, r, n, taken, placed, unplaced, previous);
      log := log + [e];
      if best.None? {
        unplaced := unplaced + [UnplacedOf(p, r, n)];
        return;
      }
      taken := taken + [best.value];
      previous := Some(best.value);
      placed := placed + [ProposalOf(p, Placed(r, n, best.value))];
      n := n + 1;
    }
  }

  /** The meetings of request r before the n-th are placed, and nothing else has changed. */
  ghost predicate Underway(p: Inputs, before: seq<Event>, log: seq<Event>, r: nat, n: int, taken: seq<int>,
                           placed: seq<Proposal>, unplaced: seq<Unplaced>, previous: Option<int>)
    requires p.Valid()
  {
    && Consistent(p, log, taken, placed, unplaced) && Extends(before, log, r)
    && AllPlaced(OfRequest(log, r), r) && |OfRequest(log, r)| == n - 1 && previous == Previous(log, r)
  }

  lemma OneMeetingMore(p: Inputs, before: seq<Event>, log: seq<Event>, e: Event, r: nat, n: int, taken: seq<int>,
                       placed: seq<Proposal>, unplaced: seq<Unplaced>, previous: Option<int>)
    requires p.Valid() && Underway(p, before, log, r, n, taken, placed, unplaced, previous)
    requires e.r == r && e.n == n && p.Right(log, e) && n <= p.Ask(r).count
    ensures e.Placed? ==>
              Underway(p, before, log + [e], r, n + 1, taken + [e.at], placed + [ProposalOf(p, e)], unplaced, Some(e.at))
    ensures e.Refused? ==>
              && Consistent(p, log + [e], taken, placed, unplaced + [UnplacedOf(p, r, n)])
              && Extends(before, log + [e], r) && Settled(p, log + [e], r)
  {
    ConsistentOneMore(p, log, e, taken, placed, unplaced);
    ExtendsOneMore(before, log, e, r);
    LogOneMore(log, e, r);
  }

  function EventOf(r: nat, n: int, at: Option<int>): Event {
    match at
    case Some(c) => Placed(r, n, c)
    case None => Refused(r, n)
  }

  method Choose(p: Inputs, ghost log: seq<Event>, r: nat, n: int, taken: seq<int>, previous: Option<int>) returns (at: Option<int>)
    requires p.Valid() && r < |p.requests| && taken == Taken(log) && previous == Previous(log, r)
    ensures p.Right(log, EventOf(r, n, at))
  {
    var earliest := if previous.Some? then Some(previous.value + p.minGap) else None;
    var best := FindBest(Need(p.Everyone(r), p.rule, taken, earliest, p.optional), p.windows);
    at := if best.Some? then Some(best.value.at) else None;
    BestIsRight(p, log, r, n, best);
  }

  lemma BestIsRight(p: Inputs, log: seq<Event>, r: nat, n: int, best: Option<Choice>)
    requires p.Valid() && r < |p.requests| && BestOverall(p.NeedOf(log, r), p.windows, best)
    ensures p.Right(log, EventOf(r, n, if best.Some? then Some(best.value.at) else None))
  {
    if best.Some? {
      var j :| 0 <= j < |p.windows| && BestFrom(p.NeedOf(log, r), p.windows, j, best.value);
      PlaceIsRight(p, log, r, j, best.value);
    } else {
      RefusalIsRight(p, log, r);
    }
  }

  lemma PlaceIsRight(p: Inputs, log: seq<Event>, r: nat, j: int, b: Choice)
    requires p.Valid() && r < |p.requests| && 0 <= j < |p.windows| && BestFrom(p.NeedOf(log, r), p.windows, j, b)
    ensures p.MayStart(log, r, j, b.at) && p.NoneBefore(log, r, j, b.at)
  {
    MayStartIs(p, log, r, j, b.at);
    forall k, c {:trigger p.MayStart(log, r, k, c)} | p.MayStart(log, r, k, c)
      ensures || p.windows[j].day < p.windows[k].day
              || (p.windows[j].day == p.windows[k].day && NoWorse(p.optional, p.rule, b.at, c))
    {
      NoBetterStart(p, log, r, j, b, k, c);
    }
  }

  lemma NoBetterStart(p: Inputs, log: seq<Event>, r: nat, j: int, b: Choice, k: int, c: int)
    requires p.Valid() && r < |p.requests| && 0 <= j < |p.windows| && BestFrom(p.NeedOf(log, r), p.windows, j, b)
    requires p.MayStart(log, r, k, c)
    ensures || p.windows[j].day < p.windows[k].day
            || (p.windows[j].day == p.windows[k].day && NoWorse(p.optional, p.rule, b.at, c))
  {
    MayStartIs(p, log, r, k, c);
    NoneBetter(p.NeedOf(log, r), p.windows, j, b, k, c);
  }

  lemma RefusalIsRight(p: Inputs, log: seq<Event>, r: nat)
    requires p.Valid() && r < |p.requests| && BestOverall(p.NeedOf(log, r), p.windows, None)
    ensures forall k, c :: !p.MayStart(log, r, k, c)
  {
    forall k, c ensures !p.MayStart(log, r, k, c) {
      if p.MayStart(log, r, k, c) {
        MayStartIs(p, log, r, k, c);
      }
    }
  }

  /** `log` is `before` and then events of request r only. */
  ghost predicate Extends(before: seq<Event>, log: seq<Event>, r: nat) {
    before <= log && forall e <- log[|before|..] :: e.r == r
  }

  lemma ExtendsOneMore(before: seq<Event>, log: seq<Event>, e: Event, r: nat)
    requires Extends(before, log, r) && e.r == r
    ensures Extends(before, log + [e], r)
  {
    assert (log + [e])[|before|..] == log[|before|..] + [e];
  }

  lemma {:induction false} NoneOfRequest(log: seq<Event>, r: nat)
    requires forall e <- log :: e.r != r
    ensures OfRequest(log, r) == [] && Previous(log, r) == None
  {
    if log == [] {
    } else {
      assert log[|log| - 1] in log;
      NoneOfRequest(log[..|log| - 1], r);
    }
  }

  lemma ConsistentOneMore(p: Inputs, log: seq<Event>, e: Event, taken: seq<int>, proposal: seq<Proposal>, unplaced: seq<Unplaced>)
    requires p.Valid() && Consistent(p, log, taken, proposal, unplaced) && p.Right(log, e)
    ensures e.Placed? ==> Consistent(p, log + [e], taken + [e.at], proposal + [ProposalOf(p, e)], unplaced)
    ensures e.Refused? ==> Consistent(p, log + [e], taken, proposal, unplaced + [UnplacedOf(p, e.r, e.n)])
  {
    JustifiedOneMore(p, log, e);
    assert (log + [e])[..|log|] == log;
  }

  // ---- the requests done so far ----

  ghost predicate Planned(p: Inputs, order: seq<nat>, i: nat, log: seq<Event>)
    requires p.Valid() && i <= |order|
  {
    && (forall e <- log :: e.r in order[..i])
    && (forall r <- order[..i] :: Settled(p, log, r))
    && InRoomOrder(p, log)
  }

  lemma NotYetPlanned(p: Inputs, order: seq<nat>, i: nat, log: seq<Event>)
    requires p.Valid() && ScarcestFirst(p, order) && i < |order| && Planned(p, order, i, log)
    ensures order[i] < |p.requests| && forall e <- log :: e.r != order[i]
  {
    assert order[i] in order;
  }

  /** Events of other requests leave a settled one settled. */
  lemma {:induction false} StaysSettled(before: seq<Event>, log: seq<Event>, r: nat, other: nat)
    requires Extends(before, log, other) && other != r
    ensures OfRequest(log, r) == OfRequest(before, r)
    decreases |log|
  {
    if |log| > |before| {
      var shorter := log[..|log| - 1];
      assert log[|log| - 1] in log[|before|..];
      assert forall e <- shorter[|before|..] :: e in log[|before|..];
      StaysSettled(before, shorter, r, other);
    } else {
      assert before == log;
    }
  }

  lemma PlannedOneMore(p: Inputs, order: seq<nat>, i: nat, before: seq<Event>, log: seq<Event>)
    requires p.Valid() && ScarcestFirst(p, order) && i < |order| && Planned(p, order, i, before)
    requires Extends(before, log, order[i]) && Settled(p, log, order[i])
    ensures Planned(p, order, i + 1, log)
  {
    TakeOne(order, i);
    EventsOneMore(before, log, order[..i], order[i]);
    SettledOneMore(p, order[..i], order[i], before, log);
    RoomOrderOneMore(p, order, i, before, log);
  }

  lemma EventsOneMore(before: seq<Event>, log: seq<Event>, rs: seq<nat>, r: nat)
    requires Extends(before, log, r) && forall e <- before :: e.r in rs
    ensures forall e <- log :: e.r in rs + [r]
  {
    TakeDrop(log, |before|);
    assert forall e <- log :: e in before || e in log[|before|..];
  }

  lemma SettledOneMore(p: Inputs, rs: seq<nat>, r: nat, before: seq<Event>, log: seq<Event>)
    requires Extends(before, log, r) && Settled(p, log, r) && forall q <- rs :: Settled(p, before, q)
    ensures forall q <- rs + [r] :: Settled(p, log, q)
  {
    forall q | q in rs + [r] ensures Settled(p, log, q) {
      if q != r {
        StaysSettled(before, log, q, r);
      }
    }
  }

  lemma RoomOrderOneMore(p: Inputs, order: seq<nat>, i: nat, before: seq<Event>, log: seq<Event>)
    requires p.Valid() && ScarcestFirst(p, order) && i < |order| && Planned(p, order, i, before)
    requires Extends(before, log, order[i])
    ensures InRoomOrder(p, log)
  {
    var added := log[|before|..];
    forall a, b | 0 <= a < b < |log| ensures log[a].r == log[b].r || Scarcer(p, log[a].r, log[b].r) {
      if |before| <= b {
        assert log[b] == added[b - |before|] && added[b - |before|] in added;
        if |before| <= a {
          assert log[a] == added[a - |before|] && added[a - |before|] in added;
        } else {
          assert before[a] in before;
          var k :| 0 <= k < i && order[..i][k] == log[a].r;
          assert order[k] == log[a].r;
        }
      }
    }
  }

  lemma EveryRequestPlanned(p: Inputs, order: seq<nat>, log: seq<Event>)
    requires p.Valid() && ScarcestFirst(p, order) && Planned(p, order, |order|, log)
    ensures forall r :: 0 <= r < |p.requests| ==> Settled(p, log, r)
  {
    forall r | 0 <= r < |p.requests| ensures Settled(p, log, r) {
      assert Indices(|p.requests|)[r] in Indices(|p.requests|);
      SameMembers(order, Indices(|p.requests|));
      assert order[..|order|] == order;
    }
  }
}
