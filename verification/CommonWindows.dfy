/** `common_windows` and `unavailable_days` (outlook.py 758-827): every stretch in which a meeting
    fits, with neighbouring starts merged. */
module CommonWindows {
  import opened Common
  import opened FreeBusy
  import opened WorkHours
  import opened CommonSlots

  datatype Run = Run(first: nat, last: nat)

  /** The maximal runs of `true` in flags from k on, as first and last index; `open` is where the
      run that reaches k - 1 began. */
  function Runs(flags: seq<bool>, k: nat, open: Option<nat>): seq<Run>
    requires k <= |flags| && (open.Some? ==> open.value < k)
    decreases |flags| - k
  {
    if k == |flags| then (if open.Some? then [Run(open.value, k - 1)] else [])
    else if flags[k] then Runs(flags, k + 1, if open.Some? then open else Some(k))
    else (if open.Some? then [Run(open.value, k - 1)] else []) + Runs(flags, k + 1, None)
  }

  ghost predicate IsMaximalRun(flags: seq<bool>, run: Run) {
    && run.first <= run.last < |flags|
    && (forall i :: run.first <= i <= run.last ==> flags[i])
    && (run.first == 0 || !flags[run.first - 1])
    && (run.last == |flags| - 1 || !flags[run.last + 1])
  }

  /** The runs are maximal, in order, separated, and together they are all of the `true`s. */
  ghost predicate RunsOf(flags: seq<bool>, from: nat, runs: seq<Run>) {
    && (forall r <- runs :: IsMaximalRun(flags, r) && from <= r.first)
    && (forall a, b :: 0 <= a < b < |runs| ==> runs[a].last + 1 < runs[b].first)
    && (forall i :: from <= i < |flags| && flags[i] ==> Covered(runs, i))
  }

  ghost predicate Covered(runs: seq<Run>, i: int) {
    exists r <- runs :: r.first <= i <= r.last
  }

  lemma {:induction false} RunsAreMaximal(flags: seq<bool>, k: nat, open: Option<nat>)
    requires k <= |flags| && (open.Some? ==> open.value < k)
    requires var from := if open.Some? then open.value else k;
             (from == 0 || !flags[from - 1]) && forall i :: from <= i < k ==> flags[i]
    ensures RunsOf(flags, if open.Some? then open.value else k, Runs(flags, k, open))
  {
    var runs := RunsFound(flags, k, open);
  }

  lemma {:induction false} RunsFound(flags: seq<bool>, k: nat, open: Option<nat>) returns (runs: seq<Run>)
    requires k <= |flags| && (open.Some? ==> open.value < k)
    requires var from := if open.Some? then open.value else k;
             (from == 0 || !flags[from - 1]) && forall i :: from <= i < k ==> flags[i]
    ensures runs == Runs(flags, k, open) && RunsOf(flags, if open.Some? then open.value else k, runs)
    decreases |flags| - k
  {
    if k == |flags| {
      runs := Runs(flags, k, open);
      if open.Some? { LastRun(flags, open.value); }
    } else if flags[k] {
      runs := RunsFound(flags, k + 1, if open.Some? then open else Some(k));
    } else {
      var rest := RunsFound(flags, k + 1, None);
      if open.Some? {
        CloseRun(flags, open.value, k, rest);
        runs := [Run(open.value, k - 1)] + rest;
      } else {
        SkipFalse(flags, k, rest);
        runs := rest;
      }
    }
  }

  lemma LastRun(flags: seq<bool>, first: nat)
    requires first < |flags| && (first == 0 || !flags[first - 1])
    requires forall i :: first <= i < |flags| ==> flags[i]
    ensures RunsOf(flags, first, [Run(first, |flags| - 1)])
  {
    var r := Run(first, |flags| - 1);
    assert r in [r];
  }

  lemma SkipFalse(flags: seq<bool>, k: nat, rest: seq<Run>)
    requires k < |flags| && !flags[k] && RunsOf(flags, k + 1, rest)
    ensures RunsOf(flags, k, rest)
  {
    forall i | k <= i < |flags| && flags[i] ensures Covered(rest, i) {
      assert k + 1 <= i;
    }
  }

  lemma CloseRun(flags: seq<bool>, first: nat, k: nat, rest: seq<Run>)
    requires first < k < |flags| && !flags[k] && (first == 0 || !flags[first - 1])
    requires forall i :: first <= i < k ==> flags[i]
    requires RunsOf(flags, k + 1, rest)
    ensures RunsOf(flags, first, [Run(first, k - 1)] + rest)
  {
    var runs := [Run(first, k - 1)] + rest;
    assert runs[0] in runs;
    forall b | 0 < b < |runs| ensures runs[0].last + 1 < runs[b].first {
      assert runs[b] in rest;
    }
    forall i | first <= i < |flags| && flags[i] ensures Covered(runs, i) {
      if i > k {
        var r :| r in rest && r.first <= i <= r.last;
        assert r in runs;
      }
    }
  }

  /** A stretch of one work window in which a meeting fits everyone. */
  datatype Span = Span(start: int, end: int)

  function Flags(grid: seq<int>, fit: int -> bool): (flags: seq<bool>)
    ensures |flags| == |grid| && forall i :: 0 <= i < |grid| ==> flags[i] == fit(grid[i])
  {
    seq(|grid|, i requires 0 <= i < |grid| => fit(grid[i]))
  }

  predicate Within(runs: seq<Run>, grid: seq<int>) {
    forall r <- runs :: r.first < |grid| && r.last < |grid|
  }

  function SpansOf(grid: seq<int>, runs: seq<Run>, duration: int): (r: seq<Span>)
    requires Within(runs, grid)
    ensures |r| == |runs| && forall k :: 0 <= k < |r| ==> r[k] == Span(grid[runs[k].first], grid[runs[k].last] + duration)
  {
    seq(|runs|, k requires 0 <= k < |runs| => assert runs[k] in runs; Span(grid[runs[k].first], grid[runs[k].last] + duration))
  }

  /** The runs of the starts of a grid that fit. */
  function GridRuns(grid: seq<int>, fit: int -> bool): (runs: seq<Run>)
    ensures Within(runs, grid)
  {
    RunsAreMaximal(Flags(grid, fit), 0, None);
    RunsWithin(Flags(grid, fit), Runs(Flags(grid, fit), 0, None), grid);
    Runs(Flags(grid, fit), 0, None)
  }

  lemma GridRunsAreMaximal(grid: seq<int>, fit: int -> bool)
    ensures RunsOf(Flags(grid, fit), 0, GridRuns(grid, fit))
  {
    RunsAreMaximal(Flags(grid, fit), 0, None);
  }

  lemma RunsWithin(flags: seq<bool>, runs: seq<Run>, grid: seq<int>)
    requires RunsOf(flags, 0, runs) && |flags| == |grid|
    ensures Within(runs, grid)
  {
    forall r | r in runs ensures r.first < |grid| && r.last < |grid| {
      assert IsMaximalRun(flags, r);
    }
  }

  /** The spans of one day's grid. */
  function Merged(grid: seq<int>, fit: int -> bool, duration: int): seq<Span> {
    SpansOf(grid, GridRuns(grid, fit), duration)
  }

  function DaySpans(people: seq<Person>, w: Window, rule: Rule): seq<Span>
    requires rule.Valid()
  {
    Merged(Grid(w, rule.duration, rule.minutes), Fit(people, rule), rule.duration)
  }

  function AllSpans(people: seq<Person>, windows: seq<Window>, rule: Rule): seq<Span>
    requires rule.Valid()
  {
    if windows == [] then [] else DaySpans(people, windows[0], rule) + AllSpans(people, windows[1..], rule)
  }

  // ---- one day ----

  ghost predicate Holds(sp: Span, c: int, duration: int) {
    sp.start <= c && c + duration <= sp.end
  }

  /** The run of grid starts behind a span. */
  lemma RunBehind(grid: seq<int>, fit: int -> bool, duration: int, k: nat) returns (run: Run)
    requires k < |Merged(grid, fit, duration)|
    ensures IsMaximalRun(Flags(grid, fit), run) && run.last < |grid|
    ensures run == GridRuns(grid, fit)[k]
    ensures Merged(grid, fit, duration)[k] == Span(grid[run.first], grid[run.last] + duration)
  {
    GridRunsAreMaximal(grid, fit);
    run := GridRuns(grid, fit)[k];
    assert run in GridRuns(grid, fit);
  }

  lemma RunAround(flags: seq<bool>, runs: seq<Run>, i: nat) returns (k: nat)
    requires RunsOf(flags, 0, runs) && i < |flags| && flags[i]
    ensures k < |runs| && runs[k].first <= i <= runs[k].last
  {
    assert Covered(runs, i);
    var r :| r in runs && r.first <= i <= r.last;
    k :| 0 <= k < |runs| && runs[k] == r;
  }

  lemma SpanAround(grid: seq<int>, fit: int -> bool, duration: int, step: int, w: Window, i: nat) returns (k: nat)
    requires Stepped(grid, w.start, w.end, duration, step) && step > 0
    requires i < |grid| && fit(grid[i])
    ensures k < |Merged(grid, fit, duration)| && Holds(Merged(grid, fit, duration)[k], grid[i], duration)
  {
    GridRunsAreMaximal(grid, fit);
    k := RunAround(Flags(grid, fit), GridRuns(grid, fit), i);
    var run := RunBehind(grid, fit, duration, k);
    StepsAscend(grid, w, duration, step, run.first, i);
    StepsAscend(grid, w, duration, step, i, run.last);
  }

  lemma StepsAscend(grid: seq<int>, w: Window, duration: int, step: int, i: nat, j: nat)
    requires Stepped(grid, w.start, w.end, duration, step) && step > 0 && i <= j < |grid|
    ensures grid[i] <= grid[j]
  {
  }

  lemma StartInSpanFits(grid: seq<int>, fit: int -> bool, duration: int, step: int, w: Window, i: nat, k: nat)
    requires Stepped(grid, w.start, w.end, duration, step) && step > 0
    requires i < |grid| && k < |Merged(grid, fit, duration)| && Holds(Merged(grid, fit, duration)[k], grid[i], duration)
    ensures fit(grid[i])
  {
    var run := RunBehind(grid, fit, duration, k);
    assert run.first <= i <= run.last;
    assert Flags(grid, fit)[i];
  }

  /** A grid start lies in a span, with room for the meeting, if and only if it fits everyone. */
  lemma DayExact(people: seq<Person>, w: Window, rule: Rule, c: int)
    requires rule.Valid() && c in Grid(w, rule.duration, rule.minutes)
    ensures (exists sp <- DaySpans(people, w, rule) :: Holds(sp, c, rule.duration)) <==> Fit(people, rule)(c)
  {
    var grid, fit := Grid(w, rule.duration, rule.minutes), Fit(people, rule);
    GridInside(w, rule.duration, rule.minutes);
    var i :| 0 <= i < |grid| && grid[i] == c;
    if fit(c) {
      var k := SpanAround(grid, fit, rule.duration, rule.minutes * MINUTE, w, i);
      assert Merged(grid, fit, rule.duration)[k] in DaySpans(people, w, rule);
    }
    if sp :| sp in Merged(grid, fit, rule.duration) && Holds(sp, c, rule.duration) {
      var k :| 0 <= k < |Merged(grid, fit, rule.duration)| && Merged(grid, fit, rule.duration)[k] == sp;
      StartInSpanFits(grid, fit, rule.duration, rule.minutes * MINUTE, w, i, k);
    }
  }

  lemma DayInside(people: seq<Person>, w: Window, rule: Rule, sp: Span)
    requires rule.Valid() && sp in DaySpans(people, w, rule)
    ensures w.start <= sp.start && sp.start + rule.duration <= sp.end <= w.end
  {
    var grid, fit := Grid(w, rule.duration, rule.minutes), Fit(people, rule);
    GridInside(w, rule.duration, rule.minutes);
    var k :| 0 <= k < |Merged(grid, fit, rule.duration)| && Merged(grid, fit, rule.duration)[k] == sp;
    var run := RunBehind(grid, fit, rule.duration, k);
  }

  /** A start that fails lies between any two spans of a day. */
  lemma FailBetween(grid: seq<int>, fit: int -> bool, duration: int, step: int, w: Window, a: nat, b: nat)
    returns (c1: int, c2: int, c3: int)
    requires Stepped(grid, w.start, w.end, duration, step) && step > 0
    requires a < b < |Merged(grid, fit, duration)|
    ensures c1 < c2 < c3 && fit(c1) && !fit(c2) && fit(c3)
    ensures Merged(grid, fit, duration)[a].end == c1 + duration && Merged(grid, fit, duration)[b].start == c3
  {
    GridRunsAreMaximal(grid, fit);
    var flags := Flags(grid, fit);
    var before := RunBehind(grid, fit, duration, a);
    var after := RunBehind(grid, fit, duration, b);
    var gap := before.last + 1;
    assert flags[before.last] && !flags[gap] && flags[after.first];
    c1, c2, c3 := grid[before.last], grid[gap], grid[after.first];
  }

  ghost predicate Disjoint(spans: seq<Span>) {
    forall a, b :: 0 <= a < b < |spans| ==> spans[a].end <= spans[b].start
  }

  /** Two spans of one day never touch each other's time: what separates their starts is an
      obstacle, and it separates the slots too. */
  lemma DayDisjoint(people: seq<Person>, w: Window, rule: Rule)
    requires rule.Valid()
    requires forall p <- people :: forall bl <- p.blocks :: bl.start < bl.end
    ensures Disjoint(DaySpans(people, w, rule))
  {
    forall a, b | 0 <= a < b < |DaySpans(people, w, rule)|
      ensures DaySpans(people, w, rule)[a].end <= DaySpans(people, w, rule)[b].start
    {
      SpansApart(people, Grid(w, rule.duration, rule.minutes), w, rule, a, b);
    }
  }

  lemma SpansApart(people: seq<Person>, grid: seq<int>, w: Window, rule: Rule, a: nat, b: nat)
    requires rule.Valid() && grid == Grid(w, rule.duration, rule.minutes)
    requires forall p <- people :: forall bl <- p.blocks :: bl.start < bl.end
    requires a < b < |Merged(grid, Fit(people, rule), rule.duration)|
    ensures var spans := Merged(grid, Fit(people, rule), rule.duration); spans[a].end <= spans[b].start
  {
    GridInside(w, rule.duration, rule.minutes);
    var c1, c2, c3 := FailBetween(grid, Fit(people, rule), rule.duration, rule.minutes * MINUTE, w, a, b);
    ObstacleSeparates(people, c1, c2, c3, rule.duration, rule.blocking);
  }

  /** Nobody has anything that counts at instant t. */
  ghost predicate FreeAt(people: seq<Person>, t: int, blocking: set<Status>) {
    forall p <- people :: t < p.dataUntil && forall b <- p.blocks :: b.start <= t < b.end ==> b.status !in blocking
  }

  /** The grid slots of a run leave no instant between them uncovered if the step is no longer
      than the meeting. */
  lemma {:induction false} SlotCovers(grid: seq<int>, first: nat, last: nat, duration: int, step: int, t: int) returns (i: nat)
    requires first <= last < |grid| && step <= duration
    requires forall i, j :: 0 <= i < |grid| && j == i + 1 < |grid| ==> grid[j] == grid[i] + step
    requires grid[first] <= t < grid[last] + duration
    ensures first <= i <= last && grid[i] <= t < grid[i] + duration
    decreases last - first
  {
    if t < grid[first] + duration || first == last {
      i := first;
    } else {
      assert grid[first + 1] == grid[first] + step;
      i := SlotCovers(grid, first + 1, last, duration, step, t);
    }
  }

  lemma SlotIsFree(people: seq<Person>, c: int, rule: Rule, t: int)
    requires Fit(people, rule)(c) && c <= t < c + rule.duration
    ensures FreeAt(people, t, rule.blocking)
  {
    forall p | p in people
      ensures t < p.dataUntil && forall b <- p.blocks :: b.start <= t < b.end ==> b.status !in rule.blocking
    {
      assert PersonFits(p, c, c + rule.duration, rule.blocking);
    }
  }

  lemma SlotAtInstant(grid: seq<int>, fit: int -> bool, duration: int, step: int, w: Window, k: nat, t: int) returns (c: int)
    requires Stepped(grid, w.start, w.end, duration, step) && 0 < step <= duration
    requires k < |Merged(grid, fit, duration)| && Merged(grid, fit, duration)[k].start <= t < Merged(grid, fit, duration)[k].end
    ensures fit(c) && c <= t < c + duration
  {
    var run := RunBehind(grid, fit, duration, k);
    var i := SlotCovers(grid, run.first, run.last, duration, step, t);
    assert Flags(grid, fit)[i];
    c := grid[i];
  }

  lemma DayInstantsFree(people: seq<Person>, w: Window, rule: Rule, sp: Span, t: int)
    requires rule.Valid() && rule.minutes * MINUTE <= rule.duration
    requires sp in DaySpans(people, w, rule) && sp.start <= t < sp.end
    ensures FreeAt(people, t, rule.blocking)
  {
    var grid, fit := Grid(w, rule.duration, rule.minutes), Fit(people, rule);
    GridInside(w, rule.duration, rule.minutes);
    var k :| 0 <= k < |Merged(grid, fit, rule.duration)| && Merged(grid, fit, rule.duration)[k] == sp;
    var c := SlotAtInstant(grid, fit, rule.duration, rule.minutes * MINUTE, w, k, t);
    SlotIsFree(people, c, rule, t);
  }

  // ---- all windows ----

  lemma AllSpansMembers(people: seq<Person>, windows: seq<Window>, rule: Rule)
    requires rule.Valid()
    ensures forall sp :: sp in AllSpans(people, windows, rule) <==>
              exists j :: 0 <= j < |windows| && sp in DaySpans(people, windows[j], rule)
  {
    forall sp
      ensures sp in AllSpans(people, windows, rule) <==>
              exists j :: 0 <= j < |windows| && sp in DaySpans(people, windows[j], rule)
    {
      SpanOfSomeDay(people, windows, rule, sp);
    }
  }

  lemma {:induction false} SpanOfSomeDay(people: seq<Person>, windows: seq<Window>, rule: Rule, sp: Span)
    requires rule.Valid()
    ensures sp in AllSpans(people, windows, rule) <==> exists j :: 0 <= j < |windows| && sp in DaySpans(people, windows[j], rule)
  {
    if windows == [] {
    } else {
      SpanOfSomeDay(people, windows[1..], rule, sp);
      assert forall j :: 0 < j < |windows| ==> windows[1..][j - 1] == windows[j];
      assert forall j :: 0 <= j < |windows| - 1 ==> windows[1..][j] == windows[j + 1];
    }
  }

  /** Exactness: a grid start lies in some span with room for the meeting if and only if the slot
      there fits everyone. */
  lemma SpansAreExact(people: seq<Person>, windows: seq<Window>, rule: Rule, c: int)
    requires rule.Valid() && WorkHours.InOrder(windows)
    requires c in Starts(windows, rule.duration, rule.minutes)
    ensures (exists sp <- AllSpans(people, windows, rule) :: Holds(sp, c, rule.duration)) <==> Fit(people, rule)(c)
  {
    StartsInGrid(windows, rule.duration, rule.minutes);
    AllSpansMembers(people, windows, rule);
    var j :| 0 <= j < |windows| && c in Grid(windows[j], rule.duration, rule.minutes);
    DayExact(people, windows[j], rule, c);
    if sp :| sp in AllSpans(people, windows, rule) && Holds(sp, c, rule.duration) {
      var i :| 0 <= i < |windows| && sp in DaySpans(people, windows[i], rule);
      DayInside(people, windows[i], rule, sp);
      GridInside(windows[j], rule.duration, rule.minutes);
      assert i == j;
    }
  }

  /** Every instant of every span is free for everyone, for any step no longer than the meeting. */
  lemma InstantsAreFree(people: seq<Person>, windows: seq<Window>, rule: Rule, sp: Span, t: int)
    requires rule.Valid() && rule.minutes * MINUTE <= rule.duration
    requires sp in AllSpans(people, windows, rule) && sp.start <= t < sp.end
    ensures FreeAt(people, t, rule.blocking)
  {
    AllSpansMembers(people, windows, rule);
    var j :| 0 <= j < |windows| && sp in DaySpans(people, windows[j], rule);
    DayInstantsFree(people, windows[j], rule, sp, t);
  }

  /** With a longer step it can fail, whatever the rule, if any status blocks: two slots a step apart
      are merged across a busy stretch that neither of them touches. */
  lemma LongStepMergesBusyTime(rule: Rule) returns (people: seq<Person>, windows: seq<Window>, sp: Span, t: int)
    requires rule.Valid() && rule.minutes * MINUTE > rule.duration && rule.blocking != {}
    ensures WorkHours.InOrder(windows)
    ensures sp in AllSpans(people, windows, rule) && sp.start <= t < sp.end
    ensures !FreeAt(people, t, rule.blocking)
  {
    var step := rule.minutes * MINUTE;
    var d := rule.duration;
    var status :| status in rule.blocking;
    var p := Person("", "", [Block(d, step, status)], step + d);
    people, windows, t := [p], [Window(0, 0, step + d)], d;
    var w := windows[0];
    assert CeilToGrid(0, rule.minutes) == 0;
    assert GridFrom(step + step, step + d, d, step) == [];
    assert GridFrom(step, step + d, d, step) == [step] + GridFrom(step + step, step + d, d, step);
    assert Grid(w, d, rule.minutes) == [0, step];
    assert PersonFits(p, 0, d, rule.blocking) && PersonFits(p, step, step + d, rule.blocking);
    var flags := Flags([0, step], Fit(people, rule));
    assert flags == [true, true];
    assert Runs(flags, 2, Some(0)) == [Run(0, 1)];
    assert Runs(flags, 1, Some(0)) == Runs(flags, 2, Some(0));
    assert Runs(flags, 0, None) == Runs(flags, 1, Some(0));
    sp := Span(0, step + d);
    assert DaySpans(people, w, rule) == [sp];
    assert AllSpans(people, windows, rule) == [sp] + AllSpans(people, [], rule);
    assert sp in AllSpans(people, windows, rule);
    assert !FreeAt(people, t, rule.blocking) by {
      assert p in people && p.blocks[0] in p.blocks;
    }
  }

  /** Spans come in order of time and do not overlap, within a day or across days. */
  lemma {:induction false} SpansAreDisjoint(people: seq<Person>, windows: seq<Window>, rule: Rule)
    requires rule.Valid() && WorkHours.InOrder(windows)
    requires forall p <- people :: forall bl <- p.blocks :: bl.start < bl.end
    ensures Disjoint(AllSpans(people, windows, rule))
  {
    if windows == [] {
    } else {
      DayDisjoint(people, windows[0], rule);
      SpansAreDisjoint(people, windows[1..], rule);
      var today, later := DaySpans(people, windows[0], rule), AllSpans(people, windows[1..], rule);
      forall x, y | x in today && y in later ensures x.end <= y.start {
        AcrossDays(people, windows, rule, x, y);
      }
      JoinDisjoint(today, later);
    }
  }

  lemma JoinDisjoint(today: seq<Span>, later: seq<Span>)
    requires Disjoint(today) && Disjoint(later)
    requires forall x, y :: x in today && y in later ==> x.end <= y.start
    ensures Disjoint(today + later)
  {
  }

  lemma AcrossDays(people: seq<Person>, windows: seq<Window>, rule: Rule, x: Span, sp: Span)
    requires rule.Valid() && WorkHours.InOrder(windows) && windows != []
    requires x in DaySpans(people, windows[0], rule) && sp in AllSpans(people, windows[1..], rule)
    ensures x.end <= sp.start
  {
    var later := windows[1..];
    SpanOfSomeDay(people, later, rule, sp);
    var j :| 0 <= j < |later| && sp in DaySpans(people, later[j], rule);
    DayInside(people, windows[0], rule, x);
    DayInside(people, later[j], rule, sp);
    assert later[j] == windows[j + 1];
  }

  // ---- the methods ----

  /** A span as reported, with the optional people who can come to some meeting inside it. */
  datatype Reported = Reported(span: Span, optionalFree: Option<seq<string>>)

  predicate HasRoom(p: Person, start: int, end: int, rule: Rule)
    requires rule.Valid()
  {
    exists c <- GridFrom(start, end, rule.duration, rule.minutes * MINUTE) :: FitsAt([p], c, rule)
  }

  /** Some meeting that begins at `start`, or a whole number of steps later, and is over by `end` suits p. */
  ghost predicate SomeMeetingSuits(p: Person, start: int, end: int, rule: Rule) {
    exists n: nat ::
      var c := At(start, rule.minutes * MINUTE, n);
      c + rule.duration <= end && PersonFits(p, c, c + rule.duration, rule.blocking)
  }

  lemma HasRoomMeans(p: Person, start: int, end: int, rule: Rule)
    requires rule.Valid()
    ensures HasRoom(p, start, end, rule) <==> SomeMeetingSuits(p, start, end, rule)
  {
    var step := rule.minutes * MINUTE;
    if c :| c in GridFrom(start, end, rule.duration, step) && FitsAt([p], c, rule) {
      GridMembers(start, end, rule.duration, step, c);
      assert p in [p];
    }
    if n: nat :| At(start, step, n) + rule.duration <= end
                 && PersonFits(p, At(start, step, n), At(start, step, n) + rule.duration, rule.blocking) {
      GridMembers(start, end, rule.duration, step, At(start, step, n));
      assert FitsAt([p], At(start, step, n), rule);
    }
  }

  /** Walk the cursor until p fits. */
  method FindRoom(p: Person, start: int, end: int, rule: Rule) returns (room: bool)
    requires rule.Valid()
    ensures room == HasRoom(p, start, end, rule)
  {
    var step := rule.minutes * MINUTE;
    assert step > 0;
    var cursor := start;
    ghost var seen: seq<int> := [];
    room := false;
    while cursor + rule.duration <= end && !room
      invariant seen + GridFrom(cursor, end, rule.duration, step) == GridFrom(start, end, rule.duration, step)
      invariant room <==> exists c <- seen :: FitsAt([p], c, rule)
      decreases end - rule.duration - cursor
    {
      CursorStep(seen, cursor, end, rule.duration, step);
      room := Fits([p], cursor, cursor + rule.duration, rule.blocking);
      ghost var seen' := seen + [cursor];
      assert cursor in seen';
      seen := seen';
      cursor := cursor + step;
    }
    ghost var all := GridFrom(start, end, rule.duration, step);
    if room {
      ghost var c :| c in seen && FitsAt([p], c, rule);
      assert c in all;
    } else {
      assert seen + [] == seen;
    }
  }

  /** The people whom some meeting inside the span suits. */
  ghost function Suited(sp: Span, rule: Rule): Person -> bool {
    p => SomeMeetingSuits(p, sp.start, sp.end, rule)
  }

  /** `optional_free` is left out if nobody is optional; otherwise it holds the names of exactly the
      optional people, in order, whom some meeting inside the span suits. */
  ghost predicate NamesTheFree(r: Reported, optional: seq<Person>, rule: Rule) {
    match r.optionalFree
    case None => optional == []
    case Some(names) => optional != [] && Selected(names, optional, Suited(r.span, rule), HasName())
  }

  function Free(optional: seq<Person>, sp: Span, rule: Rule): seq<string>
    requires rule.Valid()
  {
    if optional == [] then []
    else
      var p := optional[|optional| - 1];
      Free(optional[..|optional| - 1], sp, rule) + if HasRoom(p, sp.start, sp.end, rule) then [p.who] else []
  }

  lemma {:induction false} FreeAreSuited(optional: seq<Person>, sp: Span, rule: Rule)
    requires rule.Valid()
    ensures Selected(Free(optional, sp, rule), optional, Suited(sp, rule), HasName())
  {
    if optional == [] {
      SelectedNone(Suited(sp, rule), HasName());
    } else {
      var before, p := optional[..|optional| - 1], optional[|optional| - 1];
      assert optional == before + [p];
      FreeAreSuited(before, sp, rule);
      HasRoomMeans(p, sp.start, sp.end, rule);
      SelectedOneMore(Free(before, sp, rule), before, p, if HasRoom(p, sp.start, sp.end, rule) then [p.who] else [],
                      Suited(sp, rule), HasName());
    }
  }

  /** `_window` */
  method Report(sp: Span, optional: seq<Person>, rule: Rule) returns (r: Reported)
    requires rule.Valid()
    ensures r.span == sp && NamesTheFree(r, optional, rule)
  {
    FreeAreSuited(optional, sp, rule);
    r := CollectFree(sp, optional, rule);
  }

  /** Its loop. */
  method CollectFree(sp: Span, optional: seq<Person>, rule: Rule) returns (r: Reported)
    requires rule.Valid()
    ensures r == ReportOf(sp, optional, rule)
  {
    if optional == [] {
      r := Reported(sp, None);
      return;
    }
    var free: seq<string> := [];
    var i := 0;
    while i < |optional|
      invariant 0 <= i <= |optional|
      invariant free == Free(optional[..i], sp, rule)
    {
      var room := FindRoom(optional[i], sp.start, sp.end, rule);
      TakeOne(optional, i);
      if room {
        free := free + [optional[i].who];
      }
      i := i + 1;
    }
    assert optional[..i] == optional;
    r := Reported(sp, Some(free));
  }

  function ReportOf(sp: Span, optional: seq<Person>, rule: Rule): Reported
    requires rule.Valid()
  {
    Reported(sp, if optional == [] then None else Some(Free(optional, sp, rule)))
  }

  function ReportAll(spans: seq<Span>, optional: seq<Person>, rule: Rule): seq<Reported>
    requires rule.Valid()
  {
    if spans == [] then []
    else ReportAll(spans[..|spans| - 1], optional, rule)
         + [ReportOf(spans[|spans| - 1], optional, rule)]
  }

  lemma ReportOneMore(spans: seq<Span>, sp: Span, optional: seq<Person>, rule: Rule)
    requires rule.Valid()
    ensures ReportAll(spans + [sp], optional, rule) ==
            ReportAll(spans, optional, rule) + [ReportOf(sp, optional, rule)]
  {
    assert (spans + [sp])[..|spans|] == spans;
  }

  /** One report for each span, in order, each with the optional people who are free in it. */
  ghost predicate ReportsOf(out: seq<Reported>, spans: seq<Span>, optional: seq<Person>, rule: Rule) {
    |out| == |spans| && forall k :: 0 <= k < |out| ==> out[k].span == spans[k] && NamesTheFree(out[k], optional, rule)
  }

  lemma {:induction false} ReportAllReports(spans: seq<Span>, optional: seq<Person>, rule: Rule)
    requires rule.Valid()
    ensures ReportsOf(ReportAll(spans, optional, rule), spans, optional, rule)
  {
    if spans == [] {
    } else {
      ReportAllReports(spans[..|spans| - 1], optional, rule);
      FreeAreSuited(optional, spans[|spans| - 1], rule);
    }
  }

  method FindCommonWindows(people: seq<Person>, windows: seq<Window>, rule: Rule, optional: seq<Person>)
    returns (out: seq<Reported>)
    requires rule.Valid()
    ensures ReportsOf(out, AllSpans(people, windows, rule), optional, rule)
  {
    out := ScanDays(people, windows, rule, optional);
    ReportAllReports(AllSpans(people, windows, rule), optional, rule);
  }

  /** Its loop. */
  method ScanDays(people: seq<Person>, windows: seq<Window>, rule: Rule, optional: seq<Person>) returns (out: seq<Reported>)
    requires rule.Valid()
    ensures out == ReportAll(AllSpans(people, windows, rule), optional, rule)
  {
    out := [];
    ghost var found: seq<Span> := [];
    var i := 0;
    assert windows[0..] == windows;
    assert [] + AllSpans(people, windows, rule) == AllSpans(people, windows, rule);
    while i < |windows|
      invariant 0 <= i <= |windows|
      invariant out == ReportAll(found, optional, rule)
      invariant FoundAndToCome(found, people, windows, i, rule) == AllSpans(people, windows, rule)
    {
      NextDay(people, windows, i, rule, found);
      out := ScanDay(people, windows[i], rule, optional, out, found);
      found := found + DaySpans(people, windows[i], rule);
      i := i + 1;
    }
    assert found + [] == found;
  }

  ghost function FoundAndToCome(found: seq<Span>, people: seq<Person>, windows: seq<Window>, i: nat, rule: Rule): seq<Span>
    requires rule.Valid() && i <= |windows|
  {
    found + AllSpans(people, windows[i..], rule)
  }

  lemma NextDay(people: seq<Person>, windows: seq<Window>, i: nat, rule: Rule, found: seq<Span>)
    requires rule.Valid() && i < |windows|
    ensures FoundAndToCome(found + DaySpans(people, windows[i], rule), people, windows, i + 1, rule) ==
            FoundAndToCome(found, people, windows, i, rule)
  {
    assert windows[i..][1..] == windows[i + 1..];
  }

  /** The cursor's walk over one window, closing a run at the first start that does not fit. */
  method ScanDay(people: seq<Person>, w: Window, rule: Rule, optional: seq<Person>, before: seq<Reported>, ghost found: seq<Span>)
    returns (out: seq<Reported>)
    requires rule.Valid() && before == ReportAll(found, optional, rule)
    ensures out == ReportAll(found + DaySpans(people, w, rule), optional, rule)
  {
    ghost var grid, fit := Grid(w, rule.duration, rule.minutes), Fit(people, rule);
    FirstRun(grid, fit, rule.duration, found);
    var step := rule.minutes * MINUTE;
    assert step > 0;
    out := WalkGrid(people, CeilToGrid(w.start, rule.minutes), w.end, step, rule, optional, before, grid, fit, found,
                    found + DaySpans(people, w, rule));
  }

  method WalkGrid(people: seq<Person>, first: int, end: int, step: int, rule: Rule, optional: seq<Person>,
                  before: seq<Reported>, ghost grid: seq<int>, ghost fit: int -> bool, ghost found: seq<Span>, ghost whole: seq<Span>)
    returns (out: seq<Reported>)
    requires rule.Valid() && step > 0 && grid == GridFrom(first, end, rule.duration, step) && fit == Fit(people, rule)
    requires before == ReportAll(found, optional, rule)
    requires Remaining(grid, fit, 0, None, rule.duration, found, whole)
    ensures out == ReportAll(whole, optional, rule)
  {
    out := before;
    ghost var open: Option<nat> := None;
    ghost var k, now := 0, found;
    var cursor := first;
    var runStart, last := None, None;
    assert grid[0..] == grid;
    while cursor + rule.duration <= end
      invariant 0 <= k <= |grid| && grid[k..] == GridFrom(cursor, end, rule.duration, step)
      invariant Walking(grid, fit, k, open, runStart, last, rule.duration, now, whole)
      invariant out == ReportAll(now, optional, rule)
      decreases end - rule.duration - cursor
    {
      GridHead(grid, k, cursor, end, rule.duration, step);
      runStart, last, out, open, now := Visit(people, cursor, rule, optional, runStart, last, out, grid, fit, k, open, now, whole);
      k := k + 1;
      cursor := cursor + step;
    }
    assert k == |grid|;
    LastSpan(grid, fit, k, open, runStart, last, rule.duration, now, whole);
    out := ReportRun(runStart, last, optional, rule, out, now);
  }

  ghost predicate Walking(grid: seq<int>, fit: int -> bool, k: nat, open: Option<nat>, runStart: Option<int>,
                          last: Option<int>, duration: int, now: seq<Span>, whole: seq<Span>) {
    k <= |grid| && OpenRun(grid, k, open, runStart, last) && Remaining(grid, fit, k, open, duration, now, whole)
  }

  /** One start of the grid: the open run goes on or is closed and reported. */
  method Visit(people: seq<Person>, cursor: int, rule: Rule, optional: seq<Person>, runStart0: Option<int>,
               last0: Option<int>, before: seq<Reported>, ghost grid: seq<int>, ghost fit: int -> bool, ghost k: nat,
               ghost open0: Option<nat>, ghost now0: seq<Span>, ghost whole: seq<Span>)
    returns (runStart: Option<int>, last: Option<int>, out: seq<Reported>, ghost open: Option<nat>, ghost now: seq<Span>)
    requires rule.Valid() && fit == Fit(people, rule) && k < |grid| && grid[k] == cursor
    requires Walking(grid, fit, k, open0, runStart0, last0, rule.duration, now0, whole)
    requires before == ReportAll(now0, optional, rule)
    ensures Walking(grid, fit, k + 1, open, runStart, last, rule.duration, now, whole)
    ensures out == ReportAll(now, optional, rule)
  {
    runStart, last, out, open, now := runStart0, last0, before, open0, now0;
    StartReported(people, cursor, rule);
    NextRun(grid, fit, k, open, runStart, last, rule.duration, now, whole);
    if Fits(people, cursor, cursor + rule.duration, rule.blocking) {
      open := if open.Some? then open else Some(k);
      runStart := if runStart.Some? then runStart else Some(cursor);
      last := Some(cursor);
    } else {
      out := ReportRun(runStart, last, optional, rule, out, now);
      now := Closed(now, runStart, last, rule.duration);
      runStart, last, open := None, None, None;
    }
  }

  function Closed(now: seq<Span>, runStart: Option<int>, last: Option<int>, duration: int): seq<Span> {
    if runStart.Some? && last.Some? then now + [Span(runStart.value, last.value + duration)] else now
  }

  /** Report the run that is open, if there is one. */
  method ReportRun(runStart: Option<int>, last: Option<int>, optional: seq<Person>, rule: Rule,
                   before: seq<Reported>, ghost now: seq<Span>) returns (out: seq<Reported>)
    requires rule.Valid() && before == ReportAll(now, optional, rule)
    ensures out == ReportAll(Closed(now, runStart, last, rule.duration), optional, rule)
  {
    out := before;
    if runStart.Some? && last.Some? {
      var sp := Span(runStart.value, last.value + rule.duration);
      var r := CollectFree(sp, optional, rule);
      ReportOneMore(now, sp, optional, rule);
      out := out + [r];
    }
  }

  lemma GridHead(grid: seq<int>, k: nat, cursor: int, end: int, duration: int, step: int)
    requires step > 0 && k <= |grid| && grid[k..] == GridFrom(cursor, end, duration, step) && cursor + duration <= end
    ensures k < |grid| && grid[k] == cursor && grid[k + 1..] == GridFrom(cursor + step, end, duration, step)
  {
    assert grid[k] == grid[k..][0];
    assert grid[k + 1..] == grid[k..][1..];
  }

  /** `run_start` and `last` are the grid starts of the open run. */
  ghost predicate OpenRun(grid: seq<int>, k: nat, open: Option<nat>, runStart: Option<int>, last: Option<int>)
    requires k <= |grid|
  {
    match open
    case None => runStart == None && last == None
    case Some(o) => o < k && runStart == Some(grid[o]) && last == Some(grid[k - 1])
  }

  /** What is reported plus what the starts from k on will add is the whole. */
  ghost predicate Remaining(grid: seq<int>, fit: int -> bool, k: nat, open: Option<nat>, duration: int,
                            now: seq<Span>, whole: seq<Span>)
  {
    && k <= |grid| && (open.Some? ==> open.value < k)
    && Within(Runs(Flags(grid, fit), k, open), grid)
    && now + SpansOf(grid, Runs(Flags(grid, fit), k, open), duration) == whole
  }

  lemma FirstRun(grid: seq<int>, fit: int -> bool, duration: int, now: seq<Span>)
    ensures Remaining(grid, fit, 0, None, duration, now, now + Merged(grid, fit, duration))
  {
  }

  lemma NextRun(grid: seq<int>, fit: int -> bool, k: nat, open: Option<nat>, runStart: Option<int>, last: Option<int>,
                duration: int, now: seq<Span>, whole: seq<Span>)
    requires Remaining(grid, fit, k, open, duration, now, whole) && k < |grid|
    requires OpenRun(grid, k, open, runStart, last)
    ensures fit(grid[k]) ==> Remaining(grid, fit, k + 1, if open.Some? then open else Some(k), duration, now, whole)
    ensures !fit(grid[k]) ==> Remaining(grid, fit, k + 1, None, duration, Closed(now, runStart, last, duration), whole)
  {
    if !fit(grid[k]) {
      RunEnds(grid, fit, k, open, runStart, last, duration, now, whole);
    }
  }

  lemma RunEnds(grid: seq<int>, fit: int -> bool, k: nat, open: Option<nat>, runStart: Option<int>, last: Option<int>,
                duration: int, now: seq<Span>, whole: seq<Span>)
    requires Remaining(grid, fit, k, open, duration, now, whole) && k < |grid| && !fit(grid[k])
    requires OpenRun(grid, k, open, runStart, last)
    ensures Remaining(grid, fit, k + 1, None, duration, Closed(now, runStart, last, duration), whole)
  {
    var rest := Runs(Flags(grid, fit), k + 1, None);
    if open.Some? {
      var head := [Run(open.value, k - 1)];
      SplitSpans(grid, head, rest, duration);
      var sp := Span(grid[open.value], grid[k - 1] + duration);
      assert SpansOf(grid, head, duration) == [sp];
      Regroup(now, [sp], SpansOf(grid, rest, duration));
    } else {
      assert [] + rest == rest;
    }
  }

  lemma SplitSpans(grid: seq<int>, head: seq<Run>, rest: seq<Run>, duration: int)
    requires Within(head + rest, grid)
    ensures Within(head, grid) && Within(rest, grid)
    ensures SpansOf(grid, head + rest, duration) == SpansOf(grid, head, duration) + SpansOf(grid, rest, duration)
  {
    assert forall r <- head :: r in head + rest;
    assert forall r <- rest :: r in head + rest;
  }

  lemma LastSpan(grid: seq<int>, fit: int -> bool, k: nat, open: Option<nat>, runStart: Option<int>, last: Option<int>,
                 duration: int, now: seq<Span>, whole: seq<Span>)
    requires k == |grid| && Remaining(grid, fit, k, open, duration, now, whole)
    requires OpenRun(grid, k, open, runStart, last)
    ensures Closed(now, runStart, last, duration) == whole
  {
    assert now + [] == now;
  }

  /** No meeting on the grid of the window suits p. */
  ghost predicate Full(p: Person, w: Window, rule: Rule)
    requires rule.Valid()
  {
    !SomeMeetingSuits(p, CeilToGrid(w.start, rule.minutes), w.end, rule)
  }

  /** The days of the windows without a slot that fits p, in order. */
  ghost function FullDays(p: Person, windows: seq<Window>, rule: Rule): seq<int>
    requires rule.Valid()
  {
    if windows == [] then []
    else
      var w := windows[|windows| - 1];
      FullDays(p, windows[..|windows| - 1], rule)
      + if Full(p, w, rule) then [w.day] else []
  }

  /** The work days on which p has no room for a meeting. */
  method UnavailableDays(p: Person, windows: seq<Window>, rule: Rule) returns (days: seq<int>)
    requires rule.Valid()
    ensures days == FullDays(p, windows, rule)
  {
    days := [];
    var i := 0;
    while i < |windows|
      invariant 0 <= i <= |windows| && days == FullDays(p, windows[..i], rule)
    {
      var w := windows[i];
      var room := FindRoom(p, CeilToGrid(w.start, rule.minutes), w.end, rule);
      HasRoomMeans(p, CeilToGrid(w.start, rule.minutes), w.end, rule);
      TakeOne(windows, i);
      if !room {
        days := days + [w.day];
      }
      i := i + 1;
    }
    assert windows[..i] == windows;
  }

  /** For windows in order of their days: the days listed are ascending, and a day is listed exactly
      if its window has no slot that fits p. */
  lemma FullDaysAreThoseWithoutRoom(p: Person, windows: seq<Window>, rule: Rule)
    requires rule.Valid() && WorkHours.InOrder(windows)
    ensures StrictlyIncreasing(FullDays(p, windows, rule))
    ensures forall i :: 0 <= i < |windows| ==> (windows[i].day in FullDays(p, windows, rule) <==> Full(p, windows[i], rule))
  {
    FullDaysAscend(p, windows, rule);
    forall i | 0 <= i < |windows| ensures windows[i].day in FullDays(p, windows, rule) <==> Full(p, windows[i], rule) {
      FullDaysMembers(p, windows, rule, windows[i].day);
    }
  }

  lemma {:induction false} FullDaysMembers(p: Person, windows: seq<Window>, rule: Rule, day: int)
    requires rule.Valid()
    ensures day in FullDays(p, windows, rule) <==>
            exists i :: 0 <= i < |windows| && windows[i].day == day && Full(p, windows[i], rule)
  {
    if windows == [] {
    } else {
      var n := |windows| - 1;
      FullDaysMembers(p, windows[..n], rule, day);
      assert forall i :: 0 <= i < n ==> windows[..n][i] == windows[i];
    }
  }

  lemma {:induction false} FullDaysAscend(p: Person, windows: seq<Window>, rule: Rule)
    requires rule.Valid() && WorkHours.InOrder(windows)
    ensures StrictlyIncreasing(FullDays(p, windows, rule))
  {
    if windows == [] {
    } else {
      var n := |windows| - 1;
      var days := FullDays(p, windows[..n], rule);
      FullDaysAscend(p, windows[..n], rule);
      forall i | 0 <= i < |days| ensures days[i] < windows[n].day {
        FullDaysMembers(p, windows[..n], rule, days[i]);
      }
    }
  }

  /** A day without room for one required person has no span at all. */
  lemma UnavailableDayHasNoSpan(people: seq<Person>, p: Person, w: Window, rule: Rule)
    requires rule.Valid() && p in people && Full(p, w, rule)
    ensures DaySpans(people, w, rule) == []
  {
    var grid, fit := Grid(w, rule.duration, rule.minutes), Fit(people, rule);
    if DaySpans(people, w, rule) != [] {
      var run := RunBehind(grid, fit, rule.duration, 0);
      assert Flags(grid, fit)[run.first];
      GridMembers(CeilToGrid(w.start, rule.minutes), w.end, rule.duration, rule.minutes * MINUTE, grid[run.first]);
    }
  }
}
