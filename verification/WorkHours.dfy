/** Work windows and the slot grid inside them (outlook.py 646-667), and the sort that the
    planner relies on. */
module WorkHours {
  import opened Common

  const MINUTE := 60_000_000

  /** One work day: its number (day 0 is a Monday) and the stretch of it that counts. */
  datatype Window = Window(day: int, start: int, end: int)

  ghost predicate InOrder(windows: seq<Window>) {
    forall i, j :: 0 <= i < j < |windows| ==>
      windows[i].end <= windows[j].start && windows[i].day < windows[j].day
  }

  /** `wall(24 * d + h)` is the instant at which the local clock shows hour h of day d; a change
      of offset may stretch or squeeze hours but never turns the clock back over one of them. */
  ghost predicate LocalClock(wall: int -> int) {
    forall x, y :: (x <= y ==> wall(x) <= wall(y)) && (x + 24 <= y ==> wall(x) < wall(y))
  }

  predicate WorkDay(day: int) { day % 7 < 5 }

  /** The work hours of a day, cut to [start, end). */
  function Hours(start: int, end: int, from: int, to: int, wall: int -> int, day: int): Window {
    Window(day, Max(wall(24 * day + from), start), Min(wall(24 * day + to), end))
  }

  ghost predicate InSome(windows: seq<Window>, t: int) {
    exists w <- windows :: w.start <= t < w.end
  }

  /** t lies in [start, end) and, on one of the first five days of some week, in the work hours. */
  ghost predicate InWorkHours(start: int, end: int, from: int, to: int, wall: int -> int, t: int) {
    start <= t < end && exists week, n :: 0 <= n < 5 && OnDay(from, to, wall, At(n, 7, week), t)
  }

  ghost predicate OnDay(from: int, to: int, wall: int -> int, d: int, t: int) {
    wall(24 * d + from) <= t < wall(24 * d + to)
  }

  /** The work days are the first five of each week. */
  lemma WorkDaysAre(d: int)
    ensures WorkDay(d) <==> exists week, n :: 0 <= n < 5 && d == At(n, 7, week)
  {
    assert d == At(d % 7, 7, d / 7);
  }

  /** The days from firstDay up to `day` have been walked. */
  ghost predicate Walked(out: seq<Window>, start: int, end: int, from: int, to: int, wall: int -> int,
                         firstDay: int, day: int) {
    && (forall w <- out :: w.day < day && IsHours(w, start, end, from, to, wall))
    && (forall w: Window :: firstDay <= w.day < day && IsHours(w, start, end, from, to, wall) ==> w in out)
  }

  ghost predicate IsHours(w: Window, start: int, end: int, from: int, to: int, wall: int -> int) {
    WorkDay(w.day) && w == Hours(start, end, from, to, wall, w.day) && w.start < w.end
  }

  method WorkWindows(start: int, end: int, from: int, to: int, wall: int -> int, firstDay: int)
    returns (out: seq<Window>)
    requires LocalClock(wall) && 0 <= from && to <= 24
    requires wall(24 * firstDay) <= start < wall(24 * (firstDay + 1))
    ensures InOrder(out)
    ensures forall w <- out :: IsHours(w, start, end, from, to, wall)
    ensures forall t :: InSome(out, t) <==> InWorkHours(start, end, from, to, wall, t)
  {
    out := [];
    var day := firstDay;
    while wall(24 * day) < end
      invariant firstDay <= day
      invariant InOrder(out)
      invariant Walked(out, start, end, from, to, wall, firstDay, day)
      decreases end - wall(24 * day)
    {
      assert wall(24 * day) < wall(24 * (day + 1));
      WalkDay(out, start, end, from, to, wall, firstDay, day);
      if WorkDay(day) {
        var w := Hours(start, end, from, to, wall, day);
        if w.start < w.end {
          out := out + [w];
        }
      }
      day := day + 1;
    }
    forall t ensures InSome(out, t) <==> InWorkHours(start, end, from, to, wall, t) {
      WalkedCovers(out, start, end, from, to, wall, firstDay, day, t);
    }
  }

  lemma WalkDay(out: seq<Window>, start: int, end: int, from: int, to: int, wall: int -> int, firstDay: int, day: int)
    requires LocalClock(wall) && 0 <= from && to <= 24 && firstDay <= day
    requires InOrder(out) && Walked(out, start, end, from, to, wall, firstDay, day)
    ensures var w := Hours(start, end, from, to, wall, day);
            var out' := if IsHours(w, start, end, from, to, wall) then out + [w] else out;
            InOrder(out') && Walked(out', start, end, from, to, wall, firstDay, day + 1)
  {
    var w := Hours(start, end, from, to, wall, day);
    forall v | v in out ensures v.day < w.day && v.end <= w.start {
      EarlierDayEndsFirst(start, end, from, to, wall, v.day, day);
    }
    InOrderOneMore(out, w);
    WalkedOneMore(out, start, end, from, to, wall, firstDay, day);
  }

  lemma InOrderOneMore(out: seq<Window>, w: Window)
    requires InOrder(out) && forall v <- out :: v.day < w.day && v.end <= w.start
    ensures InOrder(out + [w])
  {
    forall i | 0 <= i < |out| ensures out[i].end <= w.start && out[i].day < w.day {
      assert out[i] in out;
    }
  }

  lemma WalkedOneMore(out: seq<Window>, start: int, end: int, from: int, to: int, wall: int -> int, firstDay: int, day: int)
    requires Walked(out, start, end, from, to, wall, firstDay, day)
    ensures var w := Hours(start, end, from, to, wall, day);
            var out' := if IsHours(w, start, end, from, to, wall) then out + [w] else out;
            Walked(out', start, end, from, to, wall, firstDay, day + 1)
  {
  }

  lemma EarlierDayEndsFirst(start: int, end: int, from: int, to: int, wall: int -> int, d: int, day: int)
    requires LocalClock(wall) && 0 <= from && to <= 24 && d < day
    ensures Hours(start, end, from, to, wall, d).end <= Hours(start, end, from, to, wall, day).start
  {
    assert wall(24 * d + to) <= wall(24 * day + from);
  }

  lemma WalkedCovers(out: seq<Window>, start: int, end: int, from: int, to: int, wall: int -> int,
                     firstDay: int, day: int, t: int)
    requires LocalClock(wall) && 0 <= from && to <= 24
    requires Walked(out, start, end, from, to, wall, firstDay, day)
    requires wall(24 * firstDay) <= start && wall(24 * day) >= end
    ensures InSome(out, t) <==> InWorkHours(start, end, from, to, wall, t)
  {
    CoveredIsWorkTime(out, start, end, from, to, wall, firstDay, day, t);
    if InWorkHours(start, end, from, to, wall, t) {
      var week, n :| 0 <= n < 5 && OnDay(from, to, wall, At(n, 7, week), t);
      var d := At(n, 7, week);
      WorkDaysAre(d);
      DayWasWalked(start, end, from, to, wall, firstDay, day, d, t);
      WorkTimeIsCovered(out, start, end, from, to, wall, firstDay, day, d, t);
    }
  }

  lemma CoveredIsWorkTime(out: seq<Window>, start: int, end: int, from: int, to: int, wall: int -> int,
                          firstDay: int, day: int, t: int)
    requires Walked(out, start, end, from, to, wall, firstDay, day)
    ensures InSome(out, t) ==> InWorkHours(start, end, from, to, wall, t)
  {
    if InSome(out, t) {
      var w :| w in out && w.start <= t < w.end;
      WorkDaysAre(w.day);
      assert OnDay(from, to, wall, w.day, t);
    }
  }

  lemma DayWasWalked(start: int, end: int, from: int, to: int, wall: int -> int, firstDay: int, day: int, d: int, t: int)
    requires LocalClock(wall) && 0 <= from && to <= 24 && start <= t < end
    requires wall(24 * firstDay) <= start && wall(24 * day) >= end
    requires wall(24 * d + from) <= t < wall(24 * d + to)
    ensures firstDay <= d < day
  {
    assert d < firstDay ==> wall(24 * d + to) <= wall(24 * firstDay);
    assert day <= d ==> wall(24 * day) <= wall(24 * d + from);
  }

  lemma WorkTimeIsCovered(out: seq<Window>, start: int, end: int, from: int, to: int, wall: int -> int,
                          firstDay: int, day: int, d: int, t: int)
    requires Walked(out, start, end, from, to, wall, firstDay, day) && firstDay <= d < day
    requires start <= t < end && WorkDay(d) && wall(24 * d + from) <= t < wall(24 * d + to)
    ensures InSome(out, t)
  {
    assert IsHours(Hours(start, end, from, to, wall, d), start, end, from, to, wall);
  }

  // ---- the grid ----

  function CeilToGrid(t: int, minutes: int): int
    requires minutes > 0
  {
    var whole := if t % MINUTE != 0 then t - t % MINUTE + MINUTE else t;
    var rem := whole / MINUTE % 60 % minutes;
    if rem != 0 then whole + (minutes - rem) * MINUTE else whole
  }

  predicate OnGrid(t: int, minutes: int)
    requires minutes > 0
  {
    t % MINUTE == 0 && t / MINUTE % 60 % minutes == 0
  }

  lemma CeilNotBefore(t: int, minutes: int)
    requires minutes > 0
    ensures t <= CeilToGrid(t, minutes)
  {
    var whole := if t % MINUTE != 0 then t - t % MINUTE + MINUTE else t;
    var rem := whole / MINUTE % 60 % minutes;
    assert minutes - rem > 0;
  }

  /** c is the first grid instant from t on. */
  ghost predicate FirstOnGrid(c: int, t: int, minutes: int)
    requires minutes > 0
  {
    t <= c && OnGrid(c, minutes) && forall u :: t <= u && OnGrid(u, minutes) ==> c <= u
  }

  /** Rounding up leads to the first grid instant, whatever the instant, exactly if the last grid
      instant of an hour is one step before the next hour or a minute before it, that is for steps
      that divide the hour and for 59 minutes. */
  lemma CeilIsNextGridInstant(minutes: int)
    requires minutes > 0
    ensures (forall t :: FirstOnGrid(CeilToGrid(t, minutes), t, minutes)) <==> 60 % minutes <= 1
  {
    if 60 % minutes <= 1 {
      forall t ensures FirstOnGrid(CeilToGrid(t, minutes), t, minutes) {
        CeilIsFirst(t, minutes);
      }
    } else {
      var t := CeilGoesWrong(minutes);
    }
  }

  /** The minute that begins at t, or the next. */
  function MinuteFrom(t: int): int { if t % MINUTE != 0 then t / MINUTE + 1 else t / MINUTE }

  function CeilMinute(m: int, n: int): int
    requires n > 0
  {
    m + CeilInHour(m % 60, n) - m % 60
  }

  function CeilInHour(x: int, n: int): int
    requires n > 0
  {
    if x % n != 0 then x + n - x % n else x
  }

  lemma CeilInMinutes(t: int, n: int)
    requires n > 0
    ensures CeilToGrid(t, n) == CeilMinute(MinuteFrom(t), n) * MINUTE
  {
    var m := MinuteFrom(t);
    var whole := if t % MINUTE != 0 then t - t % MINUTE + MINUTE else t;
    assert whole == m * MINUTE && whole / MINUTE == m;
    var rem := m % 60 % n;
    assert CeilMinute(m, n) == if rem != 0 then m + (n - rem) else m;
  }

  lemma CeilIsFirst(t: int, n: int)
    requires n > 0 && 60 % n <= 1
    ensures FirstOnGrid(CeilToGrid(t, n), t, n)
  {
    var c := CeilMinute(MinuteFrom(t), n);
    CeilInMinutes(t, n);
    CeilNotBefore(t, n);
    GridMinute(MinuteFrom(t), n);
    assert c * MINUTE / MINUTE == c && c * MINUTE % MINUTE == 0;
    forall u | t <= u && OnGrid(u, n) ensures c * MINUTE <= u {
      assert u == u / MINUTE * MINUTE && MinuteFrom(t) <= u / MINUTE;
      NoGridMinuteBefore(MinuteFrom(t), u / MINUTE, n);
    }
  }

  lemma GridMinute(m: int, n: int)
    requires n > 0 && 60 % n <= 1
    ensures CeilMinute(m, n) % 60 % n == 0
  {
    var x := CeilInHour(m % 60, n);
    HourCeil(m % 60, n);
    ZeroMod(n);
    assert CeilMinute(m, n) % 60 == if x == 60 then 0 else x;
  }

  lemma NoGridMinuteBefore(m: int, k: int, n: int)
    requires n > 0 && 60 % n <= 1 && m <= k && k % 60 % n == 0
    ensures CeilMinute(m, n) <= k
  {
    HourCeil(m % 60, n);
    if k / 60 == m / 60 {
      NextInHour(m % 60, k % 60, n);
    }
  }

  lemma ZeroMod(n: int)
    requires n > 0
    ensures 0 % n == 0
  {
  }

  /** Up to the hour, which is on the grid by itself. */
  lemma HourCeil(x: int, n: int)
    requires 0 <= x < 60 && n > 0 && 60 % n <= 1
    ensures x <= CeilInHour(x, n) <= 60 && CeilInHour(x, n) % n == 0
  {
    Parts(x, n);
    Parts(60, n);
    if x % n != 0 {
      RoundUp(x, x / n, x % n, 60 / n, 60 % n, n);
    }
  }

  lemma RoundUp(x: int, q: int, r: int, k: int, e: int, n: int)
    requires x == q * n + r && 0 < r < n && 60 == k * n + e && 0 <= e <= 1 && x < 60
    ensures x + n - r <= 60 && (x + n - r) % n == 0
  {
    Times(k, q, n);
    Times(q, k, n);
    Times(q + 1, k, n);
    Unique(x + n - r, q + 1, 0, n);
  }

  lemma NextInHour(x: int, z: int, n: int)
    requires 0 <= x <= z && n > 0 && z % n == 0
    ensures CeilInHour(x, n) <= z
  {
    var q, p := x / n, z / n;
    Parts(x, n);
    Parts(z, n);
    if x % n != 0 {
      if p <= q { Times(p, q, n); }
      Times(q + 1, p, n);
    }
  }

  lemma Parts(x: int, n: int)
    requires n > 0
    ensures x == x / n * n + x % n
  {
  }

  lemma Times(a: int, b: int, n: int)
    requires n > 0
    ensures a <= b ==> a * n <= b * n && (a + 1) * n == a * n + n
  {
  }

  lemma Unique(x: int, q: int, r: int, n: int)
    requires 0 <= r < n && x == q * n + r
    ensures x / n == q && x % n == r
  {
    Parts(x, n);
    Times(q + 1, x / n, n);
    Times(q, q, n);
    Times(x / n + 1, q, n);
    Times(x / n, q, n);
  }

  /** An instant from which rounding up leads off the grid, or past a grid instant. */
  lemma CeilGoesWrong(n: int) returns (t: int)
    requires n > 0 && 60 % n >= 2
    ensures !FirstOnGrid(CeilToGrid(t, n), t, n)
  {
    if n > 60 {
      t := MINUTE;
      LongStepGoesWrong(n);
    } else {
      var x := 60 - 60 % n + 1;
      t := x * MINUTE;
      assert n != 1;
      Parts(60, n);
      ShortStepGoesWrong(x, 60 / n, 60 % n, n);
    }
  }

  lemma LongStepGoesWrong(n: int)
    requires n > 60
    ensures !FirstOnGrid(CeilToGrid(MINUTE, n), MINUTE, n)
  {
    CeilInMinutes(MINUTE, n);
    Unique(1, 0, 1, n);
    assert CeilToGrid(MINUTE, n) == n * MINUTE && n * MINUTE / MINUTE == n;
    if n % 60 == 0 {
      ZeroMod(n);
      assert OnGrid(60 * MINUTE, n);
    } else {
      Unique(n % 60, 0, n % 60, n);
    }
  }

  lemma ShortStepGoesWrong(x: int, k: int, r: int, n: int)
    requires 2 <= r < n <= 60 && 60 == k * n + r && x == 61 - r
    ensures !FirstOnGrid(CeilToGrid(x * MINUTE, n), x * MINUTE, n)
  {
    CeilInMinutes(x * MINUTE, n);
    assert MinuteFrom(x * MINUTE) == x && x % 60 == x;
    Unique(x, k, 1, n);
    Unique(n - r, 0, n - r, n);
    assert (60 - r + n) % 60 == n - r;
    OffGrid(CeilToGrid(x * MINUTE, n), 60 - r + n, n);
  }

  lemma OffGrid(t: int, c: int, n: int)
    requires n > 0 && t == c * MINUTE && c % 60 % n != 0
    ensures !OnGrid(t, n)
  {
    assert c * MINUTE / MINUTE == c;
  }

  /** The slot starts that the cursor visits from c on: every `step`, while the slot still ends
      inside the window. */
  function GridFrom(c: int, end: int, duration: int, step: int): (g: seq<int>)
    requires step > 0
    ensures g != [] ==> g[0] == c && c + duration <= end
    decreases end - duration - c
  {
    if c + duration > end then [] else [c] + GridFrom(c + step, end, duration, step)
  }

  /** One turn of a cursor loop: what was seen and what is still to come make up the same whole. */
  lemma CursorStep(seen: seq<int>, c: int, end: int, duration: int, step: int)
    requires step > 0 && c + duration <= end
    ensures seen + GridFrom(c, end, duration, step) == (seen + [c]) + GridFrom(c + step, end, duration, step)
  {
  }

  /** Starts that step evenly from `from` and leave room for a slot before `end`. */
  ghost predicate Stepped(g: seq<int>, from: int, end: int, duration: int, step: int) {
    && (forall i :: 0 <= i < |g| ==> from <= g[i] && g[i] + duration <= end)
    && (forall i, j :: 0 <= i < |g| && j == i + 1 < |g| ==> g[j] == g[i] + step)
    && (forall i, j :: 0 <= i < j < |g| ==> g[i] + step <= g[j])
  }

  lemma {:induction false} GridSteps(c: int, end: int, duration: int, step: int)
    requires step > 0
    ensures Stepped(GridFrom(c, end, duration, step), c, end, duration, step)
    decreases end - duration - c
  {
    if c + duration <= end {
      GridSteps(c + step, end, duration, step);
      SteppedCons(c, GridFrom(c + step, end, duration, step), end, duration, step);
    }
  }

  lemma SteppedCons(c: int, rest: seq<int>, end: int, duration: int, step: int)
    requires step > 0 && c + duration <= end && Stepped(rest, c + step, end, duration, step)
    requires rest != [] ==> rest[0] == c + step
    ensures Stepped([c] + rest, c, end, duration, step)
  {
    var g := [c] + rest;
    assert forall i :: 0 < i < |g| ==> g[i] == rest[i - 1];
  }

  /** The starts are exactly those a whole number of steps from the first that leave room for a slot. */
  lemma GridMembers(first: int, end: int, duration: int, step: int, c: int)
    requires step > 0
    ensures c in GridFrom(first, end, duration, step) <==> c + duration <= end && exists n: nat :: c == At(first, step, n)
  {
    if c in GridFrom(first, end, duration, step) {
      var n := StepOf(first, end, duration, step, c);
    }
    if n: nat :| c == At(first, step, n) && c + duration <= end {
      StepInGrid(first, end, duration, step, n);
    }
  }

  lemma {:induction false} StepOf(first: int, end: int, duration: int, step: int, c: int) returns (n: nat)
    requires step > 0 && c in GridFrom(first, end, duration, step)
    ensures c == At(first, step, n) && c + duration <= end
    decreases end - duration - first
  {
    if c == first {
      n := 0;
    } else {
      var m := StepOf(first + step, end, duration, step, c);
      n := m + 1;
    }
  }

  lemma {:induction false} StepInGrid(first: int, end: int, duration: int, step: int, n: nat)
    requires step > 0 && At(first, step, n) + duration <= end
    ensures At(first, step, n) in GridFrom(first, end, duration, step)
    decreases n
  {
    assert step * n >= 0;
    if n > 0 {
      assert At(first + step, step, n - 1) == At(first, step, n);
      StepInGrid(first + step, end, duration, step, n - 1);
    }
  }

  function Grid(w: Window, duration: int, minutes: int): seq<int>
    requires minutes > 0
  {
    GridFrom(CeilToGrid(w.start, minutes), w.end, duration, minutes * MINUTE)
  }

  lemma GridInside(w: Window, duration: int, minutes: int)
    requires minutes > 0
    ensures Stepped(Grid(w, duration, minutes), w.start, w.end, duration, minutes * MINUTE)
  {
    CeilNotBefore(w.start, minutes);
    GridSteps(CeilToGrid(w.start, minutes), w.end, duration, minutes * MINUTE);
  }

  /** All slot starts of a list of windows, in the order in which they are tried. */
  function Starts(windows: seq<Window>, duration: int, minutes: int): seq<int>
    requires minutes > 0
  {
    if windows == [] then [] else Grid(windows[0], duration, minutes) + Starts(windows[1..], duration, minutes)
  }

  lemma {:induction false} StartsInGrid(windows: seq<Window>, duration: int, minutes: int)
    requires minutes > 0
    ensures forall c :: c in Starts(windows, duration, minutes) <==>
              exists j :: 0 <= j < |windows| && c in Grid(windows[j], duration, minutes)
  {
    if windows == [] {
    } else {
      StartsInGrid(windows[1..], duration, minutes);
      forall c
        ensures c in Starts(windows, duration, minutes) <==>
                exists j :: 0 <= j < |windows| && c in Grid(windows[j], duration, minutes)
      {
        if j :| 0 <= j < |windows| && c in Grid(windows[j], duration, minutes) {
          if j > 0 { assert c in Grid(windows[1..][j - 1], duration, minutes); }
        }
        if c in Starts(windows[1..], duration, minutes) {
          var j :| 0 <= j < |windows[1..]| && c in Grid(windows[1..][j], duration, minutes);
          assert c in Grid(windows[j + 1], duration, minutes);
        }
      }
    }
  }

  lemma {:induction false} StartsAscend(windows: seq<Window>, duration: int, minutes: int)
    requires minutes > 0 && duration > 0 && InOrder(windows)
    ensures StrictlyIncreasing(Starts(windows, duration, minutes))
  {
    if windows == [] {
    } else {
      var g := Grid(windows[0], duration, minutes);
      var rest := Starts(windows[1..], duration, minutes);
      GridInside(windows[0], duration, minutes);
      StartsAscend(windows[1..], duration, minutes);
      StartsInGrid(windows[1..], duration, minutes);
      forall i, k | 0 <= i < |g| && 0 <= k < |rest| ensures g[i] < rest[k] {
        assert rest[k] in rest;
        var j :| 0 <= j < |windows[1..]| && rest[k] in Grid(windows[1..][j], duration, minutes);
        GridInside(windows[1..][j], duration, minutes);
        assert windows[1..][j] == windows[j + 1];
      }
    }
  }
}

/** `sorted`, by a total order. */
module Sorting {
  ghost predicate TotalOrder<T(!new)>(le: (T, T) -> bool) {
    && (forall a, b :: le(a, b) || le(b, a))
    && (forall a, b, c :: le(a, b) && le(b, c) ==> le(a, c))
  }

  ghost predicate Sorted<T>(s: seq<T>, le: (T, T) -> bool) {
    forall i, j :: 0 <= i < j < |s| ==> le(s[i], s[j])
  }

  function Insert<T>(x: T, s: seq<T>, le: (T, T) -> bool): (r: seq<T>)
    ensures multiset(r) == multiset(s) + multiset{x}
  {
    if s == [] then [x]
    else
      assert s == [s[0]] + s[1..];
      if le(x, s[0]) then [x] + s else [s[0]] + Insert(x, s[1..], le)
  }

  function Sort<T>(s: seq<T>, le: (T, T) -> bool): (r: seq<T>)
    ensures multiset(r) == multiset(s)
    ensures |r| == |s|
  {
    if s == [] then []
    else
      assert s == [s[0]] + s[1..];
      var r := Insert(s[0], Sort(s[1..], le), le);
      assert |multiset(r)| == |multiset(s)|;
      r
  }

  lemma {:induction false} InsertSorted<T(!new)>(x: T, s: seq<T>, le: (T, T) -> bool)
    requires TotalOrder(le) && Sorted(s, le)
    ensures Sorted(Insert(x, s, le), le)
  {
    if s != [] && !le(x, s[0]) {
      InsertSorted(x, s[1..], le);
      var r := Insert(x, s[1..], le);
      forall y | y in r ensures le(s[0], y) {
        assert y in multiset(r);
        assert y == x || y in s[1..];
      }
    }
  }

  lemma {:induction false} SortSorted<T(!new)>(s: seq<T>, le: (T, T) -> bool)
    requires TotalOrder(le)
    ensures Sorted(Sort(s, le), le)
  {
    if s == [] {
    } else {
      SortSorted(s[1..], le);
      InsertSorted(s[0], Sort(s[1..], le), le);
    }
  }
}
