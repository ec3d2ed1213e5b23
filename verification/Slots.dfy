/** `find_common_slots` (outlook.py 689-729): greedy, spaced proposals, and the near misses that
    are offered when there are too few of them. */
module CommonSlots {
  import opened Common
  import opened FreeBusy
  import opened WorkHours
  import Sorting

  /** How long a meeting is, how far apart the starts tried are, and which statuses block it. */
  datatype Rule = Rule(duration: int, minutes: int, blocking: set<Status>) {
    predicate Valid() { duration > 0 && minutes > 0 }
  }

  datatype Slot = Slot(start: int, end: int, elsewhere: seq<string>)

  datatype Miss = Miss(start: int, end: int, elsewhere: seq<string>, blockedBy: seq<Blocker>)

  predicate FitsAt(people: seq<Person>, c: int, rule: Rule) {
    Fits(people, c, c + rule.duration, rule.blocking)
  }

  /** What is known about a start: whether it fits everyone, and how it would be reported. */
  function Fit(people: seq<Person>, rule: Rule): int -> bool {
    c => FitsAt(people, c, rule)
  }

  function SlotOf(people: seq<Person>, rule: Rule, c: int): Slot {
    Slot(c, c + rule.duration, Elsewhere(people, c, c + rule.duration, rule.blocking))
  }

  function MissOf(people: seq<Person>, rule: Rule, c: int): Miss {
    Miss(c, c + rule.duration, Elsewhere(people, c, c + rule.duration, rule.blocking),
         Blockers(people, c, c + rule.duration, rule.blocking))
  }

  function SlotAt(people: seq<Person>, rule: Rule): int -> Slot {
    c => SlotOf(people, rule, c)
  }

  function MissAt(people: seq<Person>, rule: Rule): int -> Miss {
    c => MissOf(people, rule, c)
  }

  /** The starts that fit everyone, and the others with what blocks them. */
  function Fitting(starts: seq<int>, fit: int -> bool): seq<int> {
    if starts == [] then []
    else
      var c := starts[|starts| - 1];
      Fitting(starts[..|starts| - 1], fit) + if fit(c) then [c] else []
  }

  function Missing(starts: seq<int>, fit: int -> bool, missAt: int -> Miss): seq<Miss> {
    if starts == [] then []
    else
      var c := starts[|starts| - 1];
      Missing(starts[..|starts| - 1], fit, missAt) + if fit(c) then [] else [missAt(c)]
  }

  lemma {:induction false} FittingMembers(starts: seq<int>, fit: int -> bool)
    ensures forall c :: c in Fitting(starts, fit) <==> c in starts && fit(c)
  {
    if starts == [] {
    } else {
      FittingMembers(starts[..|starts| - 1], fit);
      assert starts == starts[..|starts| - 1] + [starts[|starts| - 1]];
    }
  }

  lemma {:induction false} MissingMembers(starts: seq<int>, fit: int -> bool, missAt: int -> Miss)
    requires forall c :: missAt(c).start == c
    ensures forall m :: m in Missing(starts, fit, missAt) <==> m.start in starts && !fit(m.start) && m == missAt(m.start)
  {
    if starts == [] {
    } else {
      MissingMembers(starts[..|starts| - 1], fit, missAt);
      assert starts == starts[..|starts| - 1] + [starts[|starts| - 1]];
    }
  }

  /** Take each candidate that is at least `gap` after the last one taken. */
  function Greedy(cs: seq<int>, gap: int, limit: int): seq<int> {
    if cs == [] then []
    else
      var g := Greedy(cs[..|cs| - 1], gap, limit);
      var c := cs[|cs| - 1];
      if |g| < limit && (g == [] || c >= g[|g| - 1] + gap) then g + [c] else g
  }

  ghost predicate Spaced(s: seq<int>, gap: int) {
    forall i, j :: 0 <= i < j < |s| ==> s[j] - s[i] >= gap
  }

  ghost predicate SpacedChoice(s: seq<int>, cs: seq<int>, gap: int) {
    Spaced(s, gap) && forall c <- s :: c in cs
  }

  lemma {:induction false} GreedyIsSpacedChoice(cs: seq<int>, gap: int, limit: int)
    requires gap >= 0
    ensures SpacedChoice(Greedy(cs, gap, limit), cs, gap)
    ensures |Greedy(cs, gap, limit)| <= Max(limit, 0)
  {
    if cs == [] {
    } else {
      GreedyIsSpacedChoice(cs[..|cs| - 1], gap, limit);
      var g := Greedy(cs[..|cs| - 1], gap, limit);
      var c := cs[|cs| - 1];
      if g != [] && c >= g[|g| - 1] + gap {
        forall i | 0 <= i < |g| ensures c - g[i] >= gap {
          assert i < |g| - 1 ==> g[|g| - 1] - g[i] >= gap;
        }
      }
    }
  }

  ghost predicate NoBetter(g: seq<int>, other: seq<int>, limit: int) {
    && (|g| < limit ==> |other| <= |g|)
    && (forall k :: 0 <= k < |g| && k < |other| ==> g[k] <= other[k])
  }

  /** No spaced choice of candidates does better: none is longer unless the limit is reached, and
      the k-th candidate of any choice is no earlier than the k-th one taken. */
  lemma {:induction false} GreedyIsOptimal(cs: seq<int>, gap: int, limit: int, other: seq<int>)
    requires StrictlyIncreasing(cs) && gap > 0
    requires SpacedChoice(other, cs, gap)
    ensures NoBetter(Greedy(cs, gap, limit), other, limit)
  {
    if cs == [] {
      FirstIsMember(other);
    } else {
      var before, c := cs[..|cs| - 1], cs[|cs| - 1];
      assert before + [c] == cs;
      if other != [] && other[|other| - 1] == c {
        var rest := other[..|other| - 1];
        assert rest + [c] == other;
        ChoiceBefore(before, c, gap, rest);
        GreedyIsOptimal(before, gap, limit, rest);
        TakeLast(before, c, gap, limit, rest);
      } else {
        ChoiceWithout(before, c, gap, other);
        GreedyIsOptimal(before, gap, limit, other);
      }
    }
  }

  lemma FirstIsMember(s: seq<int>)
    ensures s == [] || s[0] in s
  {
  }

  lemma ChoiceBefore(before: seq<int>, c: int, gap: int, rest: seq<int>)
    requires gap > 0 && SpacedChoice(rest + [c], before + [c], gap)
    ensures SpacedChoice(rest, before, gap)
  {
    var other := rest + [c];
    forall i | 0 <= i < |rest| ensures rest[i] in before {
      assert other[i] in other && other[|rest|] - other[i] >= gap;
    }
    forall i, j | 0 <= i < j < |rest| ensures rest[j] - rest[i] >= gap {
      assert other[j] - other[i] >= gap;
    }
  }

  lemma ChoiceWithout(before: seq<int>, c: int, gap: int, other: seq<int>)
    requires StrictlyIncreasing(before + [c])
    requires gap > 0 && SpacedChoice(other, before + [c], gap)
    requires other == [] || other[|other| - 1] != c
    ensures SpacedChoice(other, before, gap)
  {
    forall i | 0 <= i < |other| ensures other[i] in before {
      assert other[i] in other && other[|other| - 1] in other;
      var k :| 0 <= k < |before + [c]| && (before + [c])[k] == other[|other| - 1];
      assert k < |before| && (before + [c])[|before|] == c;
    }
  }

  lemma TakeLast(before: seq<int>, c: int, gap: int, limit: int, rest: seq<int>)
    requires StrictlyIncreasing(before + [c]) && gap > 0
    requires Spaced(rest + [c], gap)
    requires NoBetter(Greedy(before, gap, limit), rest, limit)
    ensures NoBetter(Greedy(before + [c], gap, limit), rest + [c], limit)
  {
    var g, other := Greedy(before, gap, limit), rest + [c];
    assert (before + [c])[..|before|] == before;
    if |rest| < |g| {
      TakenBefore(before, c, gap, limit, |rest|);
    } else if 0 < |rest| == |g| {
      assert g[|g| - 1] <= rest[|g| - 1];
      assert other[|g|] - other[|g| - 1] >= gap;
    }
  }

  lemma TakenBefore(before: seq<int>, c: int, gap: int, limit: int, i: nat)
    requires StrictlyIncreasing(before + [c]) && gap > 0 && i < |Greedy(before, gap, limit)|
    ensures Greedy(before, gap, limit)[i] <= c
  {
    var g := Greedy(before, gap, limit);
    GreedyIsSpacedChoice(before, gap, limit);
    assert g[i] in g;
    var k :| 0 <= k < |before| && before[k] == g[i];
    assert (before + [c])[k] == g[i] && (before + [c])[|before|] == c;
  }

  // ---- near misses ----

  /** Fewer blockers first, earlier first among equals. */
  predicate Ranked(a: Miss, b: Miss) {
    |a.blockedBy| < |b.blockedBy| || (|a.blockedBy| == |b.blockedBy| && a.start <= b.start)
  }

  /** Take each miss that is at least `gap` away from every one already picked. */
  function NearPick(ms: seq<Miss>, gap: int, limit: int): seq<Miss> {
    if ms == [] then []
    else
      var near := NearPick(ms[..|ms| - 1], gap, limit);
      var m := ms[|ms| - 1];
      if |near| < limit && (forall p <- near :: Abs(m.start - p.start) >= gap) then near + [m] else near
  }

  /** Why a miss is not offered: one no worse is within `gap`, or the list is full of ones no worse. */
  ghost predicate PassedOver(m: Miss, near: seq<Miss>, gap: int, limit: int) {
    || (exists p <- near :: Abs(m.start - p.start) < gap && Ranked(p, m))
    || (|near| >= limit && forall p <- near :: Ranked(p, m))
  }

  lemma NearPickIsSpaced(ms: seq<Miss>, gap: int, limit: int)
    ensures var near := NearPick(ms, gap, limit);
            && |near| <= Max(limit, 0)
            && (forall p <- near :: p in ms)
            && (forall i, j :: 0 <= i < j < |near| ==> Abs(near[i].start - near[j].start) >= gap)
  {
    NearPickIsShort(ms, gap, limit);
    NearPickIsApart(ms, gap, limit);
    forall p | p in NearPick(ms, gap, limit) ensures p in ms {
      NearPickMember(ms, gap, limit, p);
    }
  }

  lemma {:induction false} NearPickIsShort(ms: seq<Miss>, gap: int, limit: int)
    ensures |NearPick(ms, gap, limit)| <= Max(limit, 0)
  {
    if ms == [] {
    } else {
      NearPickIsShort(ms[..|ms| - 1], gap, limit);
    }
  }

  lemma {:induction false} NearPickMember(ms: seq<Miss>, gap: int, limit: int, p: Miss)
    requires p in NearPick(ms, gap, limit)
    ensures p in ms
  {
    if ms != [] && p != ms[|ms| - 1] {
      NearPickMember(ms[..|ms| - 1], gap, limit, p);
    }
  }

  lemma {:induction false} NearPickIsApart(ms: seq<Miss>, gap: int, limit: int)
    ensures PairwiseApart(NearPick(ms, gap, limit), gap)
  {
    if ms == [] {
    } else {
      var near, m := NearPick(ms[..|ms| - 1], gap, limit), ms[|ms| - 1];
      NearPickIsApart(ms[..|ms| - 1], gap, limit);
      if forall p <- near :: Abs(m.start - p.start) >= gap {
        SpacedOneMore(near, m, gap);
      }
    }
  }

  ghost predicate PairwiseApart(near: seq<Miss>, gap: int) {
    forall i, j :: 0 <= i < j < |near| ==> Abs(near[i].start - near[j].start) >= gap
  }

  lemma SpacedOneMore(near: seq<Miss>, m: Miss, gap: int)
    requires PairwiseApart(near, gap) && forall p <- near :: Abs(m.start - p.start) >= gap
    ensures PairwiseApart(near + [m], gap)
  {
  }

  lemma {:induction false} NearPickIsComplete(ms: seq<Miss>, gap: int, limit: int, m: Miss)
    requires Sorting.Sorted(ms, Ranked) && m in ms
    ensures m in NearPick(ms, gap, limit) || PassedOver(m, NearPick(ms, gap, limit), gap, limit)
  {
    var before, last := ms[..|ms| - 1], ms[|ms| - 1];
    assert ms == before + [last];
    var near := NearPick(before, gap, limit);
    if m in before {
      NearPickIsComplete(before, gap, limit, m);
      if m !in near {
        StillPassedOver(m, near, last, gap, limit);
      }
    } else {
      PickedRankedNoLower(ms, gap, limit);
    }
  }

  ghost predicate NoneLower(near: seq<Miss>, m: Miss) {
    forall p <- near :: Ranked(p, m)
  }

  /** Those picked so far rank no lower than the last. */
  lemma PickedRankedNoLower(ms: seq<Miss>, gap: int, limit: int)
    requires Sorting.Sorted(ms, Ranked) && ms != []
    ensures NoneLower(NearPick(ms[..|ms| - 1], gap, limit), ms[|ms| - 1])
  {
    var before := ms[..|ms| - 1];
    var near := NearPick(before, gap, limit);
    forall p | p in near ensures Ranked(p, ms[|ms| - 1]) {
      NearPickMember(before, gap, limit, p);
      var i :| 0 <= i < |before| && before[i] == p;
      assert ms[i] == p;
    }
  }

  lemma StillPassedOver(m: Miss, near: seq<Miss>, last: Miss, gap: int, limit: int)
    requires PassedOver(m, near, gap, limit)
    ensures |near| < limit ==> PassedOver(m, near + [last], gap, limit)
  {
    if p :| p in near && Abs(m.start - p.start) < gap && Ranked(p, m) {
      assert p in near + [last];
    }
  }

  lemma RankedIsTotal()
    ensures Sorting.TotalOrder(Ranked)
  {
  }

  // ---- the search ----

  method FindCommonSlots(people: seq<Person>, windows: seq<Window>, rule: Rule, limit: int, spread: int)
    returns (slots: seq<Slot>, near: seq<Miss>)
    requires rule.Valid()
    ensures var gap, starts := Max(spread, rule.duration), Starts(windows, rule.duration, rule.minutes);
            var fit := Fit(people, rule);
            var picks := Greedy(Fitting(starts, fit), gap, limit);
            && |slots| == |picks|
            && (forall k :: 0 <= k < |slots| ==> slots[k] == SlotAt(people, rule)(picks[k]) && slots[k].start == picks[k])
            && near == if |picks| < limit then NearMisses(starts, fit, MissAt(people, rule), limit, gap) else []
    ensures forall k :: 0 <= k < |slots| ==> SlotIsTrue(people, rule, slots[k])
    ensures forall k :: 0 <= k < |near| ==> MissIsTrue(people, rule, near[k])
  {
    ghost var starts := Starts(windows, rule.duration, rule.minutes);
    slots, near := Search(people, windows, rule, limit, Max(spread, rule.duration));
    NearMissesAreMisses(starts, people, rule, limit, Max(spread, rule.duration));
    AllAreTrue(people, rule, slots, near);
  }

  /** Its loops. */
  method Search(people: seq<Person>, windows: seq<Window>, rule: Rule, limit: int, gap: int)
    returns (slots: seq<Slot>, near: seq<Miss>)
    requires rule.Valid()
    ensures var starts, fit := Starts(windows, rule.duration, rule.minutes), Fit(people, rule);
            var picks := Greedy(Fitting(starts, fit), gap, limit);
            slots == Reported(picks, SlotAt(people, rule))
            && near == if |slots| < limit then NearMisses(starts, fit, MissAt(people, rule), limit, gap) else []
  {
    ghost var starts := Starts(windows, rule.duration, rule.minutes);
    ghost var seen: seq<int> := [];
    slots := [];
    var misses := [];
    var i := 0;
    assert windows[0..] == windows;
    while i < |windows|
      invariant 0 <= i <= |windows|
      invariant seen + Starts(windows[i..], rule.duration, rule.minutes) == starts
      invariant Found(slots, misses) == Seen(people, rule, gap, limit, seen)
    {
      SeenOneMore(seen, windows, i, rule);
      slots, misses := ScanWindow(people, windows[i], rule, gap, limit, seen, slots, misses);
      seen := seen + Grid(windows[i], rule.duration, rule.minutes);
      i := i + 1;
    }
    assert seen + [] == seen;
    near := [];
    if |slots| < limit {
      near := PickNear(Sorting.Sort(misses, Ranked), gap, limit);
    }
  }

  lemma AllAreTrue(people: seq<Person>, rule: Rule, slots: seq<Slot>, near: seq<Miss>)
    requires forall k :: 0 <= k < |slots| ==> slots[k] == SlotOf(people, rule, slots[k].start)
    requires forall m <- near :: MissIsTrue(people, rule, m)
    ensures forall k :: 0 <= k < |slots| ==> SlotIsTrue(people, rule, slots[k])
    ensures forall k :: 0 <= k < |near| ==> MissIsTrue(people, rule, near[k])
  {
    forall k | 0 <= k < |slots| ensures SlotIsTrue(people, rule, slots[k]) {
      SlotOfIsTrue(people, rule, slots[k]);
    }
    forall k | 0 <= k < |near| ensures MissIsTrue(people, rule, near[k]) {
      assert near[k] in near;
    }
  }

  lemma SeenOneMore(seen: seq<int>, windows: seq<Window>, i: nat, rule: Rule)
    requires rule.Valid() && i < |windows|
    ensures seen + Starts(windows[i..], rule.duration, rule.minutes) ==
            (seen + Grid(windows[i], rule.duration, rule.minutes)) + Starts(windows[i + 1..], rule.duration, rule.minutes)
  {
    assert windows[i..][1..] == windows[i + 1..];
    Regroup(seen, Grid(windows[i], rule.duration, rule.minutes), Starts(windows[i + 1..], rule.duration, rule.minutes));
  }

  method ScanWindow(people: seq<Person>, w: Window, rule: Rule, gap: int, limit: int,
                    ghost seen: seq<int>, slots: seq<Slot>, misses: seq<Miss>)
    returns (slots': seq<Slot>, misses': seq<Miss>)
    requires rule.Valid()
    requires Found(slots, misses) == Seen(people, rule, gap, limit, seen)
    ensures Found(slots', misses') == Seen(people, rule, gap, limit, seen + Grid(w, rule.duration, rule.minutes))
  {
    var step := rule.minutes * MINUTE;
    assert step > 0;
    slots', misses' := ScanGrid(people, CeilToGrid(w.start, rule.minutes), w.end, step, rule, gap, limit, seen, slots, misses,
                               seen + Grid(w, rule.duration, rule.minutes));
  }

  method ScanGrid(people: seq<Person>, first: int, end: int, step: int, rule: Rule, gap: int, limit: int,
                  ghost seen: seq<int>, slots: seq<Slot>, misses: seq<Miss>, ghost all: seq<int>)
    returns (slots': seq<Slot>, misses': seq<Miss>)
    requires step > 0 && all == Whole(seen, first, end, rule.duration, step)
    requires Found(slots, misses) == Seen(people, rule, gap, limit, seen)
    ensures Found(slots', misses') == Seen(people, rule, gap, limit, all)
  {
    slots', misses' := slots, misses;
    ghost var now := seen;
    var cursor := first;
    while cursor + rule.duration <= end
      invariant Whole(now, cursor, end, rule.duration, step) == all
      invariant Found(slots', misses') == Seen(people, rule, gap, limit, now)
      decreases end - rule.duration - cursor
    {
      WholeStep(now, cursor, end, rule.duration, step);
      slots', misses' := VisitStart(people, cursor, rule, gap, limit, now, slots', misses');
      now := now + [cursor];
      cursor := cursor + step;
    }
    NothingLeft(now, cursor, end, rule.duration, step);
  }

  /** The starts seen and those from the cursor on. */
  ghost function Whole(seen: seq<int>, cursor: int, end: int, duration: int, step: int): seq<int>
    requires step > 0
  {
    seen + GridFrom(cursor, end, duration, step)
  }

  lemma WholeStep(seen: seq<int>, cursor: int, end: int, duration: int, step: int)
    requires step > 0 && cursor + duration <= end
    ensures Whole(seen + [cursor], cursor + step, end, duration, step) == Whole(seen, cursor, end, duration, step)
  {
    CursorStep(seen, cursor, end, duration, step);
  }

  lemma NothingLeft(seen: seq<int>, c: int, end: int, duration: int, step: int)
    requires step > 0 && c + duration > end
    ensures Whole(seen, c, end, duration, step) == seen
  {
  }

  /** One start. */
  method VisitStart(people: seq<Person>, cursor: int, rule: Rule, gap: int, limit: int,
                    ghost seen: seq<int>, slots: seq<Slot>, misses: seq<Miss>)
    returns (slots': seq<Slot>, misses': seq<Miss>)
    requires Found(slots, misses) == Seen(people, rule, gap, limit, seen)
    ensures Found(slots', misses') == Seen(people, rule, gap, limit, seen + [cursor])
  {
    var end, blockers, elsewhere := LookAtStart(people, cursor, rule);
    slots', misses' := TryStart(seen, Fit(people, rule), SlotAt(people, rule), MissAt(people, rule), gap, limit,
                                slots, misses, cursor, end, blockers, elsewhere);
  }

  method LookAtStart(people: seq<Person>, cursor: int, rule: Rule)
    returns (end: int, blockers: seq<Blocker>, elsewhere: seq<string>)
    ensures blockers == [] <==> Fit(people, rule)(cursor)
    ensures SlotAt(people, rule)(cursor) == Slot(cursor, end, elsewhere)
    ensures MissAt(people, rule)(cursor) == Miss(cursor, end, elsewhere, blockers)
  {
    end := cursor + rule.duration;
    blockers, elsewhere := Collect(people, cursor, end, rule.blocking);
    StartReported(people, cursor, rule);
  }

  lemma StartReported(people: seq<Person>, c: int, rule: Rule)
    ensures Fit(people, rule)(c) == Fits(people, c, c + rule.duration, rule.blocking)
    ensures SlotAt(people, rule)(c) == SlotOf(people, rule, c) && MissAt(people, rule)(c) == MissOf(people, rule, c)
  {
  }

  /** The starts seen so far have been dealt with. */
  ghost predicate Progress(seen: seq<int>, fit: int -> bool, slotAt: int -> Slot, missAt: int -> Miss,
                           gap: int, limit: int, slots: seq<Slot>, misses: seq<Miss>)
  {
    misses == Missing(seen, fit, missAt) && slots == Reported(Greedy(Fitting(seen, fit), gap, limit), slotAt)
  }

  datatype Found = Found(slots: seq<Slot>, misses: seq<Miss>)

  /** What is found in the starts seen so far. */
  ghost function Seen(people: seq<Person>, rule: Rule, gap: int, limit: int, seen: seq<int>): Found {
    Found(Reported(Greedy(Fitting(seen, Fit(people, rule)), gap, limit), SlotAt(people, rule)),
          Missing(seen, Fit(people, rule), MissAt(people, rule)))
  }

  /** The picks as they are reported. */
  function Reported(picks: seq<int>, slotAt: int -> Slot): (slots: seq<Slot>)
    ensures |slots| == |picks| && forall k :: 0 <= k < |slots| ==> slots[k] == slotAt(picks[k])
  {
    seq(|picks|, k requires 0 <= k < |picks| => slotAt(picks[k]))
  }

  method TryStart(ghost seen: seq<int>, ghost fit: int -> bool, ghost slotAt: int -> Slot, ghost missAt: int -> Miss,
                  gap: int, limit: int, slots: seq<Slot>, misses: seq<Miss>,
                  cursor: int, end: int, blockers: seq<Blocker>, elsewhere: seq<string>)
    returns (slots': seq<Slot>, misses': seq<Miss>)
    requires Progress(seen, fit, slotAt, missAt, gap, limit, slots, misses)
    requires blockers == [] <==> fit(cursor)
    requires forall x :: slotAt(x).start == x
    requires slotAt(cursor) == Slot(cursor, end, elsewhere) && missAt(cursor) == Miss(cursor, end, elsewhere, blockers)
    ensures Progress(seen + [cursor], fit, slotAt, missAt, gap, limit, slots', misses')
  {
    Extend(seen, cursor, fit, slotAt, gap, limit, slots);
    ExtendMissing(seen, cursor, fit, missAt);
    slots', misses' := slots, misses;
    if blockers != [] {
      misses' := misses + [Miss(cursor, end, elsewhere, blockers)];
    } else if |slots| < limit && (slots == [] || cursor >= slots[|slots| - 1].start + gap) {
      slots' := slots + [Slot(cursor, end, elsewhere)];
    }
  }

  method PickNear(ranked: seq<Miss>, gap: int, limit: int) returns (near: seq<Miss>)
    ensures near == NearPick(ranked, gap, limit)
  {
    near := [];
    var k := 0;
    while k < |ranked|
      invariant 0 <= k <= |ranked|
      invariant near == NearPick(ranked[..k], gap, limit)
    {
      if |near| >= limit {
        FullStaysFull(ranked, k, gap, limit);
        return;
      }
      var m := ranked[k];
      assert ranked[..k + 1][..k] == ranked[..k];
      if forall p <- near :: Abs(m.start - p.start) >= gap {
        near := near + [m];
      }
      k := k + 1;
    }
    assert ranked[..k] == ranked;
  }

  lemma Extend(seen: seq<int>, c: int, fit: int -> bool, slotAt: int -> Slot, gap: int, limit: int, slots: seq<Slot>)
    requires slots == Reported(Greedy(Fitting(seen, fit), gap, limit), slotAt)
    requires forall x :: slotAt(x).start == x
    ensures Reported(Greedy(Fitting(seen + [c], fit), gap, limit), slotAt) ==
            if fit(c) && |slots| < limit && (slots == [] || c >= slots[|slots| - 1].start + gap) then slots + [slotAt(c)] else slots
  {
    ExtendFitting(seen, c, fit, gap, limit);
    ExtendReport(Greedy(Fitting(seen, fit), gap, limit), c, slotAt, gap);
  }

  lemma ExtendReport(g: seq<int>, c: int, slotAt: int -> Slot, gap: int)
    requires forall x :: slotAt(x).start == x
    ensures var slots := Reported(g, slotAt);
            && Reported(g + [c], slotAt) == slots + [slotAt(c)]
            && (g == [] <==> slots == [])
            && (g != [] ==> slots[|slots| - 1].start == g[|g| - 1])
  {
  }

  lemma ExtendMissing(seen: seq<int>, c: int, fit: int -> bool, missAt: int -> Miss)
    ensures Missing(seen + [c], fit, missAt) ==
            if fit(c) then Missing(seen, fit, missAt) else Missing(seen, fit, missAt) + [missAt(c)]
  {
    var more := seen + [c];
    assert more[..|more| - 1] == seen;
    assert Missing(seen, fit, missAt) + [] == Missing(seen, fit, missAt);
  }

  lemma ExtendFitting(seen: seq<int>, c: int, fit: int -> bool, gap: int, limit: int)
    ensures var g := Greedy(Fitting(seen, fit), gap, limit);
            Greedy(Fitting(seen + [c], fit), gap, limit) ==
            if fit(c) && |g| < limit && (g == [] || c >= g[|g| - 1] + gap) then g + [c] else g
  {
    FittingSnoc(seen, c, fit);
    GreedySnoc(Fitting(seen, fit), c, gap, limit);
    assert !fit(c) ==> Fitting(seen, fit) + [] == Fitting(seen, fit);
  }

  lemma FittingSnoc(seen: seq<int>, c: int, fit: int -> bool)
    ensures Fitting(seen + [c], fit) == Fitting(seen, fit) + if fit(c) then [c] else []
  {
    assert (seen + [c])[..|seen|] == seen;
  }

  lemma GreedySnoc(f: seq<int>, c: int, gap: int, limit: int)
    ensures var g := Greedy(f, gap, limit);
            Greedy(f + [c], gap, limit) == if |g| < limit && (g == [] || c >= g[|g| - 1] + gap) then g + [c] else g
  {
    assert (f + [c])[..|f|] == f;
  }

  lemma {:induction false} FullStaysFull(ms: seq<Miss>, k: nat, gap: int, limit: int)
    requires k <= |ms| && |NearPick(ms[..k], gap, limit)| >= limit
    ensures NearPick(ms, gap, limit) == NearPick(ms[..k], gap, limit)
    decreases |ms| - k
  {
    if k < |ms| {
      assert ms[..k + 1][..k] == ms[..k];
      FullStaysFull(ms, k + 1, gap, limit);
    } else {
      assert ms[..k] == ms;
    }
  }

  /** What the search promises, with no reference to how it picks: the slots fit everyone, are
      `gap` apart and are as many and as early as any such choice of grid starts. */
  lemma SlotsAreOptimal(windows: seq<Window>, duration: int, minutes: int, fit: int -> bool,
                        limit: int, gap: int, other: seq<int>)
    requires duration > 0 && minutes > 0 && gap > 0 && WorkHours.InOrder(windows)
    requires Spaced(other, gap) && forall c <- other :: c in Starts(windows, duration, minutes) && fit(c)
    ensures var picks := Greedy(Fitting(Starts(windows, duration, minutes), fit), gap, limit);
            && Spaced(picks, gap)
            && (forall c <- picks :: c in Starts(windows, duration, minutes) && fit(c))
            && Min(|other|, Max(limit, 0)) <= |picks| <= Max(limit, 0)
            && (forall k :: 0 <= k < |picks| && k < |other| ==> picks[k] <= other[k])
  {
    var starts := Starts(windows, duration, minutes);
    StartsAscend(windows, duration, minutes);
    FittingMembers(starts, fit);
    FittingAscends(starts, fit);
    GreedyIsSpacedChoice(Fitting(starts, fit), gap, limit);
    GreedyIsOptimal(Fitting(starts, fit), gap, limit, other);
  }

  lemma {:induction false} FittingAscends(starts: seq<int>, fit: int -> bool)
    requires StrictlyIncreasing(starts)
    ensures StrictlyIncreasing(Fitting(starts, fit))
  {
    if starts == [] {
    } else {
      var before := starts[..|starts| - 1];
      FittingAscends(before, fit);
      var f := Fitting(before, fit);
      FittingMembers(before, fit);
      forall i | 0 <= i < |f| ensures f[i] < starts[|starts| - 1] {
        assert f[i] in f;
        var k :| 0 <= k < |before| && before[k] == f[i];
        assert starts[k] == f[i];
      }
    }
  }

  function NearMisses(starts: seq<int>, fit: int -> bool, missAt: int -> Miss, limit: int, gap: int): seq<Miss> {
    NearPick(Sorting.Sort(Missing(starts, fit, missAt), Ranked), gap, limit)
  }

  /** The near misses are blocked grid starts, at most `limit` of them and pairwise spaced. */
  lemma NearMissesAreSpacedMisses(starts: seq<int>, fit: int -> bool, missAt: int -> Miss, limit: int, gap: int)
    requires forall c :: missAt(c).start == c
    ensures var near := NearMisses(starts, fit, missAt, limit, gap);
            && |near| <= Max(limit, 0)
            && (forall i, j :: 0 <= i < j < |near| ==> Abs(near[i].start - near[j].start) >= gap)
            && (forall m <- near :: m.start in starts && !fit(m.start) && m == missAt(m.start))
  {
    NearPickIsSpaced(Sorting.Sort(Missing(starts, fit, missAt), Ranked), gap, limit);
    forall m | m in NearMisses(starts, fit, missAt, limit, gap)
      ensures m.start in starts && !fit(m.start) && m == missAt(m.start)
    {
      NearMissIsAMiss(starts, fit, missAt, limit, gap, m);
    }
  }

  lemma NearMissIsAMiss(starts: seq<int>, fit: int -> bool, missAt: int -> Miss, limit: int, gap: int, m: Miss)
    requires forall c :: missAt(c).start == c
    requires m in NearMisses(starts, fit, missAt, limit, gap)
    ensures m.start in starts && !fit(m.start) && m == missAt(m.start)
  {
    var misses := Missing(starts, fit, missAt);
    NearPickIsSpaced(Sorting.Sort(misses, Ranked), gap, limit);
    SameMembers(Sorting.Sort(misses, Ranked), misses);
    MissingMembers(starts, fit, missAt);
  }

  /** A blocked start is passed over only for one ranked no lower nearby, or because the list is full
      of such; and the list is in order of rank. */
  lemma NearMissesAreRanked(starts: seq<int>, fit: int -> bool, missAt: int -> Miss, limit: int, gap: int, c: int)
    requires forall c :: missAt(c).start == c
    requires c in starts && !fit(c)
    ensures var near := NearMisses(starts, fit, missAt, limit, gap);
            missAt(c) in near || PassedOver(missAt(c), near, gap, limit)
  {
    var misses := Missing(starts, fit, missAt);
    RankedIsTotal();
    Sorting.SortSorted(misses, Ranked);
    SameMembers(Sorting.Sort(misses, Ranked), misses);
    MissingMembers(starts, fit, missAt);
    NearPickIsComplete(Sorting.Sort(misses, Ranked), gap, limit, missAt(c));
  }

  lemma {:induction false} NearPickInOrder(ms: seq<Miss>, gap: int, limit: int)
    requires Sorting.Sorted(ms, Ranked)
    ensures InRankOrder(NearPick(ms, gap, limit))
  {
    if ms == [] {
    } else {
      NearPickInOrder(ms[..|ms| - 1], gap, limit);
      PickedRankedNoLower(ms, gap, limit);
      RankOneMore(NearPick(ms[..|ms| - 1], gap, limit), ms[|ms| - 1]);
    }
  }

  ghost predicate InRankOrder(near: seq<Miss>) {
    forall i, j :: 0 <= i < j < |near| ==> Ranked(near[i], near[j])
  }

  lemma RankOneMore(near: seq<Miss>, m: Miss)
    requires InRankOrder(near) && NoneLower(near, m)
    ensures InRankOrder(near + [m])
  {
  }

  // ---- the rank of a start, by the people who cannot come ----

  /** How many people cannot come to a meeting at c. */
  ghost function Absent(people: seq<Person>, rule: Rule, c: int): nat {
    |WhoCannot(people, c, c + rule.duration, rule.blocking)|
  }

  /** Fewer people cannot come at a than at c, or as many and a is no later. */
  ghost predicate NoWorse(people: seq<Person>, rule: Rule, a: int, c: int) {
    Absent(people, rule, a) < Absent(people, rule, c) || (Absent(people, rule, a) == Absent(people, rule, c) && a <= c)
  }

  lemma MissCount(people: seq<Person>, rule: Rule, m: Miss)
    requires MissIsTrue(people, rule, m)
    ensures |m.blockedBy| == Absent(people, rule, m.start)
  {
    SelectedSize(m.blockedBy, people, CannotCome(m.start, m.end, rule.blocking), HasReason(m.start, m.end, rule.blocking),
                 WhoCannot(people, m.start, m.end, rule.blocking));
  }

  lemma RankedIsNoWorse(people: seq<Person>, rule: Rule, a: Miss, b: Miss)
    requires |a.blockedBy| == Absent(people, rule, a.start) && |b.blockedBy| == Absent(people, rule, b.start)
    ensures Ranked(a, b) <==> NoWorse(people, rule, a.start, b.start)
  {
  }

  /** The near misses come best first, by the number of people who cannot come and then by time, and a
      blocked start is left out only if one no worse lies within the gap, or the list is full of ones
      no worse. */
  lemma NearMissesAreBest(starts: seq<int>, people: seq<Person>, rule: Rule, limit: int, gap: int, c: int)
    requires c in starts && exists i :: 0 <= i < |people| && !PersonFits(people[i], c, c + rule.duration, rule.blocking)
    ensures var near := NearMisses(starts, Fit(people, rule), MissAt(people, rule), limit, gap);
            && (forall i, j :: 0 <= i < j < |near| ==> NoWorse(people, rule, near[i].start, near[j].start))
            && (|| (exists m <- near :: m.start == c)
                || (exists m <- near :: Abs(c - m.start) < gap && NoWorse(people, rule, m.start, c))
                || (|near| >= limit && forall m <- near :: NoWorse(people, rule, m.start, c)))
  {
    var fit, missAt := Fit(people, rule), MissAt(people, rule);
    var near := NearMisses(starts, fit, missAt, limit, gap);
    StartReported(people, c, rule);
    NearMissesAreMisses(starts, people, rule, limit, gap);
    NearMissesAreRanked(starts, fit, missAt, limit, gap, c);
    MissOfIsTrue(people, rule, missAt(c));
    MissCount(people, rule, missAt(c));
    forall m | m in near ensures Ranked(m, missAt(c)) <==> NoWorse(people, rule, m.start, c) {
      MissCount(people, rule, m);
      RankedIsNoWorse(people, rule, m, missAt(c));
    }
    NearMissesComeInOrder(starts, people, rule, limit, gap);
  }

  lemma NearMissesComeInOrder(starts: seq<int>, people: seq<Person>, rule: Rule, limit: int, gap: int)
    ensures var near := NearMisses(starts, Fit(people, rule), MissAt(people, rule), limit, gap);
            forall i, j :: 0 <= i < j < |near| ==> NoWorse(people, rule, near[i].start, near[j].start)
  {
    var fit, missAt := Fit(people, rule), MissAt(people, rule);
    var near := NearMisses(starts, fit, missAt, limit, gap);
    var ranked := Sorting.Sort(Missing(starts, fit, missAt), Ranked);
    RankedIsTotal();
    Sorting.SortSorted(Missing(starts, fit, missAt), Ranked);
    NearPickInOrder(ranked, gap, limit);
    assert near == NearPick(ranked, gap, limit);
    NearMissesAreMisses(starts, people, rule, limit, gap);
    RankedAreNoWorse(people, rule, near);
  }

  lemma NearMissesAreMisses(starts: seq<int>, people: seq<Person>, rule: Rule, limit: int, gap: int)
    ensures forall m <- NearMisses(starts, Fit(people, rule), MissAt(people, rule), limit, gap) :: MissIsTrue(people, rule, m)
  {
    NearMissesAreSpacedMisses(starts, Fit(people, rule), MissAt(people, rule), limit, gap);
    forall m | m in NearMisses(starts, Fit(people, rule), MissAt(people, rule), limit, gap) ensures MissIsTrue(people, rule, m) {
      MissOfIsTrue(people, rule, m);
    }
  }

  lemma RankedAreNoWorse(people: seq<Person>, rule: Rule, near: seq<Miss>)
    requires forall m <- near :: MissIsTrue(people, rule, m)
    requires InRankOrder(near)
    ensures forall i, j :: 0 <= i < j < |near| ==> NoWorse(people, rule, near[i].start, near[j].start)
  {
    forall i, j | 0 <= i < j < |near| ensures NoWorse(people, rule, near[i].start, near[j].start) {
      assert near[i] in near && near[j] in near;
      MissCount(people, rule, near[i]);
      MissCount(people, rule, near[j]);
      RankedIsNoWorse(people, rule, near[i], near[j]);
    }
  }

  /** Each slot and each near miss is as long as the meeting, and names exactly the people it should. */
  ghost predicate SlotIsTrue(people: seq<Person>, rule: Rule, slot: Slot) {
    slot.end == slot.start + rule.duration
    && Selected(slot.elsewhere, people, WorksElsewhere(slot.start, slot.end, rule.blocking), HasName())
  }

  ghost predicate MissIsTrue(people: seq<Person>, rule: Rule, m: Miss) {
    m.end == m.start + rule.duration && NamedRightly(people, m.start, m.end, rule.blocking, m.blockedBy, m.elsewhere)
  }

  lemma SlotOfIsTrue(people: seq<Person>, rule: Rule, slot: Slot)
    requires slot == SlotOf(people, rule, slot.start)
    ensures SlotIsTrue(people, rule, slot)
  {
    BlockersAreThose(people, slot.start, slot.end, rule.blocking);
  }

  lemma MissOfIsTrue(people: seq<Person>, rule: Rule, m: Miss)
    requires m == MissOf(people, rule, m.start)
    ensures MissIsTrue(people, rule, m)
  {
    BlockersAreThose(people, m.start, m.end, rule.blocking);
  }

  lemma SameMembers<T>(a: seq<T>, b: seq<T>)
    requires multiset(a) == multiset(b)
    ensures forall x :: x in a <==> x in b
  {
    forall x ensures x in a <==> x in b {
      assert x in a <==> x in multiset(a);
    }
  }
}
