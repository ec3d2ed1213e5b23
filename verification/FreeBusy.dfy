/** Exchange free/busy strings (outlook.py 580-686): a string of codes becomes a list of busy
    blocks, and a slot fits a person when no block that counts reaches into it.

    An instant is a number of microseconds on the local clock. */
module FreeBusy {
  import opened Common

  datatype Status = Free | Tentative | Busy | OutOfOffice | WorkingElsewhere

  /** A code that is not in the table counts as busy. */
  function Decode(code: char): Status {
    match code
    case '0' => Free
    case '1' => Tentative
    case '2' => Busy
    case '3' => OutOfOffice
    case '4' => WorkingElsewhere
    case _ => Busy
  }

  datatype Block = Block(start: int, end: int, status: Status)

  datatype Person = Person(who: string, address: string, blocks: seq<Block>, dataUntil: int)

  // ---- parse_free_busy ----

  /** The end of the run of equal characters that starts at i. */
  function RunEnd(codes: string, i: nat, j: nat): (end: nat)
    requires i < j <= |codes|
    requires forall k :: i <= k < j ==> codes[k] == codes[i]
    ensures j <= end <= |codes|
    ensures forall k :: i <= k < end ==> codes[k] == codes[i]
    ensures end == |codes| || codes[end] != codes[i]
    decreases |codes| - j
  {
    if j < |codes| && codes[j] == codes[i] then RunEnd(codes, i, j + 1) else j
  }

  /** The busy blocks of the characters from i on. */
  function Blocks(codes: string, origin: int, step: int, i: nat): seq<Block>
    requires i <= |codes|
    decreases |codes| - i
  {
    if i == |codes| then []
    else
      var j := RunEnd(codes, i, i + 1);
      (if codes[i] == '0' then [] else [Block(At(origin, step, i), At(origin, step, j), Decode(codes[i]))])
      + Blocks(codes, origin, step, j)
  }

  method ParseFreeBusy(codes: string, origin: int, step: int) returns (blocks: seq<Block>, dataUntil: int)
    ensures blocks == Blocks(codes, origin, step, 0)
    ensures dataUntil == At(origin, step, |codes|)
  {
    blocks := [];
    var i, n := 0, |codes|;
    while i < n
      invariant 0 <= i <= n
      invariant blocks + Blocks(codes, origin, step, i) == Blocks(codes, origin, step, 0)
    {
      var j := i;
      while j < n && codes[j] == codes[i]
        invariant i <= j <= n
        invariant forall k :: i <= k < j ==> codes[k] == codes[i]
      {
        j := j + 1;
      }
      assert j == RunEnd(codes, i, i + 1);
      if codes[i] != '0' {
        blocks := blocks + [Block(At(origin, step, i), At(origin, step, j), Decode(codes[i]))];
      }
      i := j;
    }
    dataUntil := At(origin, step, n);
  }

  ghost predicate InOrder(blocks: seq<Block>) {
    && (forall b <- blocks :: b.start < b.end)
    && (forall i, j :: 0 <= i < j < |blocks| ==> blocks[i].end <= blocks[j].start)
  }

  ghost predicate Inside(blocks: seq<Block>, from: int, to: int) {
    forall b <- blocks :: from <= b.start && b.end <= to
  }

  lemma InOrderCons(b: Block, rest: seq<Block>, from: int, to: int)
    requires b.start < b.end <= to && from <= b.start && InOrder(rest) && Inside(rest, b.end, to)
    ensures InOrder([b] + rest) && Inside([b] + rest, from, to)
  {
    var all := [b] + rest;
    forall i | 0 < i < |all| ensures b.end <= all[i].start {
      assert all[i] in rest;
    }
    assert forall i, j :: 0 < i < j < |all| ==> all[i] == rest[i - 1] && all[j] == rest[j - 1];
    assert forall x <- all :: x == b || x in rest;
  }

  /** Blocks are non-empty, ascending and disjoint, and stay inside the published stretch. */
  lemma {:induction false} BlocksInOrder(codes: string, origin: int, step: int, i: nat)
    requires i <= |codes| && step > 0
    ensures InOrder(Blocks(codes, origin, step, i))
    ensures Inside(Blocks(codes, origin, step, i), At(origin, step, i), At(origin, step, |codes|))
    decreases |codes| - i
  {
    if i == |codes| {
    } else {
      var j := RunEnd(codes, i, i + 1);
      var rest := Blocks(codes, origin, step, j);
      AtMonotone(origin, step, i, j);
      if j < |codes| {
        AtMonotone(origin, step, j, |codes|);
      }
      BlocksInOrder(codes, origin, step, j);
      InOrderCons(Block(At(origin, step, i), At(origin, step, j), Decode(codes[i])), rest, At(origin, step, i), At(origin, step, |codes|));
    }
  }

  ghost predicate MaximalRun(codes: string, i: nat, j: nat) {
    && i < j <= |codes|
    && (forall k :: i <= k < j ==> codes[k] == codes[i])
    && (i == 0 || codes[i - 1] != codes[i])
    && (j == |codes| || codes[j] != codes[i])
  }

  /** Each block is one whole run of one code. */
  lemma {:induction false} BlocksAreRuns(codes: string, origin: int, step: int, i: nat, b: Block)
    requires i <= |codes| && b in Blocks(codes, origin, step, i)
    requires 0 < i < |codes| ==> codes[i - 1] != codes[i]
    ensures exists x: nat, y: nat :: MaximalRun(codes, x, y) && codes[x] != '0' &&
              b == Block(At(origin, step, x), At(origin, step, y), Decode(codes[x]))
    decreases |codes| - i
  {
    var j := RunEnd(codes, i, i + 1);
    assert MaximalRun(codes, i, j);
    if codes[i] == '0' || b != Block(At(origin, step, i), At(origin, step, j), Decode(codes[i])) {
      BlocksAreRuns(codes, origin, step, j, b);
    }
  }

  /** A stretch reaches into [s, e). */
  predicate Overlaps(start: int, end: int, s: int, e: int) {
    start < e && end > s
  }

  predicate CodeOverlaps(origin: int, step: int, k: int, s: int, e: int) {
    Overlaps(At(origin, step, k), At(origin, step, k + 1), s, e)
  }

  /** A run of characters reaches into [s, e) exactly when one of its characters does. */
  lemma {:induction false} RunOverlap(origin: int, step: int, i: int, j: int, s: int, e: int)
    requires step > 0 && i < j && s < e
    ensures Overlaps(At(origin, step, i), At(origin, step, j), s, e) <==>
            exists k :: i <= k < j && CodeOverlaps(origin, step, k, s, e)
    decreases j - i
  {
    AtMonotone(origin, step, i, i + 1);
    if i + 1 < j {
      AtMonotone(origin, step, i + 1, j);
      RunOverlap(origin, step, i + 1, j, s, e);
      if At(origin, step, i + 1) > s && At(origin, step, i) < e {
        assert CodeOverlaps(origin, step, i, s, e);
      }
    } else {
      if Overlaps(At(origin, step, i), At(origin, step, j), s, e) {
        assert CodeOverlaps(origin, step, i, s, e);
      }
    }
  }

  /** The blocks say of any slot exactly what the characters under it say. */
  lemma {:induction false} BlocksCoverTheCodes(codes: string, origin: int, step: int, i: nat, s: int, e: int, st: Status)
    requires i <= |codes| && step > 0 && s < e
    ensures (exists b <- Blocks(codes, origin, step, i) :: Overlaps(b.start, b.end, s, e) && b.status == st) <==>
            (exists k :: i <= k < |codes| && CodeOverlaps(origin, step, k, s, e) && codes[k] != '0' && Decode(codes[k]) == st)
    decreases |codes| - i
  {
    if i < |codes| {
      var j := RunEnd(codes, i, i + 1);
      var rest := Blocks(codes, origin, step, j);
      var all := Blocks(codes, origin, step, i);
      BlocksCoverTheCodes(codes, origin, step, j, s, e, st);
      RunOverlap(origin, step, i, j, s, e);
      assert forall b :: b in all <==>
        b in rest || (codes[i] != '0' && b == Block(At(origin, step, i), At(origin, step, j), Decode(codes[i])));
    }
  }

  // ---- who can make a slot ----

  predicate PersonFits(p: Person, s: int, e: int, blocking: set<Status>) {
    e <= p.dataUntil && forall b <- p.blocks :: Overlaps(b.start, b.end, s, e) ==> b.status !in blocking
  }

  predicate Fits(people: seq<Person>, s: int, e: int, blocking: set<Status>) {
    forall p <- people :: PersonFits(p, s, e, blocking)
  }

  /** End to end: a person read from a free/busy string fits a slot if and only if the slot ends
      within the data and no character whose time reaches into it stands for a status that blocks: 0 is
      free, 1 tentative, 3 out of office, 4 working elsewhere, and everything else busy. */
  lemma FitsIffCodesAllow(who: string, address: string, codes: string, origin: int, step: int,
                          s: int, e: int, blocking: set<Status>)
    requires step > 0 && s < e
    ensures PersonFits(Person(who, address, Blocks(codes, origin, step, 0), At(origin, step, |codes|)), s, e, blocking) <==>
            && e <= origin + step * |codes|
            && forall k :: 0 <= k < |codes| && origin + step * k < e && origin + step * (k + 1) > s ==>
                 || codes[k] == '0'
                 || (codes[k] == '1' && Tentative !in blocking)
                 || (codes[k] == '3' && OutOfOffice !in blocking)
                 || (codes[k] == '4' && WorkingElsewhere !in blocking)
                 || (codes[k] !in ['0', '1', '3', '4'] && Busy !in blocking)
  {
    DecodedAllow(codes, origin, step, s, e, blocking);
    forall k | 0 <= k < |codes|
      ensures CodeOverlaps(origin, step, k, s, e) <==> origin + step * k < e && origin + step * (k + 1) > s
    {
    }
  }

  lemma DecodedAllow(codes: string, origin: int, step: int, s: int, e: int, blocking: set<Status>)
    requires step > 0 && s < e
    ensures (forall b <- Blocks(codes, origin, step, 0) :: Overlaps(b.start, b.end, s, e) ==> b.status !in blocking) <==>
            forall k :: 0 <= k < |codes| && CodeOverlaps(origin, step, k, s, e) ==>
              codes[k] == '0' || Decode(codes[k]) !in blocking
  {
    var blocks := Blocks(codes, origin, step, 0);
    if b :| b in blocks && Overlaps(b.start, b.end, s, e) && b.status in blocking {
      BlocksCoverTheCodes(codes, origin, step, 0, s, e, b.status);
    }
    if k :| 0 <= k < |codes| && CodeOverlaps(origin, step, k, s, e) && codes[k] != '0' && Decode(codes[k]) in blocking {
      BlocksCoverTheCodes(codes, origin, step, 0, s, e, Decode(codes[k]));
    }
  }

  datatype Reason = NoDataThisFarAhead | Because(status: Status)

  datatype Blocker = Blocker(who: string, reason: Reason)

  /** The statuses of the blocks that reach into [s, e), in the order of the blocks. */
  function Statuses(blocks: seq<Block>, s: int, e: int): seq<Status> {
    if blocks == [] then []
    else
      (if Overlaps(blocks[0].start, blocks[0].end, s, e) then [blocks[0].status] else []) + Statuses(blocks[1..], s, e)
  }

  lemma {:induction false} StatusesMembers(blocks: seq<Block>, s: int, e: int)
    ensures forall st :: st in Statuses(blocks, s, e) <==> exists b <- blocks :: Overlaps(b.start, b.end, s, e) && b.status == st
  {
    if blocks == [] {
    } else {
      StatusesMembers(blocks[1..], s, e);
      assert blocks == [blocks[0]] + blocks[1..];
    }
  }

  function FirstIn(statuses: seq<Status>, blocking: set<Status>): (r: Option<Status>)
    ensures r.None? <==> forall st <- statuses :: st !in blocking
    ensures r.Some? ==> r.value in blocking && r.value in statuses
  {
    if statuses == [] then None
    else if statuses[0] in blocking then Some(statuses[0])
    else FirstIn(statuses[1..], blocking)
  }

  function Obstacle(p: Person, s: int, e: int, blocking: set<Status>): Option<Reason> {
    if e > p.dataUntil then Some(NoDataThisFarAhead)
    else
      match FirstIn(Statuses(p.blocks, s, e), blocking)
      case Some(st) => Some(Because(st))
      case None => None
  }

  predicate Away(p: Person, s: int, e: int, blocking: set<Status>) {
    Obstacle(p, s, e, blocking).None? && WorkingElsewhere in Statuses(p.blocks, s, e)
  }

  lemma NoObstacleIffFits(p: Person, s: int, e: int, blocking: set<Status>)
    ensures Obstacle(p, s, e, blocking).None? <==> PersonFits(p, s, e, blocking)
  {
    StatusesMembers(p.blocks, s, e);
  }

  /** One entry per person who cannot make it, in the order of the list. */
  function Blockers(people: seq<Person>, s: int, e: int, blocking: set<Status>): seq<Blocker> {
    if people == [] then []
    else BlockersOf(people[0], s, e, blocking) + Blockers(people[1..], s, e, blocking)
  }

  function BlockersOf(p: Person, s: int, e: int, blocking: set<Status>): seq<Blocker> {
    match Obstacle(p, s, e, blocking)
    case Some(reason) => [Blocker(p.who, reason)]
    case None => []
  }

  lemma {:induction false} NobodyBlocksIffFits(people: seq<Person>, s: int, e: int, blocking: set<Status>)
    ensures Blockers(people, s, e, blocking) == [] <==> Fits(people, s, e, blocking)
  {
    if people == [] {
    } else {
      NobodyBlocksIffFits(people[1..], s, e, blocking);
      NoObstacleIffFits(people[0], s, e, blocking);
      assert people == [people[0]] + people[1..];
    }
  }

  function ElsewhereOf(p: Person, s: int, e: int, blocking: set<Status>): seq<string> {
    if Away(p, s, e, blocking) then [p.who] else []
  }

  function Elsewhere(people: seq<Person>, s: int, e: int, blocking: set<Status>): seq<string> {
    if people == [] then []
    else ElsewhereOf(people[0], s, e, blocking) + Elsewhere(people[1..], s, e, blocking)
  }

  // ---- whom the lists name ----

  function CannotCome(s: int, e: int, blocking: set<Status>): Person -> bool {
    p => !PersonFits(p, s, e, blocking)
  }

  /** The entry names the person and says why: the data end before the slot does, or else the status of
      the first block reaching into the slot that counts. */
  predicate NamesReason(p: Person, b: Blocker, s: int, e: int, blocking: set<Status>) {
    && b.who == p.who
    && (b.reason == NoDataThisFarAhead <==> e > p.dataUntil)
    && (b.reason.Because? ==>
          exists i :: 0 <= i < |p.blocks| && IsFirstHit(p.blocks, i, s, e, blocking) && p.blocks[i].status == b.reason.status)
  }

  predicate IsFirstHit(blocks: seq<Block>, i: int, s: int, e: int, blocking: set<Status>)
    requires 0 <= i < |blocks|
  {
    && blocks[i].start < e && blocks[i].end > s && blocks[i].status in blocking
    && forall j :: 0 <= j < i && blocks[j].start < e && blocks[j].end > s ==> blocks[j].status !in blocking
  }

  function HasReason(s: int, e: int, blocking: set<Status>): (Person, Blocker) -> bool {
    (p: Person, b: Blocker) => NamesReason(p, b, s, e, blocking)
  }

  /** Free for the slot, and with a block of work elsewhere in it. */
  function WorksElsewhere(s: int, e: int, blocking: set<Status>): Person -> bool {
    p => PersonFits(p, s, e, blocking) && exists i :: 0 <= i < |p.blocks| && p.blocks[i].start < e && p.blocks[i].end > s
                                                     && p.blocks[i].status == WorkingElsewhere
  }

  function HasName(): (Person, string) -> bool { (p: Person, name: string) => name == p.who }

  /** The blockers are exactly the people who do not fit, in order, each with the right reason; those
      working elsewhere exactly the people who fit and do. */
  ghost predicate NamedRightly(people: seq<Person>, s: int, e: int, blocking: set<Status>,
                               blockers: seq<Blocker>, elsewhere: seq<string>) {
    && Selected(blockers, people, CannotCome(s, e, blocking), HasReason(s, e, blocking))
    && Selected(elsewhere, people, WorksElsewhere(s, e, blocking), HasName())
  }

  /** The people, by their place in the list, who cannot make a slot. */
  ghost function WhoCannot(people: seq<Person>, s: int, e: int, blocking: set<Status>): set<nat> {
    set i: nat | i < |people| && !PersonFits(people[i], s, e, blocking)
  }

  /** There are as many blockers. */
  lemma BlockersCount(people: seq<Person>, s: int, e: int, blocking: set<Status>)
    ensures |Blockers(people, s, e, blocking)| == |WhoCannot(people, s, e, blocking)|
  {
    BlockersAreThose(people, s, e, blocking);
    SelectedSize(Blockers(people, s, e, blocking), people, CannotCome(s, e, blocking), HasReason(s, e, blocking),
                 WhoCannot(people, s, e, blocking));
  }

  lemma {:induction false} FirstHit(blocks: seq<Block>, s: int, e: int, blocking: set<Status>) returns (i: nat)
    requires FirstIn(Statuses(blocks, s, e), blocking).Some?
    ensures i < |blocks| && IsFirstHit(blocks, i, s, e, blocking)
    ensures blocks[i].status == FirstIn(Statuses(blocks, s, e), blocking).value
  {
    var b := blocks[0];
    if Overlaps(b.start, b.end, s, e) && b.status in blocking {
      i := 0;
    } else {
      assert FirstIn(Statuses(blocks, s, e), blocking) == FirstIn(Statuses(blocks[1..], s, e), blocking) by {
        if Overlaps(b.start, b.end, s, e) {
          assert ([b.status] + Statuses(blocks[1..], s, e))[1..] == Statuses(blocks[1..], s, e);
        } else {
          assert [] + Statuses(blocks[1..], s, e) == Statuses(blocks[1..], s, e);
        }
      }
      var j := FirstHit(blocks[1..], s, e, blocking);
      i := j + 1;
    }
  }

  lemma BlockersOfIs(p: Person, s: int, e: int, blocking: set<Status>)
    ensures var bs := BlockersOf(p, s, e, blocking);
            if CannotCome(s, e, blocking)(p) then |bs| == 1 && HasReason(s, e, blocking)(p, bs[0]) else bs == []
  {
    NoObstacleIffFits(p, s, e, blocking);
    if e <= p.dataUntil && FirstIn(Statuses(p.blocks, s, e), blocking).Some? {
      var i := FirstHit(p.blocks, s, e, blocking);
    }
  }

  lemma ElsewhereOfIs(p: Person, s: int, e: int, blocking: set<Status>)
    ensures ElsewhereOf(p, s, e, blocking) == if WorksElsewhere(s, e, blocking)(p) then [p.who] else []
  {
    NoObstacleIffFits(p, s, e, blocking);
    StatusesMembers(p.blocks, s, e);
    if WorkingElsewhere in Statuses(p.blocks, s, e) {
      var b :| b in p.blocks && Overlaps(b.start, b.end, s, e) && b.status == WorkingElsewhere;
      var i :| 0 <= i < |p.blocks| && p.blocks[i] == b;
    }
    if i :| 0 <= i < |p.blocks| && p.blocks[i].start < e && p.blocks[i].end > s && p.blocks[i].status == WorkingElsewhere {
      assert p.blocks[i] in p.blocks;
    }
  }

  lemma BlockersAppend(people: seq<Person>, p: Person, s: int, e: int, blocking: set<Status>)
    ensures Blockers(people + [p], s, e, blocking) == Blockers(people, s, e, blocking) + BlockersOf(p, s, e, blocking)
    ensures Elsewhere(people + [p], s, e, blocking) == Elsewhere(people, s, e, blocking) + ElsewhereOf(p, s, e, blocking)
  {
    if people == [] {
      assert (people + [p])[1..] == [];
    } else {
      assert (people + [p])[1..] == people[1..] + [p];
      BlockersAppend(people[1..], p, s, e, blocking);
      Regroup(BlockersOf(people[0], s, e, blocking), Blockers(people[1..], s, e, blocking), BlockersOf(p, s, e, blocking));
      Regroup(ElsewhereOf(people[0], s, e, blocking), Elsewhere(people[1..], s, e, blocking), ElsewhereOf(p, s, e, blocking));
    }
  }

  lemma {:induction false} BlockersAreThose(people: seq<Person>, s: int, e: int, blocking: set<Status>)
    ensures NamedRightly(people, s, e, blocking, Blockers(people, s, e, blocking), Elsewhere(people, s, e, blocking))
  {
    if people == [] {
      SelectedNone(CannotCome(s, e, blocking), HasReason(s, e, blocking));
      SelectedNone(WorksElsewhere(s, e, blocking), HasName());
    } else {
      var rest, p := people[..|people| - 1], people[|people| - 1];
      assert people == rest + [p];
      BlockersAreThose(rest, s, e, blocking);
      BlockersAppend(rest, p, s, e, blocking);
      BlockersOfIs(p, s, e, blocking);
      ElsewhereOfIs(p, s, e, blocking);
      SelectedOneMore(Blockers(rest, s, e, blocking), rest, p, BlockersOf(p, s, e, blocking),
                      CannotCome(s, e, blocking), HasReason(s, e, blocking));
      SelectedOneMore(Elsewhere(rest, s, e, blocking), rest, p, ElsewhereOf(p, s, e, blocking),
                      WorksElsewhere(s, e, blocking), HasName());
    }
  }

  method SlotBlockers(people: seq<Person>, s: int, e: int, blocking: set<Status>)
    returns (blockers: seq<Blocker>, elsewhere: seq<string>)
    ensures NamedRightly(people, s, e, blocking, blockers, elsewhere)
    ensures blockers == [] <==> Fits(people, s, e, blocking)
  {
    blockers, elsewhere := Collect(people, s, e, blocking);
    BlockersAreThose(people, s, e, blocking);
  }

  /** Its loop. */
  method Collect(people: seq<Person>, s: int, e: int, blocking: set<Status>)
    returns (blockers: seq<Blocker>, elsewhere: seq<string>)
    ensures blockers == Blockers(people, s, e, blocking) && elsewhere == Elsewhere(people, s, e, blocking)
    ensures blockers == [] <==> Fits(people, s, e, blocking)
  {
    blockers, elsewhere := [], [];
    var i := 0;
    assert people[0..] == people;
    while i < |people|
      invariant 0 <= i <= |people|
      invariant blockers + Blockers(people[i..], s, e, blocking) == Blockers(people, s, e, blocking)
      invariant elsewhere + Elsewhere(people[i..], s, e, blocking) == Elsewhere(people, s, e, blocking)
    {
      var blocker, away := LookAt(people[i], s, e, blocking);
      assert people[i..][1..] == people[i + 1..];
      assert blockers + (blocker + Blockers(people[i + 1..], s, e, blocking)) ==
             (blockers + blocker) + Blockers(people[i + 1..], s, e, blocking);
      assert elsewhere + (away + Elsewhere(people[i + 1..], s, e, blocking)) ==
             (elsewhere + away) + Elsewhere(people[i + 1..], s, e, blocking);
      blockers, elsewhere := blockers + blocker, elsewhere + away;
      i := i + 1;
    }
    NobodyBlocksIffFits(people, s, e, blocking);
  }

  /** One person's part of the loop. */
  method LookAt(p: Person, s: int, e: int, blocking: set<Status>) returns (blocker: seq<Blocker>, away: seq<string>)
    ensures blocker == BlockersOf(p, s, e, blocking) && away == ElsewhereOf(p, s, e, blocking)
  {
    if e > p.dataUntil {
      return [Blocker(p.who, NoDataThisFarAhead)], [];
    }
    var statuses := Statuses(p.blocks, s, e);
    var hit := FirstIn(statuses, blocking);
    if hit.Some? {
      return [Blocker(p.who, Because(hit.value))], [];
    }
    return [], if WorkingElsewhere in statuses then [p.who] else [];
  }

  /** A slot that fails between two slots that fit lies across an obstacle that keeps those two
      apart: no slot of that length reaches from one into the other. */
  lemma ObstacleSeparates(people: seq<Person>, c1: int, c2: int, c3: int, duration: int, blocking: set<Status>)
    requires c1 < c2 < c3
    requires forall p <- people :: forall b <- p.blocks :: b.start < b.end
    requires Fits(people, c1, c1 + duration, blocking) && Fits(people, c3, c3 + duration, blocking)
    requires !Fits(people, c2, c2 + duration, blocking)
    ensures c1 + duration <= c3
  {
    var p :| p in people && !PersonFits(p, c2, c2 + duration, blocking);
    assert PersonFits(p, c1, c1 + duration, blocking) && PersonFits(p, c3, c3 + duration, blocking);
    var b :| b in p.blocks && Overlaps(b.start, b.end, c2, c2 + duration) && b.status in blocking;
    assert !Overlaps(b.start, b.end, c1, c1 + duration) && !Overlaps(b.start, b.end, c3, c3 + duration);
  }
}
