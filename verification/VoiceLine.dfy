/** The far end of a call (scripts/voiceline/server.py 69-133, 226-231): sentences are queued and
    played 20 ms at a time; the page can pause, resume and cut them.

    `VoiceProtocol` is the line as a value with its history, `VoiceLine` the class. The hold music
    that is added to a frame afterwards is not modelled. */
module VoiceProtocol {
  import opened Common

  const FRAME: nat := 960

  /** A sentence in the queue; `number` counts the sentences in the order in which they joined it. */
  datatype Clip = Clip(number: nat, id: string, pcm: seq<real>, pos: nat, started: bool)

  /** What is sent to the page about a sentence. */
  datatype Event = Started(number: nat) | Done(number: nat, cut: bool)

  /** `later` holds the events whose timers are running. The rest is history: every sentence ever
      queued, how far each one that left was played, and all the voice samples played. */
  datatype Line = Line(
    queue: seq<Clip>,
    paused: bool,
    sent: seq<Event>,
    later: seq<Event>,
    all: seq<seq<real>>,
    heard: seq<nat>,
    voice: seq<real>
  )

  function Initial(): Line { Line([], false, [], [], [], [], []) }

  datatype Action = Enqueue(id: string, pcm: seq<real>) | Pause | Resume | Stop | NextFrame | Fire(k: nat)

  // ---- the actions ----

  function Enqueued(s: Line, id: string, pcm: seq<real>): Line {
    s.(queue := s.queue + [Clip(|s.all|, id, pcm, 0, false)], all := s.all + [pcm])
  }

  function CutEvents(queue: seq<Clip>): seq<Event> {
    if queue == [] then [] else [Done(queue[0].number, true)] + CutEvents(queue[1..])
  }

  function Positions(queue: seq<Clip>): seq<nat> {
    if queue == [] then [] else [queue[0].pos] + Positions(queue[1..])
  }

  function Stopped(s: Line): Line {
    s.(queue := [], paused := false, sent := s.sent + CutEvents(s.queue), heard := s.heard + Positions(s.queue))
  }

  /** One turn of the frame loop: how much of the first sentence fits in what is left of the frame. */
  function Turn(s: Line, room: nat): (Line, nat)
    requires s.queue != [] && s.queue[0].pos <= |s.queue[0].pcm|
  {
    var clip := s.queue[0];
    var sent := if clip.started then s.sent else s.sent + [Started(clip.number)];
    var n := Min(room, |clip.pcm| - clip.pos);
    var voice := s.voice + clip.pcm[clip.pos..clip.pos + n];
    if clip.pos + n >= |clip.pcm| then
      (s.(queue := s.queue[1..], sent := sent, later := s.later + [Done(clip.number, false)],
          heard := s.heard + [clip.pos + n], voice := voice), n)
    else
      (s.(queue := s.queue[0 := clip.(pos := clip.pos + n, started := true)], sent := sent, voice := voice), n)
  }

  /** A turn in its two parts: the first sentence is announced if it was not yet, */
  function FirstBegun(s: Line): Line
    requires s.queue != []
  {
    var clip := s.queue[0];
    s.(queue := s.queue[0 := clip.(started := true)], sent := if clip.started then s.sent else s.sent + [Started(clip.number)])
  }

  /** and it advances. */
  function Advanced(s: Line, room: nat): (Line, nat)
    requires s.queue != [] && s.queue[0].pos <= |s.queue[0].pcm|
  {
    var clip := s.queue[0];
    var n := Min(room, |clip.pcm| - clip.pos);
    var voice := s.voice + clip.pcm[clip.pos..clip.pos + n];
    if clip.pos + n >= |clip.pcm| then
      (s.(queue := s.queue[1..], later := s.later + [Done(clip.number, false)], heard := s.heard + [clip.pos + n], voice := voice), n)
    else
      (s.(queue := s.queue[0 := clip.(pos := clip.pos + n)], voice := voice), n)
  }

  lemma AdvancedIs(s: Line, t: Line, room: nat, n: nat)
    requires s.queue != [] && s.queue[0].pos <= |s.queue[0].pcm| && n == Min(room, |s.queue[0].pcm| - s.queue[0].pos)
    requires t.paused == s.paused && t.sent == s.sent && t.all == s.all
    requires var c := s.queue[0];
             && t.voice == s.voice + c.pcm[c.pos..c.pos + n]
             && (if c.pos + n >= |c.pcm| then t.queue == s.queue[1..] else t.queue == s.queue[0 := c.(pos := c.pos + n)])
             && t.later == s.later + (if c.pos + n >= |c.pcm| then [Done(c.number, false)] else [])
             && t.heard == s.heard + (if c.pos + n >= |c.pcm| then [c.pos + n] else [])
    ensures Advanced(s, room) == (t, n)
  {
    assert s.later + [] == s.later && s.heard + [] == s.heard;
  }

  lemma TurnInTwo(s: Line, room: nat)
    requires s.queue != [] && s.queue[0].pos <= |s.queue[0].pcm|
    ensures Turn(s, room) == Advanced(FirstBegun(s), room)
  {
    var clip := s.queue[0].(started := true);
    assert s.queue[0 := clip][1..] == s.queue[1..];
    var n := Min(room, |clip.pcm| - clip.pos);
    var moved := clip.(pos := clip.pos + n);
    assert s.queue[0 := clip][0 := moved] == s.queue[0 := moved];
  }

  predicate Sound(s: Line) {
    forall k :: 0 <= k < |s.queue| ==> s.queue[k].pos <= |s.queue[k].pcm|
  }

  /** Turns until the frame is full or there is nothing to play. Sentences without samples cost a
      turn each and nothing else. */
  function Filled(s: Line, room: nat): (r: Line)
    requires Sound(s)
    decreases |s.queue|, room
  {
    if room == 0 || s.queue == [] || s.paused then s
    else
      var (t, n) := Turn(s, room);
      TurnIsSound(s, room);
      Filled(t, room - n)
  }

  lemma TurnIsSound(s: Line, room: nat)
    requires Sound(s) && s.queue != []
    ensures var (t, n) := Turn(s, room);
            && Sound(t) && n <= room && t.paused == s.paused
            && (|t.queue| < |s.queue| || (|t.queue| == |s.queue| && n == room))
            && |t.voice| == |s.voice| + n && t.voice[..|s.voice|] == s.voice
  {
    var (t, n) := Turn(s, room);
    if |t.queue| < |s.queue| {
      assert forall k :: 0 <= k < |t.queue| ==> t.queue[k] == s.queue[k + 1];
    }
  }

  /** The loop's own step: one turn, then the rest of the frame. */
  lemma FilledStep(s: Line, room: nat)
    requires Sound(s) && room > 0 && s.queue != [] && !s.paused
    ensures var (t, n) := Turn(s, room);
            && Sound(t) && n <= room && !t.paused && Filled(s, room) == Filled(t, room - n)
            && (|t.queue| < |s.queue| || (|t.queue| == |s.queue| && n == room))
  {
    TurnIsSound(s, room);
  }

  predicate Enabled(s: Line, a: Action) {
    match a
    case Fire(k) => k < |s.later|
    case NextFrame => Sound(s)
    case _ => true
  }

  function Apply(s: Line, a: Action): Line
    requires Enabled(s, a)
  {
    match a
    case Enqueue(id, pcm) => Enqueued(s, id, pcm)
    case Pause => s.(paused := true)
    case Resume => s.(paused := false)
    case Stop => Stopped(s)
    case NextFrame => Filled(s, FRAME)
    case Fire(k) => s.(sent := s.sent + [s.later[k]], later := s.later[..k] + s.later[k + 1..])
  }

  // ---- a frame ----

  /** The samples of a frame: the voice played in it, then silence. */
  function Frame(s: Line): (out: seq<real>)
    requires Sound(s)
    ensures |out| == FRAME
  {
    FilledAdds(s, FRAME);
    Padded(Filled(s, FRAME).voice[|s.voice|..])
  }

  function Padded(played: seq<real>): (out: seq<real>)
    requires |played| <= FRAME
    ensures |out| == FRAME && out[..|played|] == played
    ensures forall i :: |played| <= i < FRAME ==> out[i] == 0.0
  {
    played + seq(FRAME - |played|, i => 0.0)
  }

  /** A frame falls short only when paused or when nothing is left to play. */
  lemma {:induction false} FilledAdds(s: Line, room: nat)
    requires Sound(s)
    ensures var t := Filled(s, room);
            && Sound(t) && t.paused == s.paused
            && |s.voice| <= |t.voice| <= |s.voice| + room && t.voice[..|s.voice|] == s.voice
            && (|t.voice| < |s.voice| + room ==> s.paused || t.queue == [])
    decreases |s.queue|, room
  {
    if room != 0 && s.queue != [] && !s.paused {
      var (t, n) := Turn(s, room);
      TurnIsSound(s, room);
      FilledAdds(t, room - n);
      assert Filled(t, room - n).voice[..|s.voice|] == Filled(t, room - n).voice[..|t.voice|][..|s.voice|];
    }
  }

  // ---- the invariant ----

  /** What was heard of the sentences that have left, one after the other. */
  function Heard(all: seq<seq<real>>, heard: seq<nat>): seq<real>
    requires |heard| <= |all| && forall i :: 0 <= i < |heard| ==> heard[i] <= |all[i]|
  {
    if heard == [] then []
    else
      var i := |heard| - 1;
      Heard(all, heard[..i]) + all[i][..heard[i]]
  }

  /** What has been played of the first sentence of a queue. */
  function Playing(queue: seq<Clip>): seq<real> {
    if queue == [] || queue[0].pos > |queue[0].pcm| then [] else queue[0].pcm[..queue[0].pos]
  }

  predicate Histories(s: Line) {
    |s.heard| + |s.queue| == |s.all| && forall i :: 0 <= i < |s.heard| ==> s.heard[i] <= |s.all[i]|
  }

  /** The queue holds the sentences that have not left, in order; only the first may have begun. */
  predicate QueueInOrder(s: Line)
    requires Histories(s)
  {
    forall k :: 0 <= k < |s.queue| ==>
      var c := s.queue[k];
      && c.number == |s.heard| + k && c.pcm == s.all[c.number] && c.pos <= |c.pcm|
      && (k > 0 ==> c.pos == 0 && !c.started)
      && (!c.started ==> c.pos == 0)
  }

  /** The voice played is the sentences in queue order: each one that left as far as it was heard,
      then the first one of the queue up to its position. */
  predicate VoiceInOrder(s: Line)
    requires Histories(s)
  {
    s.voice == Heard(s.all, s.heard) + Playing(s.queue)
  }

  function Dones(log: seq<Event>, i: nat): nat {
    if log == [] then 0 else Dones(log[..|log| - 1], i) + if log[|log| - 1].Done? && log[|log| - 1].number == i then 1 else 0
  }

  function Starts(log: seq<Event>, i: nat): nat {
    if log == [] then 0 else Starts(log[..|log| - 1], i) + if log[|log| - 1] == Started(i) then 1 else 0
  }

  predicate Begun(s: Line, i: nat) {
    |s.heard| <= i < |s.heard| + |s.queue| && s.queue[i - |s.heard|].started
  }

  /** A sentence that has left has exactly one `done`, sent or on its way, and one that has not has
      none. It has one `started` if it began, and never a second one. */
  predicate Counted(s: Line, i: nat) {
    && Dones(s.sent, i) + Dones(s.later, i) == (if i < |s.heard| then 1 else 0)
    && Starts(s.later, i) == 0
    && (if i < |s.heard| then Starts(s.sent, i) <= 1 else Starts(s.sent, i) == if Begun(s, i) then 1 else 0)
  }

  /** A sentence said to be done, and not cut, was heard in full. */
  predicate HeardOut(s: Line)
    requires Histories(s)
  {
    forall e <- s.sent + s.later :: e.Done? && !e.cut ==> e.number < |s.heard| && s.heard[e.number] == |s.all[e.number]|
  }

  /** A sentence played out has had its `started` before its `done`. */
  predicate Announced(sent: seq<Event>, later: seq<Event>) {
    && (forall e <- later :: e.Done? && !e.cut && Starts(sent, e.number) == 1)
    && (forall j :: 0 <= j < |sent| && sent[j].Done? && !sent[j].cut ==> Starts(sent[..j], sent[j].number) == 1)
  }

  ghost predicate Told(s: Line)
    requires Histories(s)
  {
    (forall i: nat :: Counted(s, i)) && HeardOut(s)
  }

  ghost predicate Inv(s: Line) {
    Histories(s) && QueueInOrder(s) && VoiceInOrder(s) && Told(s) && Announced(s.sent, s.later)
  }

  lemma CountAppend(log: seq<Event>, e: Event, i: nat)
    ensures Dones(log + [e], i) == Dones(log, i) + if e.Done? && e.number == i then 1 else 0
    ensures Starts(log + [e], i) == Starts(log, i) + if e == Started(i) then 1 else 0
  {
    assert (log + [e])[..|log|] == log;
  }

  lemma {:induction false} CountConcat(a: seq<Event>, b: seq<Event>, i: nat)
    ensures Dones(a + b, i) == Dones(a, i) + Dones(b, i)
    ensures Starts(a + b, i) == Starts(a, i) + Starts(b, i)
  {
    if b == [] {
      assert a + b == a;
    } else {
      assert (a + b)[..|a + b| - 1] == a + b[..|b| - 1];
      CountConcat(a, b[..|b| - 1], i);
    }
  }

  lemma StartAnnounces(sent: seq<Event>, later: seq<Event>, n: nat)
    requires Announced(sent, later) && forall e <- later :: e.number != n
    ensures Announced(sent + [Started(n)], later)
  {
    var more := sent + [Started(n)];
    forall e | e in later ensures Starts(more, e.number) == 1 {
      CountAppend(sent, Started(n), e.number);
    }
    forall j | 0 <= j < |more| && more[j].Done? && !more[j].cut ensures Starts(more[..j], more[j].number) == 1 {
      assert more[..j] == sent[..j];
    }
  }

  lemma CutsAnnounce(sent: seq<Event>, later: seq<Event>, cuts: seq<Event>)
    requires Announced(sent, later) && forall e <- cuts :: e.Done? && e.cut
    ensures Announced(sent + cuts, later)
  {
    var more := sent + cuts;
    forall e | e in later ensures Starts(more, e.number) == 1 {
      CountConcat(sent, cuts, e.number);
      NoStarts(cuts, e.number);
    }
    forall j | 0 <= j < |more| && more[j].Done? && !more[j].cut ensures Starts(more[..j], more[j].number) == 1 {
      assert more[..j] == sent[..j];
    }
  }

  lemma {:induction false} NoStarts(log: seq<Event>, i: nat)
    requires forall e <- log :: e.Done?
    ensures Starts(log, i) == 0
  {
    if log == [] {
    } else {
      assert log[|log| - 1] in log;
      NoStarts(log[..|log| - 1], i);
    }
  }

  lemma FireAnnounces(sent: seq<Event>, later: seq<Event>, k: nat)
    requires Announced(sent, later) && k < |later|
    ensures Announced(sent + [later[k]], later[..k] + later[k + 1..])
  {
    var more, rest := sent + [later[k]], later[..k] + later[k + 1..];
    assert later[k] in later;
    forall e | e in rest ensures e.Done? && !e.cut && Starts(more, e.number) == 1 {
      assert e in later;
      CountAppend(sent, later[k], e.number);
    }
    forall j | 0 <= j < |more| && more[j].Done? && !more[j].cut ensures Starts(more[..j], more[j].number) == 1 {
      assert more[..j] == sent[..j];
    }
  }

  lemma TurnAnnounces(s: Line, room: nat)
    requires Histories(s) && HeardOut(s) && Announced(s.sent, s.later) && Counted(s, |s.heard|)
    requires s.queue != [] && s.queue[0].number == |s.heard| && s.queue[0].pos <= |s.queue[0].pcm|
    ensures var t := Turn(s, room).0; Announced(t.sent, t.later)
  {
    var n := |s.heard|;
    OthersAreLater(s);
    StartAnnounces(s.sent, s.later, n);
    CountAppend(s.sent, Started(n), n);
    LaterAnnounces(if s.queue[0].started then s.sent else s.sent + [Started(n)], s.later, n);
  }

  lemma OthersAreLater(s: Line)
    requires Histories(s) && HeardOut(s) && Announced(s.sent, s.later)
    ensures forall e <- s.later :: e.number != |s.heard|
  {
    assert forall e <- s.later :: e in s.sent + s.later;
  }

  lemma LaterAnnounces(sent: seq<Event>, later: seq<Event>, n: nat)
    requires Announced(sent, later) && Starts(sent, n) == 1
    ensures Announced(sent, later + [Done(n, false)])
  {
  }

  lemma EnqueueKeepsInv(s: Line, id: string, pcm: seq<real>)
    requires Inv(s)
    ensures Inv(Enqueued(s, id, pcm))
  {
    var t := Enqueued(s, id, pcm);
    HeardOfMore(s.all, [pcm], s.heard);
    forall i: nat ensures Counted(t, i) {
      assert Counted(s, i) && Begun(t, i) == Begun(s, i);
    }
  }

  lemma {:induction false} HeardOfMore(all: seq<seq<real>>, more: seq<seq<real>>, heard: seq<nat>)
    requires |heard| <= |all| && forall i :: 0 <= i < |heard| ==> heard[i] <= |all[i]|
    ensures Heard(all + more, heard) == Heard(all, heard)
  {
    if heard == [] {
    } else {
      HeardOfMore(all, more, heard[..|heard| - 1]);
    }
  }

  lemma HeardOneMore(all: seq<seq<real>>, heard: seq<nat>, n: nat)
    requires |heard| < |all| && (forall i :: 0 <= i < |heard| ==> heard[i] <= |all[i]|) && n <= |all[|heard|]|
    ensures Heard(all, heard + [n]) == Heard(all, heard) + all[|heard|][..n]
  {
    assert (heard + [n])[..|heard|] == heard;
  }

  lemma TurnKeepsInv(s: Line, room: nat)
    requires Inv(s) && s.queue != []
    ensures Inv(Turn(s, room).0)
  {
    TurnKeepsOrder(s, room);
    TurnTells(s, room);
    assert Counted(s, |s.heard|) && s.queue[0].number == |s.heard|;
    TurnAnnounces(s, room);
  }

  lemma TurnKeepsOrder(s: Line, room: nat)
    requires Histories(s) && QueueInOrder(s) && VoiceInOrder(s) && s.queue != []
    ensures var t := Turn(s, room).0; Histories(t) && QueueInOrder(t) && VoiceInOrder(t)
  {
    TurnKeepsQueue(s, room);
    NothingPlayed(s);
    assert s.queue[0].number == |s.heard|;
    TurnKeepsVoice(s, room);
  }

  lemma TurnKeepsQueue(s: Line, room: nat)
    requires Histories(s) && QueueInOrder(s) && s.queue != []
    ensures var t := Turn(s, room).0; Histories(t) && QueueInOrder(t)
  {
    var t := Turn(s, room).0;
    assert s.queue[0].number == |s.heard|;
    if |t.queue| < |s.queue| {
      assert forall k :: 0 <= k < |t.queue| ==> t.queue[k] == s.queue[k + 1];
    }
  }

  lemma TurnKeepsVoice(s: Line, room: nat)
    requires Histories(s) && VoiceInOrder(s) && s.queue != []
    requires |s.heard| < |s.all| && s.queue[0].pcm == s.all[|s.heard|] && s.queue[0].pos <= |s.queue[0].pcm|
    requires Playing(s.queue[1..]) == [] && Histories(Turn(s, room).0)
    ensures VoiceInOrder(Turn(s, room).0)
  {
    var c, n := s.queue[0], Turn(s, room).1;
    VoiceAdds(Heard(s.all, s.heard), c.pcm, c.pos, n);
    if c.pos + n >= |c.pcm| {
      VoiceOfGone(s.all, s.heard, c.pos + n, s.queue[1..]);
    } else {
      assert Playing(s.queue[0 := c.(pos := c.pos + n, started := true)]) == c.pcm[..c.pos + n];
    }
  }

  lemma VoiceOfGone(all: seq<seq<real>>, heard: seq<nat>, n: nat, rest: seq<Clip>)
    requires |heard| < |all| && (forall i :: 0 <= i < |heard| ==> heard[i] <= |all[i]|) && n <= |all[|heard|]|
    requires Playing(rest) == []
    ensures Heard(all, heard) + all[|heard|][..n] == Heard(all, heard + [n]) + Playing(rest)
  {
    HeardOneMore(all, heard, n);
  }

  lemma NothingPlayed(s: Line)
    requires Histories(s) && QueueInOrder(s) && s.queue != []
    ensures Playing(s.queue[1..]) == []
  {
    if |s.queue| > 1 {
      assert s.queue[1].pos == 0;
    }
  }

  lemma VoiceAdds(before: seq<real>, pcm: seq<real>, pos: nat, n: nat)
    requires pos + n <= |pcm|
    ensures (before + pcm[..pos]) + pcm[pos..pos + n] == before + pcm[..pos + n]
  {
    assert pcm[..pos + n] == pcm[..pos] + pcm[pos..pos + n];
  }

  lemma TurnTells(s: Line, room: nat)
    requires Inv(s) && s.queue != [] && Histories(Turn(s, room).0)
    ensures Told(Turn(s, room).0)
  {
    var t := Turn(s, room).0;
    assert s.queue[0].number == |s.heard|;
    forall i: nat ensures Counted(t, i) {
      assert Counted(s, i);
      TurnCounts(s, room, i);
    }
    forall e | e in t.sent + t.later && e.Done? && !e.cut
      ensures e.number < |t.heard| && t.heard[e.number] == |t.all[e.number]|
    {
      if e in s.sent + s.later { }
    }
  }

  lemma TurnCounts(s: Line, room: nat, i: nat)
    requires Counted(s, i) && s.queue != [] && s.queue[0].number == |s.heard| && s.queue[0].pos <= |s.queue[0].pcm|
    ensures Counted(Turn(s, room).0, i)
  {
    TurnBegun(s, room, i);
    CountAppend(s.sent, Started(s.queue[0].number), i);
    CountAppend(s.later, Done(s.queue[0].number, false), i);
  }

  /** A turn begins the first sentence and no other. */
  lemma TurnBegun(s: Line, room: nat, i: nat)
    requires s.queue != [] && s.queue[0].pos <= |s.queue[0].pcm|
    ensures var t := Turn(s, room).0;
            if i == |s.heard| then i < |t.heard| || Begun(t, i) else Begun(t, i) == Begun(s, i)
  {
    var t := Turn(s, room).0;
    if |t.queue| < |s.queue| && |t.heard| <= i < |t.heard| + |t.queue| {
      assert t.queue[i - |t.heard|] == s.queue[i - |s.heard|];
    }
  }

  lemma OneTurn(s: Line, room: nat) returns (t: Line, n: nat)
    requires Sound(s) && Inv(s) && room > 0 && s.queue != [] && !s.paused
    ensures Sound(t) && Inv(t) && n <= room && Filled(s, room) == Filled(t, room - n)
    ensures |t.queue| < |s.queue| || (|t.queue| == |s.queue| && n == room)
  {
    FilledStep(s, room);
    n := Turn(s, room).1;
    t := InvAfterTurn(s, room);
  }

  lemma InvAfterTurn(s: Line, room: nat) returns (t: Line)
    requires Sound(s) && Inv(s) && s.queue != []
    ensures t == Turn(s, room).0 && Inv(t)
  {
    TurnKeepsInv(s, room);
    t := Turn(s, room).0;
  }

  lemma {:induction false} FilledKeepsInv(s: Line, room: nat) returns (end: Line)
    requires Sound(s) && Inv(s)
    ensures end == Filled(s, room) && Inv(end)
    decreases |s.queue|, room
  {
    if room != 0 && s.queue != [] && !s.paused {
      var t, n := OneTurn(s, room);
      end := FilledKeepsInv(t, room - n);
    } else {
      end := s;
    }
  }

  // ---- stop ----

  /** Behind the first sentence nothing has been heard. */
  lemma {:induction false} HeardUnplayed(all: seq<seq<real>>, heard: seq<nat>, queue: seq<Clip>)
    requires |heard| + |queue| <= |all| && forall i :: 0 <= i < |heard| ==> heard[i] <= |all[i]|
    requires forall c <- queue :: c.pos == 0
    ensures |Positions(queue)| == |queue| && forall p <- Positions(queue) :: p == 0
    ensures forall i :: 0 <= i < |heard + Positions(queue)| ==> (heard + Positions(queue))[i] <= |all[i]|
    ensures Heard(all, heard + Positions(queue)) == Heard(all, heard)
    decreases |queue|
  {
    if queue == [] {
      assert heard + [] == heard;
    } else {
      assert queue == [queue[0]] + queue[1..];
      HeardOneMore(all, heard, 0);
      HeardUnplayed(all, heard + [0], queue[1..]);
      assert (heard + [0]) + Positions(queue[1..]) == heard + Positions(queue);
    }
  }

  lemma {:induction false} CutsTell(queue: seq<Clip>, first: nat, i: nat)
    requires forall k :: 0 <= k < |queue| ==> queue[k].number == first + k
    ensures Dones(CutEvents(queue), i) == if first <= i < first + |queue| then 1 else 0
    ensures Starts(CutEvents(queue), i) == 0
    ensures forall e <- CutEvents(queue) :: e.Done? && e.cut
  {
    if queue == [] {
    } else {
      var e := Done(queue[0].number, true);
      CutsTell(queue[1..], first + 1, i);
      CountConcat([e], CutEvents(queue[1..]), i);
      assert [e][..0] == [];
      assert Dones([e], i) == (if first == i then 1 else 0) && Starts([e], i) == 0;
    }
  }

  lemma StopKeepsInv(s: Line)
    requires Inv(s)
    ensures Inv(Stopped(s))
  {
    StopKeepsOrder(s);
    StopTells(s);
    CutsTell(s.queue, |s.heard|, 0);
    CutsAnnounce(s.sent, s.later, CutEvents(s.queue));
  }

  lemma StopKeepsOrder(s: Line)
    requires Histories(s) && QueueInOrder(s) && VoiceInOrder(s)
    ensures var t := Stopped(s); Histories(t) && QueueInOrder(t) && VoiceInOrder(t)
    ensures Stopped(s).heard[..|s.heard|] == s.heard
  {
    if s.queue == [] {
      assert Stopped(s).heard == s.heard;
    } else {
      assert s.queue[0].number == |s.heard|;
      forall d | d in s.queue[1..] ensures d.pos == 0 {
        var k :| 0 <= k < |s.queue| - 1 && s.queue[1..][k] == d;
        assert s.queue[k + 1] == d;
      }
      CutAtPositions(s.all, s.heard, s.queue);
    }
  }

  /** A queue that is cut was heard as far as its first sentence was played. */
  lemma CutAtPositions(all: seq<seq<real>>, heard: seq<nat>, queue: seq<Clip>)
    requires |heard| + |queue| == |all| && (forall i :: 0 <= i < |heard| ==> heard[i] <= |all[i]|) && queue != []
    requires queue[0].pcm == all[|heard|] && queue[0].pos <= |queue[0].pcm| && forall d <- queue[1..] :: d.pos == 0
    ensures var h := heard + Positions(queue);
            && |h| == |all| && (forall i :: 0 <= i < |h| ==> h[i] <= |all[i]|)
            && Heard(all, h) == Heard(all, heard) + Playing(queue)
  {
    HeardOneMore(all, heard, queue[0].pos);
    HeardUnplayed(all, heard + [queue[0].pos], queue[1..]);
    Regroup(heard, [queue[0].pos], Positions(queue[1..]));
  }

  lemma StopTells(s: Line)
    requires Inv(s) && Histories(Stopped(s)) && Stopped(s).heard[..|s.heard|] == s.heard
    ensures Told(Stopped(s))
  {
    forall i: nat ensures Counted(Stopped(s), i) {
      assert Counted(s, i);
      StopCounts(s, i);
    }
    CutsTell(s.queue, |s.heard|, 0);
    StopHeardOut(s);
  }

  lemma StopCounts(s: Line, i: nat)
    requires Histories(s) && QueueInOrder(s) && Counted(s, i) && Histories(Stopped(s))
    ensures Counted(Stopped(s), i)
  {
    CutsTell(s.queue, |s.heard|, i);
    CountConcat(s.sent, CutEvents(s.queue), i);
  }

  lemma StopHeardOut(s: Line)
    requires Histories(s) && HeardOut(s) && Histories(Stopped(s)) && Stopped(s).heard[..|s.heard|] == s.heard
    requires forall e <- CutEvents(s.queue) :: e.Done? && e.cut
    ensures HeardOut(Stopped(s))
  {
    var t := Stopped(s);
    forall e | e in t.sent + t.later && e.Done? && !e.cut
      ensures e.number < |t.heard| && t.heard[e.number] == |t.all[e.number]|
    {
      assert e in s.sent + s.later;
      assert t.heard[e.number] == t.heard[..|s.heard|][e.number];
    }
  }

  lemma FireKeepsInv(s: Line, k: nat)
    requires Inv(s) && k < |s.later|
    ensures Inv(Apply(s, Fire(k)))
  {
    var t := Apply(s, Fire(k));
    forall i: nat ensures Counted(t, i) {
      assert Counted(s, i) && Begun(t, i) == Begun(s, i);
      MoveCounts(s.sent, s.later, k, i);
    }
    assert forall x <- t.sent + t.later :: x in s.sent + s.later;
    FireAnnounces(s.sent, s.later, k);
  }

  lemma MoveCounts(sent: seq<Event>, later: seq<Event>, k: nat, i: nat)
    requires k < |later| && Starts(later, i) == 0
    ensures var s1, l1 := sent + [later[k]], later[..k] + later[k + 1..];
            && Dones(s1, i) + Dones(l1, i) == Dones(sent, i) + Dones(later, i)
            && Starts(s1, i) == Starts(sent, i) && Starts(l1, i) == 0
  {
    var e, a, b := later[k], later[..k], later[k + 1..];
    assert later == (a + [e]) + b;
    CountAppend(sent, e, i);
    CountAppend(a, e, i);
    CountConcat(a + [e], b, i);
    CountConcat(a, b, i);
  }

  lemma PausingKeepsInv(s: Line, a: Action)
    requires Inv(s) && (a.Pause? || a.Resume?)
    ensures Inv(Apply(s, a))
  {
    forall i: nat ensures Counted(Apply(s, a), i) {
      assert Counted(s, i) && Begun(Apply(s, a), i) == Begun(s, i);
    }
  }

  lemma StepKeepsInv(s: Line, a: Action)
    requires Inv(s) && Enabled(s, a)
    ensures Inv(Apply(s, a))
  {
    match a
    case Enqueue(id, pcm) => EnqueueKeepsInv(s, id, pcm);
    case Stop => StopKeepsInv(s);
    case NextFrame => var end := FilledKeepsInv(s, FRAME);
    case Fire(k) => FireKeepsInv(s, k);
    case _ => PausingKeepsInv(s, a);
  }

  // ---- whole calls ----

  ghost predicate Possible(s: Line, actions: seq<Action>)
    decreases |actions|
  {
    actions == [] || (Enabled(s, actions[0]) && Possible(Apply(s, actions[0]), actions[1..]))
  }

  ghost function After(s: Line, actions: seq<Action>): Line
    requires Possible(s, actions)
    decreases |actions|
  {
    if actions == [] then s else After(Apply(s, actions[0]), actions[1..])
  }

  lemma {:induction false} CallKeepsInv(s: Line, actions: seq<Action>)
    requires Inv(s) && Possible(s, actions)
    ensures Inv(After(s, actions))
    decreases |actions|
  {
    if actions == [] {
    } else {
      StepKeepsInv(s, actions[0]);
      CallKeepsInv(Apply(s, actions[0]), actions[1..]);
    }
  }

  // ---- what the actions of a call leave behind ----

  /** The samples of the sentences that a call queues, and their ids. */
  function Spoken(actions: seq<Action>): seq<seq<real>> {
    if actions == [] then [] else (if actions[0].Enqueue? then [actions[0].pcm] else []) + Spoken(actions[1..])
  }

  function Names(actions: seq<Action>): seq<string> {
    if actions == [] then [] else (if actions[0].Enqueue? then [actions[0].id] else []) + Names(actions[1..])
  }

  /** Every sentence in the queue has the id it was queued with. */
  ghost predicate Named(s: Line, names: seq<string>) {
    |names| == |s.all| && forall c <- s.queue :: c.number < |names| && c.id == names[c.number]
  }

  lemma TurnKeepsNames(s: Line, room: nat, names: seq<string>)
    requires Sound(s) && s.queue != [] && Named(s, names)
    ensures Named(Turn(s, room).0, names) && Turn(s, room).0.all == s.all
  {
    var t := Turn(s, room).0;
    forall k | 0 <= k < |t.queue| ensures t.queue[k].number < |names| && t.queue[k].id == names[t.queue[k].number] {
      assert s.queue[0] in s.queue;
      assert |t.queue| < |s.queue| ==> t.queue[k] == s.queue[k + 1];
    }
  }

  lemma {:induction false} FrameKeepsNames(s: Line, room: nat, names: seq<string>) returns (end: Line)
    requires Sound(s) && Named(s, names)
    ensures end == Filled(s, room) && Named(end, names) && end.all == s.all
    decreases |s.queue|, room
  {
    if room == 0 || s.queue == [] || s.paused {
      end := s;
    } else {
      FilledStep(s, room);
      TurnKeepsNames(s, room, names);
      var t, n := Turn(s, room).0, Turn(s, room).1;
      end := FrameKeepsNames(t, room - n, names);
    }
  }

  lemma ActionNames(s: Line, a: Action, names: seq<string>)
    requires Enabled(s, a) && Sound(s) && Named(s, names)
    ensures Apply(s, a).all == s.all + if a.Enqueue? then [a.pcm] else []
    ensures Named(Apply(s, a), names + if a.Enqueue? then [a.id] else [])
  {
    assert names + [] == names && s.all + [] == s.all;
    if a.NextFrame? {
      var end := FrameKeepsNames(s, FRAME, names);
    }
  }

  /** All sentences ever queued are those of the call's actions, in order, under their ids. */
  lemma {:induction false} QueuedAreThose(s: Line, actions: seq<Action>, names: seq<string>)
    requires Inv(s) && Possible(s, actions) && Named(s, names)
    ensures After(s, actions).all == s.all + Spoken(actions)
    ensures Named(After(s, actions), names + Names(actions))
    decreases |actions|
  {
    if actions == [] {
      assert names + [] == names && s.all + [] == s.all;
    } else {
      var a := actions[0];
      var more := names + if a.Enqueue? then [a.id] else [];
      StepKeepsInv(s, a);
      ActionNames(s, a, names);
      QueuedAreThose(Apply(s, a), actions[1..], more);
      Regroup(s.all, if a.Enqueue? then [a.pcm] else [], Spoken(actions[1..]));
      Regroup(names, if a.Enqueue? then [a.id] else [], Names(actions[1..]));
    }
  }

  predicate Governs(a: Action) { a.Pause? || a.Resume? || a.Stop? }

  lemma PausingStep(s: Line, a: Action)
    requires Enabled(s, a)
    ensures Apply(s, a).paused == if Governs(a) then a.Pause? else s.paused
  {
    if a.NextFrame? {
      FilledAdds(s, FRAME);
    }
  }

  /** The voice is paused exactly if the last pause, resume or stop was a pause. */
  lemma {:induction false} LastOrderDecides(s: Line, actions: seq<Action>, k: nat)
    requires Possible(s, actions) && k < |actions|
    requires Governs(actions[k]) && forall j :: k < j < |actions| ==> !Governs(actions[j])
    ensures After(s, actions).paused == actions[k].Pause?
    decreases |actions|
  {
    PausingStep(s, actions[0]);
    if k == 0 {
      PausedStays(Apply(s, actions[0]), actions[1..]);
    } else {
      LastOrderDecides(Apply(s, actions[0]), actions[1..], k - 1);
    }
  }

  lemma {:induction false} PausedStays(s: Line, actions: seq<Action>)
    requires Possible(s, actions) && forall j :: 0 <= j < |actions| ==> !Governs(actions[j])
    ensures After(s, actions).paused == s.paused
    decreases |actions|
  {
    if actions != [] {
      PausingStep(s, actions[0]);
      PausedStays(Apply(s, actions[0]), actions[1..]);
    }
  }

  /** A frame announces the sentences that begin in it, and leaves word of those heard out to timers;
      a stop sends word of every sentence it cuts at once. */
  lemma {:induction false} FrameTells(s: Line, room: nat) returns (begun: seq<Event>, over: seq<Event>)
    requires Sound(s)
    ensures Filled(s, room).sent == s.sent + begun && forall e <- begun :: e.Started?
    ensures Filled(s, room).later == s.later + over && forall e <- over :: e.Done? && !e.cut
    decreases |s.queue|, room
  {
    if room == 0 || s.queue == [] || s.paused {
      begun, over := [], [];
    } else {
      var (t, n) := Turn(s, room);
      var c := s.queue[0];
      var first := if c.started then [] else [Started(c.number)];
      var gone := if c.pos + n >= |c.pcm| then [Done(c.number, false)] else [];
      assert t.sent == s.sent + first && t.later == s.later + gone;
      TurnIsSound(s, room);
      var b, o := FrameTells(t, room - n);
      Regroup(s.sent, first, b);
      Regroup(s.later, gone, o);
      begun, over := first + b, gone + o;
    }
  }

  lemma {:induction false} StopTellsAtOnce(s: Line) returns (cuts: seq<Event>)
    ensures Apply(s, Stop).sent == s.sent + cuts && Apply(s, Stop).later == s.later
    ensures |cuts| == |s.queue| && forall k :: 0 <= k < |cuts| ==> cuts[k] == Done(s.queue[k].number, true)
  {
    cuts := CutEvents(s.queue);
    CutsAre(s.queue);
  }

  lemma {:induction false} CutsAre(queue: seq<Clip>)
    ensures |CutEvents(queue)| == |queue|
    ensures forall k :: 0 <= k < |queue| ==> CutEvents(queue)[k] == Done(queue[k].number, true)
  {
    if queue != [] {
      CutsAre(queue[1..]);
    }
  }

  lemma InitialInv()
    ensures Inv(Initial())
  {
    var s := Initial();
    assert Heard(s.all, s.heard) == [] && Playing(s.queue) == [];
    forall i: nat ensures Counted(s, i) {
      assert Dones([], i) == 0 && Starts([], i) == 0;
    }
  }

  /** In any call, however it is paused, cut and resumed: the voice played is the queued sentences
      in order, each up to where it was cut, and every sentence that left the queue is told to the
      page exactly once. A sentence played out was heard in full, and exactly one `started` was sent for
      it, before its `done`. */
  lemma EveryCallIsFaithful(actions: seq<Action>)
    requires Possible(Initial(), actions)
    ensures var s := After(Initial(), actions);
            && Histories(s) && VoiceInOrder(s)
            && (forall i: nat :: Counted(s, i)) && HeardOut(s) && Announced(s.sent, s.later)
            && (forall e <- s.sent + s.later :: e.Done? && !e.cut ==> Starts(s.sent, e.number) == 1)
            && s.all == Spoken(actions) && Named(s, Names(actions))
  {
    InitialInv();
    QueuedAreThose(Initial(), actions, []);
    assert [] + Spoken(actions) == Spoken(actions) && [] + Names(actions) == Names(actions);
    CallKeepsInv(Initial(), actions);
    StartedExactlyOnce(After(Initial(), actions));
  }

  lemma StartedExactlyOnce(s: Line)
    requires Histories(s) && Told(s) && Announced(s.sent, s.later)
    ensures forall e <- s.sent + s.later :: e.Done? && !e.cut ==> Starts(s.sent, e.number) == 1
  {
    forall e | e in s.sent + s.later && e.Done? && !e.cut ensures Starts(s.sent, e.number) == 1 {
      assert Counted(s, e.number);
      if e !in s.later {
        StartedOnce(s.sent, s.later, e);
      }
    }
  }

  lemma StartedOnce(sent: seq<Event>, later: seq<Event>, e: Event)
    requires Announced(sent, later) && e in sent && e.Done? && !e.cut
    ensures Starts(sent, e.number) >= 1
  {
    var j :| 0 <= j < |sent| && sent[j] == e;
    TakeDrop(sent, j);
    CountConcat(sent[..j], sent[j..], e.number);
  }

  /** A frame is the voice played in it followed by silence, and it has silence only when the voice
      is paused or there is nothing left to say. */
  lemma FrameIsVoiceThenSilence(s: Line)
    requires Sound(s)
    ensures var t, out := Filled(s, FRAME), Frame(s);
            var n := |t.voice| - |s.voice|;
            && |out| == 960 && 0 <= n <= 960 && t.voice == s.voice + out[..n]
            && (forall i :: n <= i < 960 ==> out[i] == 0.0)
            && (n < 960 ==> s.paused || t.queue == [])
  {
    FilledAdds(s, FRAME);
    var played := Filled(s, FRAME).voice[|s.voice|..];
    TakeDrop(Filled(s, FRAME).voice, |s.voice|);
    assert Frame(s) == Padded(played);
  }

  /** k frames go by, and then the voice goes on. */
  function Held(k: nat): seq<Action> {
    if k == 0 then [Resume] else [NextFrame] + Held(k - 1)
  }

  /** A pause of any length costs the voice nothing: afterwards everything is as it was, and the
      frames in between are silent. */
  lemma {:induction false} PauseIsTransparent(s: Line, k: nat)
    requires Sound(s) && s.paused
    ensures forall i :: 0 <= i < FRAME ==> Frame(s)[i] == 0.0
    ensures Possible(s, Held(k)) && After(s, Held(k)) == s.(paused := false)
    decreases k
  {
    assert Filled(s, FRAME) == s;
    assert s.voice[|s.voice|..] == [];
    if k == 0 {
      var t := s.(paused := false);
      assert Held(k)[1..] == [] && Possible(t, []) && After(t, []) == t;
    } else {
      PauseIsTransparent(s, k - 1);
      assert Held(k)[1..] == Held(k - 1);
    }
  }
}

module VoiceLine {
  import opened Common
  import opened P = VoiceProtocol

  class Sentence {
    const number: nat
    const id: string
    const pcm: seq<real>
    var pos: nat
    var started: bool

    constructor (number: nat, id: string, pcm: seq<real>)
      ensures this.number == number && this.id == id && this.pcm == pcm && pos == 0 && !started
    {
      this.number, this.id, this.pcm := number, id, pcm;
      pos, started := 0, false;
    }

    ghost function Value(): Clip
      reads this
    {
      Clip(number, id, pcm, pos, started)
    }
  }

  ghost function Values(queue: seq<Sentence>): (r: seq<Clip>)
    reads queue
    ensures |r| == |queue| && forall k :: 0 <= k < |queue| ==> r[k] == queue[k].Value()
  {
    seq(|queue|, k requires 0 <= k < |queue| reads queue => queue[k].Value())
  }

  class Line {
    var queue: seq<Sentence>
    var paused: bool
    var sent: seq<Event>
    var later: seq<Event>
    var count: nat
    ghost var all: seq<seq<real>>
    ghost var heard: seq<nat>
    ghost var voice: seq<real>

    ghost function View(): P.Line
      reads this, queue
    {
      P.Line(Values(queue), paused, sent, later, all, heard, voice)
    }

    ghost predicate Valid()
      reads this, queue
    {
      && count == |all|
      && Distinct()
      && Sound(View())
    }

    constructor ()
      ensures Valid() && View() == Initial()
    {
      queue, paused, sent, later, count := [], false, [], [], 0;
      all, heard, voice := [], [], [];
    }

    method Enqueue(id: string, pcm: seq<real>)
      requires Valid()
      modifies this
      ensures Valid() && View() == Apply(old(View()), P.Enqueue(id, pcm))
    {
      var clip := new Sentence(count, id, pcm);
      queue, count := queue + [clip], count + 1;
      all := all + [pcm];
      assert Values(queue) == old(Values(queue)) + [clip.Value()];
    }

    method SetPaused(on: bool)
      requires Valid()
      modifies this
      ensures Valid() && View() == Apply(old(View()), if on then Pause else Resume) && paused == on
    {
      paused := on;
    }

    method Stop()
      requires Valid()
      modifies this
      ensures Valid() && View() == Apply(old(View()), P.Stop)
      ensures queue == [] && !paused
    {
      ghost var clips := Values(queue);
      paused := false;
      TellCuts(clips);
      heard := heard + Positions(clips);
      queue := [];
    }

    /** Every queued sentence is told to be cut. */
    method TellCuts(ghost clips: seq<Clip>)
      requires clips == Values(queue)
      modifies this`sent
      ensures sent == old(sent) + CutEvents(clips)
    {
      var i := 0;
      assert clips[0..] == clips;
      while i < |queue|
        invariant 0 <= i <= |queue|
        invariant sent + CutEvents(clips[i..]) == old(sent) + CutEvents(clips)
      {
        DropOne(clips, i);
        Regroup(sent, [Done(queue[i].number, true)], CutEvents(clips[i + 1..]));
        sent := sent + [Done(queue[i].number, true)];
        i := i + 1;
      }
      assert sent + [] == sent && clips[|clips|..] == [];
    }

    ghost predicate Distinct()
      reads this
    {
      forall i, j :: 0 <= i < j < |queue| ==> queue[i] != queue[j]
    }

    method Announce()
      requires Distinct() && queue != []
      modifies this`sent, queue[0]
      ensures View() == FirstBegun(old(View()))
    {
      var clip := queue[0];
      ghost var was := Values(queue);
      if !clip.started {
        clip.started := true;
        sent := sent + [Started(clip.number)];
      }
      assert Values(queue) == was[0 := clip.Value()];
    }

    method Advance(n: nat)
      requires Distinct() && queue != []
      modifies queue[0]
      ensures queue[0].pos == old(queue[0].pos) + n
      ensures Values(queue) == old(Values(queue))[0 := old(queue[0].Value()).(pos := queue[0].pos)]
    {
      ghost var was := Values(queue);
      queue[0].pos := queue[0].pos + n;
      assert Values(queue) == was[0 := queue[0].Value()];
    }

    method Finish()
      requires queue != []
      modifies this`queue, this`later, this`heard
      ensures queue == old(queue[1..]) && Values(queue) == old(Values(queue))[1..]
      ensures later == old(later) + [Done(old(queue[0].number), false)] && heard == old(heard) + [old(queue[0].pos)]
    {
      later := later + [Done(queue[0].number, false)];
      heard := heard + [queue[0].pos];
      queue := queue[1..];
    }

    /** The first sentence moves on by n samples, and leaves the queue at its end. */
    method MoveOn(n: nat)
      requires Distinct() && queue != [] && queue[0].pos + n <= |queue[0].pcm|
      modifies this`queue, this`later, this`heard, queue[0]
      ensures var s := old(View());
              var c := s.queue[0].(pos := s.queue[0].pos + n);
              && (if c.pos >= |c.pcm| then queue == old(queue[1..]) && Values(queue) == s.queue[1..]
                  else queue == old(queue) && Values(queue) == s.queue[0 := c])
              && later == s.later + (if c.pos >= |c.pcm| then [Done(c.number, false)] else [])
              && heard == s.heard + (if c.pos >= |c.pcm| then [c.pos] else [])
    {
      assert Values(queue)[0] == queue[0].Value();
      Advance(n);
      if queue[0].pos >= |queue[0].pcm| {
        Finish();
      }
    }

    method PlayOn(room: nat) returns (samples: seq<real>)
      requires Distinct() && queue != [] && queue[0].pos <= |queue[0].pcm|
      modifies this`queue, this`later, this`heard, this`voice, queue[0]
      ensures View() == Advanced(old(View()), room).0 && |samples| == Advanced(old(View()), room).1
      ensures voice == old(voice) + samples
      ensures queue == old(queue) || queue == old(queue[1..])
    {
      ghost var t := View();
      assert t.queue[0] == queue[0].Value();
      var n := Min(room, |queue[0].pcm| - queue[0].pos);
      samples := queue[0].pcm[queue[0].pos..queue[0].pos + n];
      MoveOn(n);
      voice := voice + samples;
      AdvancedIs(t, View(), room, n);
    }

    /** One turn of the frame loop: the samples of the first sentence that go into the frame. */
    method TakeTurn(room: nat) returns (samples: seq<real>)
      requires Valid() && queue != []
      modifies this, queue[0]
      ensures View() == Turn(old(View()), room).0 && |samples| == Turn(old(View()), room).1
      ensures voice == old(voice) + samples && count == old(count)
      ensures queue == old(queue) || queue == old(queue[1..])
    {
      assert View().queue[0] == queue[0].Value();
      TurnInTwo(View(), room);
      Announce();
      samples := PlayOn(room);
    }

    /** Part of a frame is done: the frame begins with what has been played, and what is left of it
        leads to where the whole frame leads. */
    ghost predicate Filling(out: array<real>, filled: nat, before: P.Line)
      reads this, queue, out
    {
      && Valid() && Sound(before) && filled <= FRAME == out.Length
      && Filled(View(), FRAME - filled) == Filled(before, FRAME)
      && voice == before.voice + out[..filled]
      && forall i :: filled <= i < FRAME ==> out[i] == 0.0
    }

    method Play(out: array<real>, filled: nat, ghost before: P.Line) returns (now: nat)
      requires Filling(out, filled, before) && queue != [] && !paused && filled < FRAME
      modifies this, queue[0], out
      ensures Filling(out, now, before) && !paused
      ensures queue == old(queue) || queue == old(queue[1..])
      ensures |queue| < old(|queue|) || now == FRAME
    {
      ghost var done := out[..filled];
      FilledStep(View(), FRAME - filled);
      var samples := TakeTurn(FRAME - filled);
      now := filled + |samples|;
      assert FRAME - now == (FRAME - filled) - |samples|;
      Regroup(before.voice, done, samples);
      ghost var view := View();
      Place(out, filled, samples);
      assert View() == view && out[..now] == done + samples;
    }

    method NextFrame() returns (out: array<real>)
      requires Valid()
      modifies this, queue
      ensures Valid() && View() == Apply(old(View()), P.NextFrame)
      ensures fresh(out) && out[..] == Frame(old(View()))
    {
      out := new real[FRAME](i => 0.0);
      var filled: nat := 0;
      ghost var before := View();
      assert before.voice + out[..0] == before.voice;
      while filled < FRAME && queue != [] && !paused
        invariant filled <= FRAME && fresh(out) && Filling(out, filled, before)
        invariant forall c <- queue :: c in old(queue)
        decreases |queue|, FRAME - filled
      {
        assert queue[0] in queue;
        filled := Play(out, filled, before);
      }
      FilledAdds(before, FRAME);
      assert voice[|before.voice|..] == out[..filled];
    }
  }

  method Place(out: array<real>, at: nat, samples: seq<real>)
    requires at + |samples| <= out.Length
    modifies out
    ensures out[..at + |samples|] == old(out[..at]) + samples
    ensures forall i :: at + |samples| <= i < out.Length ==> out[i] == old(out[i])
  {
    forall i | 0 <= i < |samples| {
      out[at + i] := samples[i];
    }
  }
}
