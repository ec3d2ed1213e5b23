/** Runs of the work tabs put together from parts. */
module TabsRuns {
  import opened Common
  import opened TabsProtocol

  lemma {:induction false} Joined(w: Worker, xs: seq<Event>, ys: seq<Event>)
    requires Possible(w, xs)
    ensures Possible(w, xs + ys) <==> Possible(After(w, xs), ys)
    ensures Possible(w, xs + ys) ==> After(w, xs + ys) == After(After(w, xs), ys)
    decreases |xs|
  {
    if xs == [] {
      assert xs + ys == ys;
    } else {
      assert (xs + ys)[1..] == xs[1..] + ys;
      Joined(Apply(w, xs[0]), xs[1..], ys);
    }
  }

  lemma {:induction false} SplitRun(w: Worker, events: seq<Event>, i: nat)
    requires i <= |events| && Possible(w, events)
    ensures Possible(w, events[..i]) && Possible(After(w, events[..i]), events[i..])
    ensures After(w, events) == After(After(w, events[..i]), events[i..])
    decreases i
  {
    if i == 0 {
      assert events[..0] == [] && events[0..] == events;
    } else {
      SplitRun(Apply(w, events[0]), events[1..], i - 1);
      assert events[..i][1..] == events[1..][..i - 1] && events[1..][i - 1..] == events[i..];
    }
  }

  /** Every call of the browser succeeds; a new tab gets this id and window. */
  function Fine(newTab: nat, window: nat): Answer { Answer(true, None, false, newTab, window, None, None) }

  /** A handler runs `n` pieces with nothing else in between. */
  function Steps(k: nat, a: Answer, n: nat): seq<Event> {
    if n == 0 then [] else [Step(k, a)] + Steps(k, a, n - 1)
  }

  ghost predicate Leads(w: Worker, events: seq<Event>, t: Worker) { Possible(w, events) && After(w, events) == t }

  lemma LeadsOn(w: Worker, events: seq<Event>, v: Worker, more: seq<Event>, t: Worker)
    requires Leads(w, events, v) && Leads(v, more, t)
    ensures Leads(w, events + more, t)
  {
    Joined(w, events, more);
  }

  lemma OneEvent(w: Worker, e: Event)
    requires Enabled(w, e)
    ensures Leads(w, [e], Apply(w, e))
  {
    assert [e][1..] == [];
  }

  lemma {:induction false} MoreSteps(k: nat, a: Answer, m: nat, n: nat)
    ensures Steps(k, a, m) + Steps(k, a, n) == Steps(k, a, m + n)
  {
    if m == 0 {
      assert Steps(k, a, 0) + Steps(k, a, n) == Steps(k, a, n);
    } else {
      MoreSteps(k, a, m - 1, n);
      assert Steps(k, a, m) + Steps(k, a, n) == [Step(k, a)] + (Steps(k, a, m - 1) + Steps(k, a, n));
    }
  }

  lemma StepsLeadOn(w: Worker, k: nat, a: Answer, m: nat, v: Worker, n: nat, t: Worker)
    requires Leads(w, Steps(k, a, m), v) && Leads(v, Steps(k, a, n), t)
    ensures Leads(w, Steps(k, a, m + n), t)
  {
    LeadsOn(w, Steps(k, a, m), v, Steps(k, a, n), t);
    MoreSteps(k, a, m, n);
  }

  lemma FourEvents(w: Worker, events: seq<Event>, w1: Worker, w2: Worker, w3: Worker, w4: Worker)
    requires |events| == 4
    requires Enabled(w, events[0]) && w1 == Apply(w, events[0])
    requires Enabled(w1, events[1]) && w2 == Apply(w1, events[1])
    requires Enabled(w2, events[2]) && w3 == Apply(w2, events[2])
    requires Enabled(w3, events[3]) && w4 == Apply(w3, events[3])
    ensures Leads(w, events, w4)
  {
    assert Leads(w4, events[4..], w4);
    assert events[1..][1..] == events[2..] && events[2..][1..] == events[3..] && events[3..][1..] == events[4..];
    assert Leads(w3, events[3..], w4);
    assert Leads(w2, events[2..], w4);
    assert Leads(w1, events[1..], w4);
  }

  lemma FourPieces(w: Worker, k: nat, a: Answer, w1: Worker, w2: Worker, w3: Worker, w4: Worker)
    requires Enabled(w, Step(k, a)) && w1 == Piece(w, k, a)
    requires Enabled(w1, Step(k, a)) && w2 == Piece(w1, k, a)
    requires Enabled(w2, Step(k, a)) && w3 == Piece(w2, k, a)
    requires Enabled(w3, Step(k, a)) && w4 == Piece(w3, k, a)
    ensures Leads(w, Steps(k, a, 4), w4)
  {
    var steps := [Step(k, a), Step(k, a), Step(k, a), Step(k, a)];
    assert Steps(k, a, 4) == steps by {
      assert Steps(k, a, 1) == [Step(k, a)] + Steps(k, a, 0);
      assert Steps(k, a, 2) == [Step(k, a)] + Steps(k, a, 1);
      assert Steps(k, a, 3) == [Step(k, a)] + Steps(k, a, 2);
    }
    FourEvents(w, steps, w1, w2, w3, w4);
  }

  /** The current tabs. */
  predicate InMemory(w: Worker, m: Tabs) { w.mem.Some? && w.mem.value < |w.heap| && w.heap[w.mem.value] == m }

  // ---- `browser.open` for a chat without a tab, alone ----

  lemma OpeningCreates(w: Worker, k: nat, s: Session, m: Tabs, a: Answer) returns (t: Worker)
    requires k < |w.tasks| && InMemory(w, m) && w.tasks[k] == Use(w.mem.value, Find(s, ForOpen)) && s !in m
    requires a.ok && a.active == None && a.newTab !in w.used && HasTab(w.tabs, a.window)
    ensures Leads(w, Steps(k, a, 4), t) && InMemory(t, m) && t.mem == w.mem
    ensures t.tasks == w.tasks[k := Use(w.mem.value, Remember(s, a.newTab))]
    ensures t.tabs == WithTab(w.tabs, a.newTab, a.window) && t.used == w.used + {a.newTab} && t.focused == w.focused
    ensures t.deeds == w.deeds && t.creator == w.creator[a.newTab := s] && t.owned == w.owned[s := a.newTab]
  {
    var w1 := Became(w, k, Then(Missing(s, ForOpen)));
    var w2 := Became(w, k, Create(s));
    var w3 := Piece(w2, k, a);
    t := Became(w3, k, Use(w.mem.value, Remember(s, a.newTab)));
    FourPieces(w, k, a, w1, w2, w3, t);
  }

  lemma OpeningRemembers(w: Worker, k: nat, s: Session, tab: nat, m: Tabs, a: Answer) returns (t: Worker)
    requires InMemory(w, m) && k < |w.tasks| && w.tasks[k] == Use(w.mem.value, Remember(s, tab))
    requires a.ok && a.active == None
    ensures Leads(w, Steps(k, a, 4), t) && InMemory(t, Put(m, s, tab)) && t.tasks == w.tasks[k := Ended]
    ensures t.storage == Put(m, s, tab) && t.deeds == w.deeds
    ensures t.tabs == w.tabs && t.used == w.used && t.focused == w.focused && t.creator == w.creator && t.owned == w.owned
  {
    var more := Put(m, s, tab);
    var v := w.(heap := w.heap[w.mem.value := more]);
    var u := v.(storage := more);
    var w1 := Became(v, k, Stored(more, Finished));
    var w2 := Became(u, k, Then(Finished));
    t := Became(u, k, Ended);
    FourPieces(w, k, a, w1, w2, t, t);
  }

  /** `browser.open` for a chat without a tab, from where it has the remembered tabs. */
  lemma Opening(w: Worker, k: nat, s: Session, m: Tabs, a: Answer) returns (t: Worker)
    requires k < |w.tasks| && InMemory(w, m) && w.tasks[k] == Use(w.mem.value, Find(s, ForOpen)) && s !in m
    requires a.ok && a.active == None && a.newTab !in w.used && HasTab(w.tabs, a.window)
    ensures Leads(w, Steps(k, a, 8), t) && InMemory(t, Put(m, s, a.newTab)) && t.tasks == w.tasks[k := Ended]
    ensures t.tabs == WithTab(w.tabs, a.newTab, a.window) && t.used == w.used + {a.newTab} && t.focused == w.focused
    ensures t.storage == Put(m, s, a.newTab)
    ensures t.deeds == w.deeds && t.creator == w.creator[a.newTab := s] && t.owned == w.owned[s := a.newTab]
  {
    var v := OpeningCreates(w, k, s, m, a);
    t := OpeningRemembers(v, k, s, a.newTab, m, a);
    StepsLeadOn(w, k, a, 4, v, 4, t);
  }

  // ---- the user opens a window ----

  /** The user is in window 5, at tab 1. */
  function UserStarts(): seq<Event> { [Browse(map[1 := Tab(5, true)], Some(5))] }

  lemma UserIsThere() returns (t: Worker)
    ensures Leads(Initial(), UserStarts(), t) && t == Initial().(tabs := map[1 := Tab(5, true)], focused := Some(5), used := {1})
  {
    var e := UserStarts()[0];
    assert e.tabs[1] == Tab(5, true);
    t := Apply(Initial(), e);
    OneEvent(Initial(), e);
  }
}
