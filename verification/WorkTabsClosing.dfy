/** When a finished chat's tab is closed as the last one of its window (extension/background.js
    661-678).

    `closeWorkTab` counts the tabs of the window, and removes its own an await later. In between other
    chats' tabs can be closed. */
module TabsClosing {
  import opened Common
  import opened TabsProtocol
  import opened TabsRuns
  import opened TabsSight

  predicate Alone(w: Worker, tab: nat) {
    tab in w.tabs && CountIn(w.tabs, w.tabs[tab].window) <= 1
  }

  // ---- what handlers do to the browser ----

  /** A handler's step that closes a tab of the window. */
  predicate ClosesIn(w: Worker, e: Event, window: nat) {
    Closes(w, e) && w.tabs[w.tasks[e.k].tab].window == window
  }

  /** A handler's step that creates a tab in the window. */
  predicate Opens(w: Worker, e: Event, window: nat) {
    e.Step? && e.k < |w.tasks| && w.tasks[e.k].Create? && e.answer.ok && e.answer.window == window
  }

  function One(b: bool): nat { if b then 1 else 0 }

  ghost function Closings(w: Worker, events: seq<Event>, window: nat): nat
    requires Possible(w, events)
    decreases |events|
  {
    if events == [] then 0
    else One(ClosesIn(w, events[0], window)) + Closings(Apply(w, events[0]), events[1..], window)
  }

  ghost function Openings(w: Worker, events: seq<Event>, window: nat): nat
    requires Possible(w, events)
    decreases |events|
  {
    if events == [] then 0
    else One(Opens(w, events[0], window)) + Openings(Apply(w, events[0]), events[1..], window)
  }

  /** The user does nothing to tabs and windows. */
  predicate UserAway(events: seq<Event>) {
    forall i :: 0 <= i < |events| ==> !events[i].Browse?
  }

  lemma RestAway(events: seq<Event>)
    requires UserAway(events) && events != []
    ensures UserAway(events[1..]) && !events[0].Browse?
  {
  }

  lemma CountFronted(tabs: map<nat, Tab>, tab: nat, window: nat)
    ensures CountIn(Fronted(tabs, tab), window) == CountIn(tabs, window)
  {
    assert TabsIn(Fronted(tabs, tab), window) == TabsIn(tabs, window);
  }

  lemma CountWith(tabs: map<nat, Tab>, tab: nat, window: nat, home: nat)
    requires tab !in tabs
    ensures CountIn(WithTab(tabs, tab, home), window) == CountIn(tabs, window) + One(home == window)
  {
    var was, more := TabsIn(tabs, window), tabs[tab := Tab(home, true)];
    assert TabsIn(more, window) == if home == window then was + {tab} else was;
    CountFronted(more, tab, window);
  }

  lemma CountWithout(tabs: map<nat, Tab>, tab: nat, heir: Option<nat>, window: nat)
    requires tab in tabs
    ensures CountIn(tabs, window) == CountIn(WithoutTab(tabs, tab, heir), window) + One(tabs[tab].window == window)
  {
    var now := TabsIn(tabs - {tab}, window);
    assert TabsIn(tabs, window) == if tabs[tab].window == window then now + {tab} else now;
    if heir.Some? {
      CountFronted(tabs - {tab}, heir.value, window);
    }
  }

  /** A tab still there is in the window where it was. */
  lemma StaysInWindow(w: Worker, e: Event, tab: nat)
    requires Inv(w) && Enabled(w, e) && !e.Browse? && tab in w.used
    ensures var t := Apply(w, e);
            tab in t.used && (tab in t.tabs ==> tab in w.tabs && t.tabs[tab].window == w.tabs[tab].window)
  {
    StepsBrowser(w, e);
    StepStaysUsed(w, e, tab);
  }

  /** The numbers of tabs balance. */
  lemma StepBalances(w: Worker, e: Event, window: nat)
    requires Inv(w) && Enabled(w, e) && !e.Browse?
    ensures CountIn(Apply(w, e).tabs, window) + One(ClosesIn(w, e, window))
            == CountIn(w.tabs, window) + One(Opens(w, e, window))
  {
    StepsBrowser(w, e);
    if Closes(w, e) {
      CountWithout(w.tabs, w.tasks[e.k].tab, e.answer.heir, window);
    } else if e.Step? && w.tasks[e.k].Create? && e.answer.ok {
      CountWith(w.tabs, e.answer.newTab, window, e.answer.window);
    } else if e.Step? && w.tasks[e.k].Show? {
      CountFronted(w.tabs, w.tasks[e.k].tab, window);
    }
  }

  lemma {:induction false} RunBalances(w: Worker, events: seq<Event>, tab: nat, window: nat)
    requires Inv(w) && Possible(w, events) && UserAway(events) && tab in w.used
    ensures var t := After(w, events);
            && (tab in t.tabs ==> tab in w.tabs && t.tabs[tab].window == w.tabs[tab].window)
            && CountIn(t.tabs, window) + Closings(w, events, window)
               == CountIn(w.tabs, window) + Openings(w, events, window)
    decreases |events|
  {
    if events == [] {
    } else {
      StepKeepsInv(w, events[0]);
      StepBalances(w, events[0], window);
      StaysInWindow(w, events[0], tab);
      RestAway(events);
      RunBalances(Apply(w, events[0]), events[1..], tab, window);
    }
  }

  /** Whatever handlers do until the user acts again, a tab that is still there is alone in its window
      exactly if so many tabs of the window were closed. */
  lemma UntilTheUserActs(w: Worker, events: seq<Event>, tab: nat)
    requires Inv(w) && Possible(w, events) && UserAway(events) && tab in w.tabs
    ensures var t, window := After(w, events), w.tabs[tab].window;
            Alone(t, tab) <==>
            tab in t.tabs && CountIn(w.tabs, window) + Openings(w, events, window) <= 1 + Closings(w, events, window)
  {
    RunBalances(w, events, tab, w.tabs[tab].window);
  }

  // ---- the handler between its look and its removal ----

  /** The handler carries what it saw all the way. */
  predicate Carries(task: Task, s: Session, tab: nat, seen: Tab) {
    var next := Focus(s, tab, seen);
    match task
    case Load(job) => job == Forget(s, next)
    case Fetched(job) => job == Forget(s, next)
    case Arrived(_, job) => job == Forget(s, next)
    case Use(_, job) => job == Forget(s, next)
    case Stored(_, n) => n == next || n == Finished
    case Then(n) => n == next || n == Finished
    case Ended => true
    case Query(_, tab1, seen1, _) => tab1 == tab && seen1 == seen
    case Remove(_, tab1, seen1, _, _) => tab1 == tab && seen1 == seen
    case _ => false
  }

  lemma ThenCarries(w: Worker, k: nat, next: Next, focus: Option<nat>, s: Session, tab: nat, seen: Tab)
    requires k < |w.tasks| && (next == Finished || next == Focus(s, tab, seen))
    ensures var t := NextPiece(w, k, next, focus); |t.tasks| == |w.tasks| && Carries(t.tasks[k], s, tab, seen)
  {
  }

  lemma QueryCarries(w: Worker, k: nat, a: Answer, s: Session, tab: nat, seen: Tab)
    requires Enabled(w, Step(k, a)) && w.tasks[k].Query? && Carries(w.tasks[k], s, tab, seen)
    ensures var t := Piece(w, k, a); |t.tasks| == |w.tasks| && Carries(t.tasks[k], s, tab, seen)
  {
  }

  lemma OwnStepCarries(w: Worker, k: nat, a: Answer, s: Session, tab: nat, seen: Tab)
    requires Enabled(w, Step(k, a)) && Carries(w.tasks[k], s, tab, seen)
    ensures var t := Piece(w, k, a); |t.tasks| == |w.tasks| && Carries(t.tasks[k], s, tab, seen)
  {
    match w.tasks[k]
    case Use(obj, _) => UseOnTheWay(w, k, obj, s, Focus(s, tab, seen));
    case Then(next) => ThenCarries(w, k, next, if a.ok then w.focused else None, s, tab, seen);
    case Query(_, _, _, _) => QueryCarries(w, k, a, s, tab, seen);
    case _ =>
  }

  lemma {:induction false} RunCarries(w: Worker, events: seq<Event>, k: nat, s: Session, tab: nat, seen: Tab)
    requires Possible(w, events) && k < |w.tasks| && Carries(w.tasks[k], s, tab, seen)
    ensures k < |After(w, events).tasks| && Carries(After(w, events).tasks[k], s, tab, seen)
    decreases |events|
  {
    if events == [] {
    } else {
      if events[0].Step? && events[0].k == k {
        OwnStepCarries(w, k, events[0].answer, s, tab, seen);
      } else {
        OthersStay(w, events[0], k);
      }
      RunCarries(Apply(w, events[0]), events[1..], k, s, tab, seen);
    }
  }

  /** Once it has counted, the window has two tabs at least. */
  predicate Counted(w: Worker, k: nat, window: nat) {
    k < |w.tasks| && (w.tasks[k].Remove? && w.tasks[k].seen.window == window ==> CountIn(w.tabs, window) >= 2)
  }

  lemma NotToRemove(w: Worker, k: nat, a: Answer)
    requires Enabled(w, Step(k, a)) && !w.tasks[k].Query?
    ensures MovedOne(w, Piece(w, k, a), k) && !Piece(w, k, a).tasks[k].Remove?
  {
    PieceMovesOne(w, k, a);
    match w.tasks[k]
    case Use(obj, job) => UseMovesOne(w, k, obj, job);
    case Get(s, tab, goal) => GetMovesOne(w, k, s, tab, goal);
    case Then(next) => NextMovesOne(w, k, next, if a.ok then w.focused else None);
    case _ =>
  }

  /** Only the count itself leads to the removal. */
  lemma ReachesRemove(w: Worker, k: nat, a: Answer)
    requires Enabled(w, Step(k, a)) && k < |Piece(w, k, a).tasks| && Piece(w, k, a).tasks[k].Remove?
    ensures w.tasks[k].Query? && Piece(w, k, a).tasks[k].seen == w.tasks[k].seen && Piece(w, k, a).tabs == w.tabs
    ensures CountIn(w.tabs, w.tasks[k].seen.window) >= 2
  {
    if !w.tasks[k].Query? {
      NotToRemove(w, k, a);
      assert false;
    }
  }

  lemma StepStaysCounted(w: Worker, e: Event, k: nat, window: nat)
    requires Inv(w) && Enabled(w, e) && !e.Browse? && !ClosesIn(w, e, window) && Counted(w, k, window)
    ensures Counted(Apply(w, e), k, window)
  {
    StepBalances(w, e, window);
    if e.Step? && e.k == k {
      PieceMovesOne(w, k, e.answer);
      if Piece(w, k, e.answer).tasks[k].Remove? {
        ReachesRemove(w, k, e.answer);
      }
    } else {
      OthersStay(w, e, k);
    }
  }

  lemma {:induction false} RunStaysCounted(w: Worker, events: seq<Event>, k: nat, window: nat)
    requires Inv(w) && Possible(w, events) && UserAway(events) && Closings(w, events, window) == 0
    requires Counted(w, k, window)
    ensures Counted(After(w, events), k, window)
    decreases |events|
  {
    if events == [] {
    } else {
      StepKeepsInv(w, events[0]);
      StepStaysCounted(w, events[0], k, window);
      RestAway(events);
      RunStaysCounted(Apply(w, events[0]), events[1..], k, window);
    }
  }

  // ---- when a closing does harm ----

  lemma {:induction false} StaysUsed(w: Worker, events: seq<Event>, tab: nat)
    requires Possible(w, events) && tab in w.used
    ensures tab in After(w, events).used
    decreases |events|
  {
    if events == [] {
    } else {
      StepStaysUsed(w, events[0], tab);
      StaysUsed(Apply(w, events[0]), events[1..], tab);
    }
  }

  /** From a closing handler's look to its removal, while the user is away: its tab is alone exactly if
      enough tabs of the window were closed; if none was, it has company. */
  lemma ClosingWhileAway(w: Worker, events: seq<Event>, k: nat, s: Session, tab: nat)
    requires Inv(w) && Looked(w, k, s, tab) && Possible(w, events) && UserAway(events)
    requires AboutToRemove(After(w, events), k, tab)
    ensures var window := w.tabs[tab].window;
            && (Alone(After(w, events), tab) <==>
                tab in After(w, events).tabs
                && CountIn(w.tabs, window) + Openings(w, events, window) <= 1 + Closings(w, events, window))
            && (Closings(w, events, window) == 0 ==> !Alone(After(w, events), tab))
  {
    var seen := w.tabs[tab];
    UntilTheUserActs(w, events, tab);
    RunBalances(w, events, tab, seen.window);
    RunCarries(w, events, k, s, tab, seen);
    if Closings(w, events, seen.window) == 0 {
      RunStaysCounted(w, events, k, seen.window);
    }
  }

  /** In every run from the look to the removal. Let `i` be just after the last thing the user did, 0
      if he did nothing. The tab is closed as its window's last tab exactly if, since then, all but one
      of the window's tabs, those newly created included, were closed by handlers. If he did nothing,
      it is not, unless another handler closed a tab of that window. */
  lemma ClosingHarmsExactly(w: Worker, events: seq<Event>, i: nat, k: nat, s: Session, tab: nat)
    requires Inv(w) && Looked(w, k, s, tab) && Possible(w, events) && AboutToRemove(After(w, events), k, tab)
    requires i <= |events| && UserAway(events[i..]) && (i > 0 ==> events[i - 1].Browse?)
    ensures Possible(w, events[..i]) && Possible(After(w, events[..i]), events[i..])
    ensures var v, end, rest := After(w, events[..i]), After(w, events), events[i..];
            && (Alone(end, tab) <==>
                tab in end.tabs && tab in v.tabs
                && CountIn(v.tabs, v.tabs[tab].window) + Openings(v, rest, v.tabs[tab].window)
                   <= 1 + Closings(v, rest, v.tabs[tab].window))
            && (i == 0 && Closings(v, rest, w.tabs[tab].window) == 0 ==> !Alone(end, tab))
  {
    SplitRun(w, events, i);
    RunKeepsInv(w, events[..i]);
    StaysUsed(w, events[..i], tab);
    var v := After(w, events[..i]);
    if tab in v.tabs {
      UntilTheUserActs(v, events[i..], tab);
    } else {
      RunBalances(v, events[i..], tab, 0);
    }
    if i == 0 {
      assert events[0..] == events;
      ClosingWhileAway(w, events, k, s, tab);
    }
  }

  // ---- how a window is lost ----

  /** `closeWorkTab` looks at the chat's tab. */
  lemma ClosingLooks(w: Worker, k: nat, s: Session, m: Tabs, a: Answer) returns (t: Worker)
    requires k < |w.tasks| && w.tasks[k] == Load(Find(s, ForClose)) && InMemory(w, m) && s in m && m[s] in w.tabs
    requires a.active == None
    ensures t == Became(w, k, Use(w.mem.value, Forget(s, Focus(s, m[s], w.tabs[m[s]])))) && Leads(w, Steps(k, a, 4), t)
  {
    var next := Focus(s, m[s], w.tabs[m[s]]);
    var w1 := Became(w, k, Use(w.mem.value, Find(s, ForClose)));
    var w2 := Became(w, k, Get(s, m[s], ForClose));
    var w3 := Became(w, k, Load(Forget(s, next)));
    t := Became(w, k, Use(w.mem.value, Forget(s, next)));
    FourPieces(w, k, a, w1, w2, w3, t);
  }

  /** It forgets the tab and counts those of the window. */
  lemma ClosingCounts(w: Worker, k: nat, s: Session, tab: nat, seen: Tab, m: Tabs, a: Answer) returns (t: Worker)
    requires InMemory(w, m) && k < |w.tasks| && w.tasks[k] == Use(w.mem.value, Forget(s, Focus(s, tab, seen)))
    requires a.ok && a.active == None && Unseen(seen, w.focused) && CountIn(w.tabs, seen.window) >= 2
    ensures Leads(w, Steps(k, a, 4), t) && InMemory(t, Without(m, s)) && t.tabs == w.tabs && t.focused == w.focused
    ensures t.tasks == w.tasks[k := Remove(s, tab, seen, w.focused, CountIn(w.tabs, seen.window))]
  {
    var next, less := Focus(s, tab, seen), Without(m, s);
    var v := w.(heap := w.heap[w.mem.value := less], owned := GivenUp(w.owned, s, next));
    var u := v.(storage := less);
    var w1 := Became(v, k, Stored(less, next));
    var w2 := Became(u, k, Then(next));
    var w3 := Became(u, k, Query(s, tab, seen, w.focused));
    t := Became(u, k, Remove(s, tab, seen, w.focused, CountIn(w.tabs, seen.window)));
    FourPieces(w, k, a, w1, w2, w3, t);
  }

  lemma ClosingReachesRemove(w: Worker, k: nat, s: Session, m: Tabs, a: Answer) returns (t: Worker)
    requires k < |w.tasks| && w.tasks[k] == Load(Find(s, ForClose)) && InMemory(w, m) && s in m && m[s] in w.tabs
    requires a.ok && a.active == None
    requires Unseen(w.tabs[m[s]], w.focused) && CountIn(w.tabs, w.tabs[m[s]].window) >= 2
    ensures Leads(w, Steps(k, a, 8), t) && InMemory(t, Without(m, s)) && t.tabs == w.tabs && t.focused == w.focused
    ensures var seen := w.tabs[m[s]];
            t.tasks == w.tasks[k := Remove(s, m[s], seen, w.focused, CountIn(w.tabs, seen.window))]
  {
    var v := ClosingLooks(w, k, s, m, a);
    t := ClosingCounts(v, k, s, m[s], w.tabs[m[s]], m, a);
    StepsLeadOn(w, k, a, 4, v, 4, t);
  }

  lemma StepsAway(k: nat, a: Answer, n: nat)
    ensures UserAway(Steps(k, a, n))
  {
  }

  lemma AwayOn(xs: seq<Event>, ys: seq<Event>)
    requires UserAway(xs) && UserAway(ys)
    ensures UserAway(xs + ys)
  {
  }

  /** Two chats end together: both handlers start, */
  function BothStart(s1: Session, s2: Session): seq<Event> {
    [Start(Load(Find(s1, ForClose)))] + [Start(Load(Find(s2, ForClose)))]
  }

  /** look, forget and count, */
  function BothCount(n: nat, a: Answer): seq<Event> { Steps(n, a, 8) + Steps(n + 1, a, 8) }

  /** and then remove; the second tab becomes active if the first was. */
  function BothRemove(n: nat, a: Answer, second: nat): seq<Event> {
    [Step(n, a.(heir := Some(second)))] + [Step(n + 1, a)]
  }

  function BothClose(n: nat, s1: Session, s2: Session, a: Answer, second: nat): seq<Event> {
    (BothStart(s1, s2) + BothCount(n, a)) + BothRemove(n, a, second)
  }

  lemma NobodyThere(n: nat, s1: Session, s2: Session, a: Answer, second: nat)
    ensures UserAway(BothClose(n, s1, s2, a, second))
  {
    StepsAway(n, a, 8);
    StepsAway(n + 1, a, 8);
    AwayOn(Steps(n, a, 8), Steps(n + 1, a, 8));
    AwayOn(BothStart(s1, s2), BothCount(n, a));
    AwayOn(BothStart(s1, s2) + BothCount(n, a), BothRemove(n, a, second));
  }

  lemma BothGetThere(w: Worker, m: Tabs, s1: Session, s2: Session, a: Answer) returns (t: Worker)
    requires InMemory(w, m) && s1 in m && s2 in m && s1 != s2 && a.ok && a.active == None
    requires m[s1] in w.tabs && m[s2] in w.tabs && w.tabs[m[s1]].window == w.tabs[m[s2]].window
    requires w.focused != Some(w.tabs[m[s1]].window) && CountIn(w.tabs, w.tabs[m[s1]].window) == 2
    ensures Leads(w, BothStart(s1, s2) + BothCount(|w.tasks|, a), t)
    ensures t.tabs == w.tabs && |t.tasks| == |w.tasks| + 2
    ensures AboutToRemove(t, |w.tasks|, m[s1]) && AboutToRemove(t, |w.tasks| + 1, m[s2])
  {
    var n := |w.tasks|;
    var e1, e2 := Start(Load(Find(s1, ForClose))), Start(Load(Find(s2, ForClose)));
    OneEvent(w, e1);
    var v0 := Apply(w, e1);
    OneEvent(v0, e2);
    var v1 := Apply(v0, e2);
    LeadsOn(w, [e1], v0, [e2], v1);
    var v2 := ClosingReachesRemove(v1, n, s1, m, a);
    t := ClosingReachesRemove(v2, n + 1, s2, Without(m, s1), a);
    LeadsOn(v1, Steps(n, a, 8), v2, Steps(n + 1, a, 8), t);
    LeadsOn(w, BothStart(s1, s2), v1, BothCount(n, a), t);
  }

  lemma NoneLeft(tabs: map<nat, Tab>, window: nat)
    requires CountIn(tabs, window) == 0
    ensures !HasTab(tabs, window)
  {
    assert forall t <- tabs :: tabs[t].window == window ==> t in TabsIn(tabs, window);
  }

  /** The two removals. */
  lemma BothAreRemoved(w: Worker, n: nat, a: Answer, first: nat, second: nat) returns (t: Worker)
    requires AboutToRemove(w, n, first) && AboutToRemove(w, n + 1, second) && first != second
    requires first in w.tabs && second in w.tabs && w.tabs[first].window == w.tabs[second].window
    requires CountIn(w.tabs, w.tabs[first].window) == 2 && a.ok && a.active == None && a.heir == None && a.front == None
    ensures Leads(w, BothRemove(n, a, second), t) && CountIn(t.tabs, w.tabs[first].window) == 0
  {
    var window, e := w.tabs[first].window, Step(n, a.(heir := Some(second)));
    OneEvent(w, e);
    var u := Apply(w, e);
    CountWithout(w.tabs, first, Some(second), window);
    assert u.tabs == WithoutTab(w.tabs, first, Some(second)) && AboutToRemove(u, n + 1, second);
    assert second in u.tabs && u.tabs[second].window == window;
    LastIsRemoved(u, n + 1, a, second);
    t := Apply(u, Step(n + 1, a));
    OneEvent(u, Step(n + 1, a));
    LeadsOn(w, [e], u, [Step(n + 1, a)], t);
  }

  lemma LastIsRemoved(w: Worker, n: nat, a: Answer, tab: nat)
    requires AboutToRemove(w, n, tab) && tab in w.tabs && CountIn(w.tabs, w.tabs[tab].window) == 1
    requires a.ok && a.active == None && a.heir == None && a.front == None
    ensures Enabled(w, Step(n, a)) && CountIn(Apply(w, Step(n, a)).tabs, w.tabs[tab].window) == 0
  {
    CountWithout(w.tabs, tab, None, w.tabs[tab].window);
    NoneLeft(w.tabs - {tab}, w.tabs[tab].window);
  }

  /** Wherever two chats' tabs are the only two of a window that the user is not in, their closing
      leaves that window without a tab, though the user does nothing. */
  lemma TwoClosingsEmptyAWindow(w: Worker, m: Tabs, s1: Session, s2: Session, a: Answer) returns (t: Worker)
    requires Inv(w) && InMemory(w, m) && s1 in m && s2 in m && s1 != s2
    requires a.ok && a.active == None && a.heir == None && a.front == None
    requires m[s1] in w.tabs && m[s2] in w.tabs && w.tabs[m[s1]].window == w.tabs[m[s2]].window
    requires w.focused != Some(w.tabs[m[s1]].window) && CountIn(w.tabs, w.tabs[m[s1]].window) == 2
    ensures Leads(w, BothClose(|w.tasks|, s1, s2, a, m[s2]), t) && UserAway(BothClose(|w.tasks|, s1, s2, a, m[s2]))
    ensures CountIn(t.tabs, w.tabs[m[s1]].window) == 0
  {
    var n := |w.tasks|;
    assert m[s1] != m[s2] by { assert OwnTabs(w.heap[w.mem.value], w.creator); }
    var v := BothGetThere(w, m, s1, s2, a);
    t := BothAreRemoved(v, n, a, m[s1], m[s2]);
    LeadsOn(w, BothStart(s1, s2) + BothCount(n, a), v, BothRemove(n, a, m[s2]), t);
    NobodyThere(n, s1, s2, a, m[s2]);
  }

  // ---- such a run from the beginning ----

  /** Chats 0 and 1 open their tabs 10 and 11 there. */
  function FirstOpens(): seq<Event> {
    [Start(Load(Find(0, ForOpen))), Step(0, Fine(10, 5)), Step(0, Fine(10, 5)), Step(0, Fine(10, 5))] + Steps(0, Fine(10, 5), 8)
  }

  function SecondOpens(): seq<Event> {
    [Start(Load(Find(1, ForOpen)))] + [Step(1, Fine(11, 5))] + Steps(1, Fine(11, 5), 8)
  }

  /** The user closes tab 1 and goes to tab 2 in window 9. */
  function UserLeaves(): seq<Event> {
    [Browse(map[2 := Tab(9, true), 10 := Tab(5, false), 11 := Tab(5, true)], Some(9))]
  }

  lemma TabsOpened()
    ensures WithTab(map[1 := Tab(5, true)], 10, 5) == map[1 := Tab(5, false), 10 := Tab(5, true)]
    ensures WithTab(map[1 := Tab(5, false), 10 := Tab(5, true)], 11, 5) ==
            map[1 := Tab(5, false), 10 := Tab(5, false), 11 := Tab(5, true)]
  {
  }

  lemma FirstTab() returns (t: Worker)
    ensures Leads(Initial(), UserStarts() + FirstOpens(), t) && InMemory(t, map[0 := 10]) && |t.tasks| == 1
    ensures t.tabs == map[1 := Tab(5, false), 10 := Tab(5, true)] && t.used == {1, 10}
  {
    var a, job := Fine(10, 5), Find(0, ForOpen);
    var w := UserIsThere();
    var w1 := Apply(w, Start(Load(job)));
    var w2 := Became(w1, 0, Fetched(job));
    var w3 := Became(w1, 0, Arrived(map[], job));
    var w4 := w1.(heap := [map[]], mem := Some(0), tasks := [Use(0, job)]);
    var events := [Start(Load(job)), Step(0, a), Step(0, a), Step(0, a)];
    FourEvents(w, events, w1, w2, w3, w4);
    assert w4.tabs[1].window == 5;
    t := Opening(w4, 0, 0, map[], a);
    LeadsOn(w, events, w4, Steps(0, a, 8), t);
    LeadsOn(Initial(), UserStarts(), w, FirstOpens(), t);
    TabsOpened();
  }

  lemma SecondTab(w: Worker) returns (t: Worker)
    requires InMemory(w, map[0 := 10]) && |w.tasks| == 1
    requires w.tabs == map[1 := Tab(5, false), 10 := Tab(5, true)] && w.used == {1, 10}
    ensures Leads(w, SecondOpens(), t) && InMemory(t, map[0 := 10, 1 := 11]) && |t.tasks| == 2
    ensures t.tabs == map[1 := Tab(5, false), 10 := Tab(5, false), 11 := Tab(5, true)] && t.used == {1, 10, 11}
  {
    var a, e := Fine(11, 5), Start(Load(Find(1, ForOpen)));
    OneEvent(w, e);
    var v := Apply(w, e);
    OneEvent(v, Step(1, a));
    var u := Piece(v, 1, a);
    assert u.tabs[1].window == 5;
    t := Opening(u, 1, 1, map[0 := 10], a);
    LeadsOn(w, [e], v, [Step(1, a)], u);
    LeadsOn(w, [e] + [Step(1, a)], u, Steps(1, a, 8), t);
    TabsOpened();
  }

  lemma BothTabs() returns (events: seq<Event>, t: Worker)
    ensures Leads(Initial(), events, t) && InMemory(t, map[0 := 10, 1 := 11]) && t.used == {1, 10, 11}
    ensures t.tabs == map[1 := Tab(5, false), 10 := Tab(5, false), 11 := Tab(5, true)]
  {
    var w := FirstTab();
    t := SecondTab(w);
    events := (UserStarts() + FirstOpens()) + SecondOpens();
    LeadsOn(Initial(), UserStarts() + FirstOpens(), w, SecondOpens(), t);
  }

  lemma TwoInWindow()
    ensures var tabs := map[2 := Tab(9, true), 10 := Tab(5, false), 11 := Tab(5, true)];
            CountIn(tabs, 5) == 2 && Lifelike(tabs, Some(9))
  {
    var tabs := map[2 := Tab(9, true), 10 := Tab(5, false), 11 := Tab(5, true)];
    assert TabsIn(tabs, 5) == {10, 11};
    assert tabs[2] == Tab(9, true) && tabs[11] == Tab(5, true);
    assert HasActive(tabs, 9) && HasActive(tabs, 5) && HasTab(tabs, 9);
  }

  lemma UserGoes(w: Worker, m: Tabs) returns (t: Worker)
    requires InMemory(w, m) && w.used == {1, 10, 11}
    requires w.tabs == map[1 := Tab(5, false), 10 := Tab(5, false), 11 := Tab(5, true)]
    ensures Leads(w, UserLeaves(), t) && InMemory(t, m) && t.focused == Some(9)
    ensures t.tabs == map[2 := Tab(9, true), 10 := Tab(5, false), 11 := Tab(5, true)] && CountIn(t.tabs, 5) == 2
  {
    var e := UserLeaves()[0];
    TwoInWindow();
    assert forall u <- e.tabs :: u == 2 || u == 10 || u == 11;
    OneEvent(w, e);
    t := Apply(w, e);
  }

  lemma UpToTheClosing() returns (events: seq<Event>, t: Worker)
    ensures Leads(Initial(), events, t) && Inv(t) && InMemory(t, map[0 := 10, 1 := 11]) && t.focused == Some(9)
    ensures t.tabs == map[2 := Tab(9, true), 10 := Tab(5, false), 11 := Tab(5, true)] && CountIn(t.tabs, 5) == 2
  {
    var first, w := BothTabs();
    t := UserGoes(w, map[0 := 10, 1 := 11]);
    events := first + UserLeaves();
    LeadsOn(Initial(), first, w, UserLeaves(), t);
    RunKeepsInv(Initial(), events);
  }

  /** The whole run: two chats work in a window, the user turns to another one and closes the last tab
      of his own in the first, and when both chats are over their window is gone. */
  lemma AWindowIsLost() returns (before: seq<Event>, closing: seq<Event>, v: Worker, t: Worker)
    ensures Leads(Initial(), before, v) && Leads(v, closing, t) && UserAway(closing)
    ensures v.focused == Some(9) && CountIn(v.tabs, 5) == 2 && CountIn(t.tabs, 5) == 0
  {
    before, v := UpToTheClosing();
    closing := BothClose(|v.tasks|, 0, 1, Fine(12, 5), 11);
    t := TwoClosingsEmptyAWindow(v, map[0 := 10, 1 := 11], 0, 1, Fine(12, 5));
  }
}
