/** When a finished chat's tab is closed in sight of the user (extension/background.js 661-678).

    `closeWorkTab` looks at its tab, asks which window is in front, and removes the tab some awaits
    later. In between the tab can come into sight: the user goes there, a tool brings it to the front
    (619-621, 1295-1297), or the browser makes it active because another tab was closed. */
module TabsSight {
  import opened Common
  import opened TabsProtocol
  import opened TabsRuns

  predicate InSight(w: Worker, tab: nat) {
    tab in w.tabs && w.tabs[tab].active && w.focused == Some(w.tabs[tab].window)
  }

  /** The handler has just looked at its chat's tab, and found it there. */
  predicate Looked(w: Worker, k: nat, s: Session, tab: nat) {
    k < |w.tasks| && tab in w.tabs && w.tasks[k] == Load(Forget(s, Focus(s, tab, w.tabs[tab])))
  }

  predicate AboutToRemove(w: Worker, k: nat, tab: nat) {
    k < |w.tasks| && w.tasks[k].Remove? && w.tasks[k].tab == tab
  }

  // ---- what a handler's step does to the browser ----

  /** The step closes a tab. */
  predicate Closes(w: Worker, e: Event) {
    && e.Step? && e.k < |w.tasks| && w.tasks[e.k].Remove? && e.answer.ok && w.tasks[e.k].tab in w.tabs
  }

  function TabsAfter(w: Worker, e: Event): map<nat, Tab> {
    if e.Step? && e.k < |w.tasks| then
      match w.tasks[e.k]
      case Create(_) => if e.answer.ok then WithTab(w.tabs, e.answer.newTab, e.answer.window) else w.tabs
      case Show(tab) => Fronted(w.tabs, tab)
      case Remove(_, tab, _, _, _) => if Closes(w, e) then WithoutTab(w.tabs, tab, e.answer.heir) else w.tabs
      case _ => w.tabs
    else w.tabs
  }

  lemma StepsBrowser(w: Worker, e: Event)
    requires Enabled(w, e) && !e.Browse?
    ensures Apply(w, e).tabs == TabsAfter(w, e) && w.used <= Apply(w, e).used
    ensures Apply(w, e).focused ==
            if Closes(w, e) then FocusAfter(TabsAfter(w, e), w.focused, e.answer.front) else w.focused
  {
    if e.Step? {
      match w.tasks[e.k]
      case Use(obj, job) => UseMovesOne(w, e.k, obj, job);
      case Get(s, tab, goal) => GetMovesOne(w, e.k, s, tab, goal);
      case Then(next) => NextMovesOne(w, e.k, next, if e.answer.ok then w.focused else None);
      case Remove(_, _, _, _, _) => RemovesInBrowser(w, e.k, e.answer);
      case Create(s) => CreatesInBrowser(w, e.k, e.answer);
      case _ =>
    }
  }

  lemma RemovesInBrowser(w: Worker, k: nat, a: Answer)
    requires Enabled(w, Step(k, a)) && w.tasks[k].Remove?
    ensures var t, rest := Piece(w, k, a), TabsAfter(w, Step(k, a));
            && t.tabs == rest && t.used == w.used
            && t.focused == if Closes(w, Step(k, a)) then FocusAfter(rest, w.focused, a.front) else w.focused
  {
  }

  lemma CreatesInBrowser(w: Worker, k: nat, a: Answer)
    requires Enabled(w, Step(k, a)) && w.tasks[k].Create?
    ensures var t := Piece(w, k, a);
            t.tabs == TabsAfter(w, Step(k, a)) && w.used <= t.used && t.focused == w.focused && !Closes(w, Step(k, a))
  {
  }

  lemma StepStaysUsed(w: Worker, e: Event, tab: nat)
    requires Enabled(w, e) && tab in w.used
    ensures tab in Apply(w, e).used
  {
    if !e.Browse? {
      StepsBrowser(w, e);
    }
  }

  // ---- the browser stays lifelike ----

  lemma SameWindows(tabs: map<nat, Tab>, tab: nat, window: nat)
    ensures HasTab(Fronted(tabs, tab), window) == HasTab(tabs, window)
  {
    if t :| t in tabs && tabs[t].window == window {
      assert t in Fronted(tabs, tab) && Fronted(tabs, tab)[t].window == window;
    }
    if t :| t in Fronted(tabs, tab) && Fronted(tabs, tab)[t].window == window {
      assert tabs[t].window == window;
    }
  }

  lemma FrontIsActive(tabs: map<nat, Tab>, tab: nat)
    requires tab in tabs
    ensures HasActive(Fronted(tabs, tab), tabs[tab].window)
  {
    assert Fronted(tabs, tab)[tab].active;
  }

  lemma ElsewhereActive(tabs: map<nat, Tab>, tab: nat, window: nat)
    requires HasActive(tabs, window) && (tab in tabs ==> tabs[tab].window != window)
    ensures HasActive(Fronted(tabs, tab), window)
  {
    var u :| u in tabs && tabs[u].window == window && tabs[u].active;
    assert Fronted(tabs, tab)[u] == tabs[u];
  }

  /** It is enough that the other windows have an active tab. */
  lemma FrontedIsLifelike(tabs: map<nat, Tab>, tab: nat)
    requires tab in tabs
    requires forall t, u :: t in tabs && u in tabs && tabs[t].window == tabs[u].window != tabs[tab].window ==>
               tabs[t].active && tabs[u].active ==> t == u
    requires forall t <- tabs :: tabs[t].window != tabs[tab].window ==> HasActive(tabs, tabs[t].window)
    ensures OneActive(Fronted(tabs, tab)) && EachActive(Fronted(tabs, tab))
  {
    var f := Fronted(tabs, tab);
    forall t | t in f ensures HasActive(f, f[t].window) {
      if tabs[t].window == tabs[tab].window {
        FrontIsActive(tabs, tab);
      } else {
        ElsewhereActive(tabs, tab, tabs[t].window);
      }
    }
  }

  lemma ShownIsLifelike(tabs: map<nat, Tab>, tab: nat, focused: Option<nat>)
    requires Lifelike(tabs, focused)
    ensures Lifelike(Fronted(tabs, tab), focused)
  {
    if tab in tabs {
      FrontedIsLifelike(tabs, tab);
    }
    if focused.Some? {
      SameWindows(tabs, tab, focused.value);
    }
  }

  lemma WithTabIsLifelike(tabs: map<nat, Tab>, tab: nat, window: nat, focused: Option<nat>)
    requires Lifelike(tabs, focused) && tab !in tabs
    ensures Lifelike(WithTab(tabs, tab, window), focused)
  {
    var more := tabs[tab := Tab(window, true)];
    forall t | t in more && more[t].window != window ensures HasActive(more, more[t].window) {
      MoreActive(tabs, tab, Tab(window, true), tabs[t].window);
    }
    FrontedIsLifelike(more, tab);
    if focused.Some? {
      MoreTabsIn(tabs, tab, Tab(window, true), focused.value);
      SameWindows(more, tab, focused.value);
    }
  }

  lemma MoreActive(tabs: map<nat, Tab>, tab: nat, added: Tab, window: nat)
    requires HasActive(tabs, window) && tab !in tabs
    ensures HasActive(tabs[tab := added], window)
  {
    var u :| u in tabs && tabs[u].window == window && tabs[u].active;
    assert tabs[tab := added][u] == tabs[u];
  }

  lemma MoreTabsIn(tabs: map<nat, Tab>, tab: nat, added: Tab, window: nat)
    requires HasTab(tabs, window) && tab !in tabs
    ensures HasTab(tabs[tab := added], window)
  {
    var u :| u in tabs && tabs[u].window == window;
    assert tabs[tab := added][u] == tabs[u];
  }

  lemma WithoutTabIsLifelike(tabs: map<nat, Tab>, tab: nat, heir: Option<nat>, focused: Option<nat>, front: Option<nat>)
    requires Lifelike(tabs, focused) && tab in tabs && HeirOk(tabs, tab, heir)
    requires front.Some? ==> HasTab(tabs - {tab}, front.value)
    ensures var rest := WithoutTab(tabs, tab, heir); Lifelike(rest, FocusAfter(rest, focused, front))
  {
    var less := tabs - {tab};
    forall t | t in less && (tabs[tab].active && heir.Some? ==> tabs[t].window != tabs[tab].window)
      ensures HasActive(less, less[t].window)
    {
      StillActive(tabs, tab, heir, t);
    }
    if tabs[tab].active && heir.Some? {
      FrontedIsLifelike(less, heir.value);
      if front.Some? {
        SameWindows(less, heir.value, front.value);
      }
    }
  }

  /** The window of t keeps its active tab. */
  lemma StillActive(tabs: map<nat, Tab>, tab: nat, heir: Option<nat>, t: nat)
    requires EachActive(tabs) && tab in tabs && HeirOk(tabs, tab, heir) && t in tabs && t != tab
    requires tabs[tab].active && heir.Some? ==> tabs[t].window != tabs[tab].window
    ensures HasActive(tabs - {tab}, tabs[t].window)
  {
    var u :| u in tabs && tabs[u].window == tabs[t].window && tabs[u].active;
    if u == tab {
      assert t in tabs - {tab};
      assert HasTab(tabs - {tab}, tabs[tab].window);
      assert false;
    }
    assert (tabs - {tab})[u] == tabs[u];
  }

  lemma StepStaysLifelike(w: Worker, e: Event)
    requires Inv(w) && Enabled(w, e) && Lifelike(w.tabs, w.focused)
    ensures Lifelike(Apply(w, e).tabs, Apply(w, e).focused)
  {
    if !e.Browse? {
      StepsBrowser(w, e);
    }
    if Closes(w, e) {
      WithoutTabIsLifelike(w.tabs, w.tasks[e.k].tab, e.answer.heir, w.focused, e.answer.front);
    } else if e.Step? && w.tasks[e.k].Create? && e.answer.ok {
      WithTabIsLifelike(w.tabs, e.answer.newTab, e.answer.window, w.focused);
    } else if e.Step? && w.tasks[e.k].Show? {
      ShownIsLifelike(w.tabs, w.tasks[e.k].tab, w.focused);
    }
  }

  /** Every run from the start of the worker keeps one active tab in each window. */
  lemma {:induction false} RunStaysLifelike(w: Worker, events: seq<Event>)
    requires Inv(w) && Possible(w, events) && Lifelike(w.tabs, w.focused)
    ensures Lifelike(After(w, events).tabs, After(w, events).focused)
    decreases |events|
  {
    if events == [] {
    } else {
      StepKeepsInv(w, events[0]);
      StepStaysLifelike(w, events[0]);
      RunStaysLifelike(Apply(w, events[0]), events[1..]);
    }
  }

  ghost predicate Sound(w: Worker) { Inv(w) && Lifelike(w.tabs, w.focused) }

  /** In every run: the invariant, one active tab in each window, and a window in front that exists. */
  lemma EveryRunIsSound(events: seq<Event>)
    requires Possible(Initial(), events)
    ensures Sound(After(Initial(), events))
  {
    RunKeepsInv(Initial(), events);
    RunStaysLifelike(Initial(), events);
  }

  // ---- what brings a tab into sight and what hides it ----

  /** The event brings the tab into sight: the user does; it is created in the window in front; a tool
      shows it there; the active tab of that window is closed and it is the heir; or the window in
      front goes with its last tab, and this tab's window comes to the front. */
  ghost predicate Brings(w: Worker, e: Event, tab: nat) {
    match e
    case Browse(tabs, focused) => tab in tabs && tabs[tab].active && focused == Some(tabs[tab].window)
    case Step(k, a) =>
      k < |w.tasks| && (
        match w.tasks[k]
        case Create(_) => a.ok && a.newTab == tab && w.focused == Some(a.window)
        case Show(t) => t == tab && tab in w.tabs && w.focused == Some(w.tabs[tab].window)
        case Remove(_, gone, _, _, _) =>
          Closes(w, e) && tab in w.tabs && gone != tab && w.focused == Some(w.tabs[gone].window) && (
            || (w.tabs[gone].active && a.heir == Some(tab))
            || (w.tabs[tab].active && a.front == Some(w.tabs[tab].window) && !HasTab(w.tabs - {gone}, w.tabs[gone].window)))
        case _ => false)
    case _ => false
  }

  /** The event takes the tab out of sight: the user does; a tab is created or shown in front of it; or
      it is closed. */
  ghost predicate Hides(w: Worker, e: Event, tab: nat) {
    match e
    case Browse(_, _) => !Brings(w, e, tab)
    case Step(k, a) =>
      k < |w.tasks| && tab in w.tabs && (
        match w.tasks[k]
        case Create(_) => a.ok && a.window == w.tabs[tab].window
        case Show(t) => t != tab && t in w.tabs && w.tabs[t].window == w.tabs[tab].window
        case Remove(_, gone, _, _, _) => Closes(w, e) && gone == tab
        case _ => false)
    case _ => false
  }

  lemma StepSight(w: Worker, e: Event, tab: nat)
    requires Inv(w) && Enabled(w, e) && Lifelike(w.tabs, w.focused)
    ensures InSight(Apply(w, e), tab) <==> Brings(w, e, tab) || (InSight(w, tab) && !Hides(w, e, tab))
  {
    if !e.Browse? {
      StepsBrowser(w, e);
      if Closes(w, e) {
        ClosingSight(w.tabs, w.focused, w.tasks[e.k].tab, e.answer.heir, e.answer.front, tab);
      } else if e.Step? && w.tasks[e.k].Create? && e.answer.ok {
        CreatingSight(w.tabs, w.focused, e.answer.newTab, e.answer.window, tab);
      } else if e.Step? && w.tasks[e.k].Show? {
        ShowingSight(w.tabs, w.focused, w.tasks[e.k].tab, tab);
      }
    }
  }

  lemma ShowingSight(tabs: map<nat, Tab>, focused: Option<nat>, shown: nat, tab: nat)
    ensures SeenIn(Fronted(tabs, shown), focused, tab) <==>
            || (shown == tab && tab in tabs && focused == Some(tabs[tab].window))
            || (SeenIn(tabs, focused, tab) && !(shown != tab && shown in tabs && tabs[shown].window == tabs[tab].window))
  {
  }

  lemma CreatingSight(tabs: map<nat, Tab>, focused: Option<nat>, added: nat, window: nat, tab: nat)
    requires added !in tabs
    ensures SeenIn(WithTab(tabs, added, window), focused, tab) <==>
            || (added == tab && focused == Some(window))
            || (SeenIn(tabs, focused, tab) && tabs[tab].window != window)
  {
  }

  predicate SeenIn(tabs: map<nat, Tab>, focused: Option<nat>, tab: nat) {
    tab in tabs && tabs[tab].active && focused == Some(tabs[tab].window)
  }

  /** After `gone` is closed: the heir, or the tab in the window that comes to the front, or what was
      in sight before. */
  lemma ClosingSight(tabs: map<nat, Tab>, focused: Option<nat>, gone: nat, heir: Option<nat>, front: Option<nat>, tab: nat)
    requires Lifelike(tabs, focused) && gone in tabs && HeirOk(tabs, gone, heir)
    ensures var rest := WithoutTab(tabs, gone, heir);
            SeenIn(rest, FocusAfter(rest, focused, front), tab) <==>
            || (tab in tabs && tab != gone && focused == Some(tabs[gone].window) && (
                || (tabs[gone].active && heir == Some(tab))
                || (tabs[tab].active && front == Some(tabs[tab].window) && !HasTab(tabs - {gone}, tabs[gone].window))))
            || (SeenIn(tabs, focused, tab) && tab != gone)
  {
    var rest := WithoutTab(tabs, gone, heir);
    if tab in tabs && tab != gone {
      if focused.Some? {
        RestWindows(tabs, gone, heir, focused.value);
      }
      FrontAfterClosing(tabs, gone, heir, tab);
    }
  }

  /** Which windows are left. */
  lemma RestWindows(tabs: map<nat, Tab>, gone: nat, heir: Option<nat>, window: nat)
    requires gone in tabs && HeirOk(tabs, gone, heir)
    ensures HasTab(WithoutTab(tabs, gone, heir), window) == HasTab(tabs - {gone}, window)
    ensures HasTab(tabs, window) && window != tabs[gone].window ==> HasTab(tabs - {gone}, window)
  {
    if heir.Some? {
      SameWindows(tabs - {gone}, heir.value, window);
    }
    if u :| u in tabs && tabs[u].window == window && u != gone {
      assert (tabs - {gone})[u] == tabs[u];
    }
  }

  /** Which of the others is active then. */
  lemma FrontAfterClosing(tabs: map<nat, Tab>, gone: nat, heir: Option<nat>, tab: nat)
    requires OneActive(tabs) && gone in tabs && HeirOk(tabs, gone, heir) && tab in tabs && tab != gone
    ensures var rest := WithoutTab(tabs, gone, heir);
            && tab in rest && rest[tab].window == tabs[tab].window
            && (rest[tab].active <==> tabs[tab].active || (tabs[gone].active && heir == Some(tab)))
            && HasTab(tabs - {gone}, tabs[tab].window)
  {
    assert (tabs - {gone})[tab] == tabs[tab];
  }

  // ---- over a run ----

  /** The state before event i. */
  ghost function StateAt(w: Worker, events: seq<Event>, i: nat): Worker
    requires Possible(w, events) && i <= |events|
    decreases i
  {
    if i == 0 then w else StateAt(Apply(w, events[0]), events[1..], i - 1)
  }

  lemma {:induction false} StateStep(w: Worker, events: seq<Event>, i: nat)
    requires Possible(w, events) && i < |events|
    ensures Enabled(StateAt(w, events, i), events[i])
    ensures StateAt(w, events, i + 1) == Apply(StateAt(w, events, i), events[i])
    decreases i
  {
    if i == 0 {
    } else {
      StateStep(Apply(w, events[0]), events[1..], i - 1);
      assert events[1..][i - 1] == events[i];
    }
  }

  lemma {:induction false} StateEnd(w: Worker, events: seq<Event>)
    requires Possible(w, events)
    ensures StateAt(w, events, |events|) == After(w, events)
    decreases |events|
  {
    if events == [] {
    } else {
      StateEnd(Apply(w, events[0]), events[1..]);
    }
  }

  lemma {:induction false} StatesAreSound(w: Worker, events: seq<Event>, i: nat)
    requires Sound(w) && Possible(w, events) && i <= |events|
    ensures Sound(StateAt(w, events, i))
    decreases i
  {
    if i == 0 {
    } else {
      StatesAreSound(w, events, i - 1);
      StateStep(w, events, i - 1);
      StepKeepsInv(StateAt(w, events, i - 1), events[i - 1]);
      StepStaysLifelike(StateAt(w, events, i - 1), events[i - 1]);
    }
  }

  /** Nothing from event i up to event n hides the tab. */
  ghost predicate KeptInSight(w: Worker, events: seq<Event>, i: nat, n: nat, tab: nat)
    requires Possible(w, events) && n <= |events|
  {
    forall j :: i <= j < n ==> !Hides(StateAt(w, events, j), events[j], tab)
  }

  /** Some event before event n brings the tab into sight, and nothing hides it after that. */
  ghost predicate Brought(w: Worker, events: seq<Event>, n: nat, tab: nat)
    requires Possible(w, events) && n <= |events|
  {
    exists i :: 0 <= i < n && Brings(StateAt(w, events, i), events[i], tab) && KeptInSight(w, events, i + 1, n, tab)
  }

  lemma SightThen(w: Worker, events: seq<Event>, n: nat, tab: nat)
    requires Sound(w) && Possible(w, events) && n < |events|
    ensures InSight(StateAt(w, events, n + 1), tab) <==>
            || Brings(StateAt(w, events, n), events[n], tab)
            || (InSight(StateAt(w, events, n), tab) && !Hides(StateAt(w, events, n), events[n], tab))
  {
    StatesAreSound(w, events, n);
    StateStep(w, events, n);
    StepSight(StateAt(w, events, n), events[n], tab);
  }

  lemma {:induction false} SightAt(w: Worker, events: seq<Event>, n: nat, tab: nat)
    requires Sound(w) && Possible(w, events) && n <= |events|
    ensures InSight(StateAt(w, events, n), tab) <==>
            Brought(w, events, n, tab) || (InSight(w, tab) && KeptInSight(w, events, 0, n, tab))
    decreases n
  {
    if n == 0 {
    } else {
      SightAt(w, events, n - 1, tab);
      SightThen(w, events, n - 1, tab);
      BroughtOneMore(w, events, n - 1, tab);
      KeptOneMore(w, events, 0, n - 1, tab);
    }
  }

  lemma BroughtOneMore(w: Worker, events: seq<Event>, n: nat, tab: nat)
    requires Possible(w, events) && n < |events|
    ensures Brought(w, events, n + 1, tab) <==>
            || Brings(StateAt(w, events, n), events[n], tab)
            || (Brought(w, events, n, tab) && !Hides(StateAt(w, events, n), events[n], tab))
  {
    if Brings(StateAt(w, events, n), events[n], tab) {
      assert KeptInSight(w, events, n + 1, n + 1, tab);
    } else if Brought(w, events, n + 1, tab) {
      var i :| 0 <= i < n + 1 && Brings(StateAt(w, events, i), events[i], tab) && KeptInSight(w, events, i + 1, n + 1, tab);
      KeptOneMore(w, events, i + 1, n, tab);
    } else if Brought(w, events, n, tab) && !Hides(StateAt(w, events, n), events[n], tab) {
      var i :| 0 <= i < n && Brings(StateAt(w, events, i), events[i], tab) && KeptInSight(w, events, i + 1, n, tab);
      KeptOneMore(w, events, i + 1, n, tab);
    }
  }

  lemma KeptOneMore(w: Worker, events: seq<Event>, i: nat, n: nat, tab: nat)
    requires Possible(w, events) && i <= n < |events|
    ensures KeptInSight(w, events, i, n + 1, tab) <==>
            KeptInSight(w, events, i, n, tab) && !Hides(StateAt(w, events, n), events[n], tab)
  {
  }

  // ---- the handler between its look and its removal ----

  /** What the handler knows on the way, if the tab it saw was in sight all the time. */
  predicate Unanswered(task: Task, s: Session, tab: nat, seen: Tab) {
    var next := Focus(s, tab, seen);
    match task
    case Load(job) => job == Forget(s, next)
    case Fetched(job) => job == Forget(s, next)
    case Arrived(_, job) => job == Forget(s, next)
    case Use(_, job) => job == Forget(s, next)
    case Stored(_, n) => n == next || n == Finished
    case Then(n) => n == next || n == Finished
    case Ended => true
    case Query(s1, tab1, seen1, focus) => s1 == s && tab1 == tab && seen1 == seen && focus == None
    case Remove(s1, tab1, seen1, focus, _) => s1 == s && tab1 == tab && seen1 == seen && focus == None
    case _ => false
  }

  lemma UseOnTheWay(w: Worker, k: nat, obj: nat, s: Session, next: Next)
    requires k < |w.tasks| && obj < |w.heap|
    ensures var t := UsePiece(w, k, obj, Forget(s, next));
            |t.tasks| == |w.tasks| && t.tasks[k].Stored? && t.tasks[k].next == next
  {
  }

  lemma ThenUnanswered(w: Worker, k: nat, a: Answer, s: Session, tab: nat, seen: Tab)
    requires Enabled(w, Step(k, a)) && w.tasks[k].Then? && Unanswered(w.tasks[k], s, tab, seen)
    requires seen.active && w.focused == Some(seen.window)
    ensures var t := Piece(w, k, a); |t.tasks| == |w.tasks| && Unanswered(t.tasks[k], s, tab, seen)
  {
  }

  lemma QueryUnanswered(w: Worker, k: nat, a: Answer, s: Session, tab: nat, seen: Tab)
    requires Enabled(w, Step(k, a)) && w.tasks[k].Query? && Unanswered(w.tasks[k], s, tab, seen)
    ensures var t := Piece(w, k, a); |t.tasks| == |w.tasks| && Unanswered(t.tasks[k], s, tab, seen)
  {
  }

  lemma OwnStepUnanswered(w: Worker, k: nat, a: Answer, s: Session, tab: nat, seen: Tab)
    requires Enabled(w, Step(k, a)) && Unanswered(w.tasks[k], s, tab, seen)
    requires seen.active && w.focused == Some(seen.window)
    ensures var t := Piece(w, k, a); |t.tasks| == |w.tasks| && Unanswered(t.tasks[k], s, tab, seen)
  {
    match w.tasks[k]
    case Use(obj, _) => UseOnTheWay(w, k, obj, s, Focus(s, tab, seen));
    case Then(_) => ThenUnanswered(w, k, a, s, tab, seen);
    case Query(_, _, _, _) => QueryUnanswered(w, k, a, s, tab, seen);
    case _ =>
  }

  lemma StepUnanswered(w: Worker, e: Event, k: nat, s: Session, tab: nat, seen: Tab)
    requires Sound(w) && Enabled(w, e) && k < |w.tasks| && Unanswered(w.tasks[k], s, tab, seen) && seen.active
    requires InSight(w, tab) && w.tabs[tab].window == seen.window && !e.Browse? && !Hides(w, e, tab)
    ensures var t := Apply(w, e);
            && k < |t.tasks| && Unanswered(t.tasks[k], s, tab, seen)
            && tab in t.tabs && t.tabs[tab].window == seen.window
  {
    StepsBrowser(w, e);
    if e.Step? && e.k == k {
      OwnStepUnanswered(w, k, e.answer, s, tab, seen);
    } else {
      OthersStay(w, e, k);
    }
  }

  lemma {:induction false} StaysUnanswered(w: Worker, events: seq<Event>, n: nat, k: nat, s: Session, tab: nat)
    requires Sound(w) && Looked(w, k, s, tab) && InSight(w, tab) && Possible(w, events) && n <= |events|
    requires KeptInSight(w, events, 0, n, tab) && !Brought(w, events, n, tab)
    ensures var v := StateAt(w, events, n);
            && k < |v.tasks| && Unanswered(v.tasks[k], s, tab, w.tabs[tab])
            && InSight(v, tab) && v.tabs[tab].window == w.tabs[tab].window
    decreases n
  {
    if n == 0 {
    } else {
      assert !Brought(w, events, n - 1, tab) && !events[n - 1].Browse? by {
        BroughtOneMore(w, events, n - 1, tab);
      }
      StaysUnanswered(w, events, n - 1, k, s, tab);
      StatesAreSound(w, events, n - 1);
      StateStep(w, events, n - 1);
      SightAt(w, events, n, tab);
      StepUnanswered(StateAt(w, events, n - 1), events[n - 1], k, s, tab, w.tabs[tab]);
    }
  }

  /** In every run from a closing handler's look to its removal: the tab is closed in sight exactly if
      something brought it into sight on the way and nothing hid it after that, or if it was in sight
      at the look and nothing hid it; and in this case the browser did not say which window is in
      front. */
  lemma ClosedInSightExactly(w: Worker, events: seq<Event>, k: nat, s: Session, tab: nat)
    requires Sound(w) && Looked(w, k, s, tab) && Possible(w, events) && AboutToRemove(After(w, events), k, tab)
    ensures var n := |events|;
            && (InSight(After(w, events), tab) <==>
                Brought(w, events, n, tab) || (InSight(w, tab) && KeptInSight(w, events, 0, n, tab)))
            && (InSight(After(w, events), tab) && !Brought(w, events, n, tab) ==> After(w, events).tasks[k].focus == None)
  {
    StateEnd(w, events);
    SightAt(w, events, |events|, tab);
    if InSight(After(w, events), tab) && !Brought(w, events, |events|, tab) {
      StaysUnanswered(w, events, |events|, k, s, tab);
    }
  }

  // ---- when nobody interferes ----

  /** Neither the user acts nor a tool shows a tab, and the browser says which window is in front. */
  predicate Undisturbed(w: Worker, e: Event) {
    match e
    case Browse(_, _) => false
    case Step(k, a) =>
      k < |w.tasks| && !w.tasks[k].Show? && (w.tasks[k].Then? && w.tasks[k].next.Focus? ==> a.ok)
    case _ => true
  }

  ghost predicate UndisturbedRun(w: Worker, events: seq<Event>)
    requires Possible(w, events)
    decreases |events|
  {
    events == [] || (Undisturbed(w, events[0]) && UndisturbedRun(Apply(w, events[0]), events[1..]))
  }

  /** What a handler has seen of its tab, if it is between its look and its answer about the front. */
  function Asking(t: Task): Option<(nat, Tab)> {
    match t
    case Load(Forget(_, Focus(_, tab, seen))) => Some((tab, seen))
    case Fetched(Forget(_, Focus(_, tab, seen))) => Some((tab, seen))
    case Arrived(_, Forget(_, Focus(_, tab, seen))) => Some((tab, seen))
    case Use(_, Forget(_, Focus(_, tab, seen))) => Some((tab, seen))
    case Stored(_, Focus(_, tab, seen)) => Some((tab, seen))
    case Then(Focus(_, tab, seen)) => Some((tab, seen))
    case _ => None
  }

  /** The tab a handler goes on to close. */
  function Closing(t: Task): Option<nat> {
    match t
    case Query(_, tab, _, _) => Some(tab)
    case Remove(_, tab, _, _, _) => Some(tab)
    case _ => None
  }

  /** A handler that will ask saw its tab active if it is in sight; one that goes on to close its tab
      has it out of sight. */
  predicate Warned(w: Worker, t: Task) {
    && (Asking(t).Some? ==>
          && Asking(t).value.0 in w.used
          && (InSight(w, Asking(t).value.0) ==> Asking(t).value.1 == w.tabs[Asking(t).value.0]))
    && (Closing(t).Some? ==> Closing(t).value in w.used && !InSight(w, Closing(t).value))
  }

  predicate AllWarned(w: Worker) {
    forall k :: 0 <= k < |w.tasks| ==> Warned(w, w.tasks[k])
  }

  /** An undisturbed step brings no tab into sight but a new one. */
  lemma NothingComesIntoSight(w: Worker, e: Event, tab: nat)
    requires Sound(w) && AllWarned(w) && Enabled(w, e) && Undisturbed(w, e) && tab in w.used
    ensures InSight(Apply(w, e), tab) ==> InSight(w, tab) && Apply(w, e).tabs[tab] == w.tabs[tab]
  {
    StepSight(w, e, tab);
    StepsBrowser(w, e);
    if Closes(w, e) {
      assert Warned(w, w.tasks[e.k]);
      LastIsActive(w.tabs, w.tasks[e.k].tab);
    }
  }

  lemma LastIsActive(tabs: map<nat, Tab>, tab: nat)
    requires EachActive(tabs) && tab in tabs
    ensures !HasTab(tabs - {tab}, tabs[tab].window) ==> tabs[tab].active
  {
    var u :| u in tabs && tabs[u].window == tabs[tab].window && tabs[u].active;
    if u != tab {
      assert (tabs - {tab})[u].window == tabs[tab].window;
    }
  }

  lemma UseAsks(w: Worker, k: nat, obj: nat, job: Job)
    requires k < |w.tasks| && obj < |w.heap| && w.tasks[k] == Use(obj, job)
    ensures var t := UsePiece(w, k, obj, job);
            |t.tasks| == |w.tasks| && Asking(t.tasks[k]) == Asking(w.tasks[k]) && Closing(t.tasks[k]) == None
  {
  }

  lemma GetAsks(w: Worker, k: nat, s: Session, tab: nat, goal: Goal)
    requires k < |w.tasks|
    ensures var t := GetPiece(w, k, s, tab, goal);
            && |t.tasks| == |w.tasks| && Closing(t.tasks[k]) == None
            && (Asking(t.tasks[k]).Some? ==> tab in w.tabs && Asking(t.tasks[k]) == Some((tab, w.tabs[tab])))
  {
  }

  lemma ThenAsks(w: Worker, k: nat, next: Next, focus: Option<nat>)
    requires k < |w.tasks|
    ensures var t := NextPiece(w, k, next, focus);
            && |t.tasks| == |w.tasks| && Asking(t.tasks[k]) == None
            && (Closing(t.tasks[k]).Some? ==>
                  next.Focus? && Closing(t.tasks[k]) == Some(next.tab) && !(next.seen.active && focus == Some(next.seen.window)))
  {
  }

  lemma PassesOn(w: Worker, k: nat, a: Answer)
    requires Enabled(w, Step(k, a)) && (w.tasks[k].Load? || w.tasks[k].Fetched? || w.tasks[k].Arrived? || w.tasks[k].Stored?)
    ensures var t := Piece(w, k, a);
            && |t.tasks| == |w.tasks|
            && (Asking(t.tasks[k]) == None || Asking(t.tasks[k]) == Asking(w.tasks[k]))
            && (Closing(t.tasks[k]) == None || Closing(t.tasks[k]) == Closing(w.tasks[k]))
  {
  }

  lemma QueryPassesOn(w: Worker, k: nat, a: Answer)
    requires Enabled(w, Step(k, a)) && w.tasks[k].Query?
    ensures var t := Piece(w, k, a);
            && |t.tasks| == |w.tasks| && Asking(t.tasks[k]) == None
            && (Closing(t.tasks[k]) == None || Closing(t.tasks[k]) == Closing(w.tasks[k]))
  {
  }

  lemma EndsAsking(w: Worker, k: nat, a: Answer)
    requires Enabled(w, Step(k, a)) && (w.tasks[k].Ended? || w.tasks[k].Create? || w.tasks[k].Target?
             || w.tasks[k].Show? || w.tasks[k].Remove?)
    ensures var t := Piece(w, k, a);
            |t.tasks| == |w.tasks| && Asking(t.tasks[k]) == None && Closing(t.tasks[k]) == None
  {
  }

  lemma OwnStepWarned(w: Worker, k: nat, a: Answer)
    requires Sound(w) && AllWarned(w) && Enabled(w, Step(k, a)) && Undisturbed(w, Step(k, a))
    ensures var t := Piece(w, k, a); |t.tasks| == |w.tasks| && Warned(w, t.tasks[k])
  {
    assert Warned(w, w.tasks[k]);
    match w.tasks[k]
    case Use(obj, job) => UseAsks(w, k, obj, job);
    case Get(s, tab, goal) => GetAsks(w, k, s, tab, goal);
    case Then(next) => ThenAsks(w, k, next, w.focused);
    case Load(_) => PassesOn(w, k, a);
    case Fetched(_) => PassesOn(w, k, a);
    case Arrived(_, _) => PassesOn(w, k, a);
    case Stored(_, _) => PassesOn(w, k, a);
    case Query(_, _, _, _) => QueryPassesOn(w, k, a);
    case _ => EndsAsking(w, k, a);
  }

  lemma StepStaysWarned(w: Worker, e: Event)
    requires Sound(w) && AllWarned(w) && Enabled(w, e) && Undisturbed(w, e)
    ensures AllWarned(Apply(w, e))
  {
    var t := Apply(w, e);
    StepKeepsInv(w, e);
    forall k | 0 <= k < |t.tasks| ensures Warned(t, t.tasks[k]) {
      WarnedBefore(w, e, k);
      StaysWarned(w, e, t.tasks[k]);
    }
  }

  lemma StaysWarned(w: Worker, e: Event, task: Task)
    requires Sound(w) && AllWarned(w) && Enabled(w, e) && Undisturbed(w, e) && Warned(w, task)
    ensures Warned(Apply(w, e), task)
  {
    if Asking(task).Some? {
      NothingComesIntoSight(w, e, Asking(task).value.0);
      StepStaysUsed(w, e, Asking(task).value.0);
    }
    if Closing(task).Some? {
      NothingComesIntoSight(w, e, Closing(task).value);
      StepStaysUsed(w, e, Closing(task).value);
    }
  }

  lemma WarnedBefore(w: Worker, e: Event, k: nat)
    requires Sound(w) && AllWarned(w) && Enabled(w, e) && Undisturbed(w, e) && k < |Apply(w, e).tasks|
    ensures Warned(w, Apply(w, e).tasks[k])
  {
    if e.Step? && e.k == k {
      OwnStepWarned(w, k, e.answer);
    } else if k < |w.tasks| {
      assert Warned(w, w.tasks[k]);
      OthersStay(w, e, k);
      InterruptedIsWarned(w, w.tasks[k]);
    } else {
      if e.Step? {
        PieceMovesOne(w, e.k, e.answer);
      }
      assert e.Start? && Apply(w, e).tasks[k] == e.task;
      EntryIsWarned(w, e.task);
    }
  }

  lemma InterruptedIsWarned(w: Worker, t: Task)
    ensures Warned(w, Interrupted(t))
  {
  }

  lemma EntryIsWarned(w: Worker, t: Task)
    requires Entry(t)
    ensures Warned(w, t)
  {
  }

  lemma {:induction false} RunStaysWarned(w: Worker, events: seq<Event>)
    requires Sound(w) && AllWarned(w) && Possible(w, events) && UndisturbedRun(w, events)
    ensures AllWarned(After(w, events))
    decreases |events|
  {
    if events == [] {
    } else {
      StepKeepsInv(w, events[0]);
      StepStaysLifelike(w, events[0]);
      StepStaysWarned(w, events[0]);
      RunStaysWarned(Apply(w, events[0]), events[1..]);
    }
  }

  /** No handler is between its look and its removal. */
  predicate NobodyClosing(w: Worker) {
    forall k :: 0 <= k < |w.tasks| ==> Asking(w.tasks[k]) == None && Closing(w.tasks[k]) == None
  }

  /** If since the earliest look of any handler that is closing its tab the user has done nothing, no
      tool has shown a tab and the browser has said which window is in front, no tab is closed in
      sight, whatever was closed and created. */
  lemma NoneIsClosedInSight(w: Worker, events: seq<Event>, k: nat)
    requires Sound(w) && NobodyClosing(w) && Possible(w, events) && UndisturbedRun(w, events)
    requires k < |After(w, events).tasks| && After(w, events).tasks[k].Remove?
    ensures !InSight(After(w, events), After(w, events).tasks[k].tab)
  {
    forall j | 0 <= j < |w.tasks| ensures Warned(w, w.tasks[j]) {
      assert Asking(w.tasks[j]) == None && Closing(w.tasks[j]) == None;
    }
    RunStaysWarned(w, events);
    assert Warned(After(w, events), After(w, events).tasks[k]);
  }

  // ---- when a tab is closed in sight ----

  /** Any tab about to be closed can be brought into sight by the user, and is closed all the same. */
  lemma ATabInSightCanBeClosed(w: Worker, k: nat, a: Answer)
    requires Sound(w) && k < |w.tasks| && w.tasks[k].Remove? && w.tasks[k].tab in w.tabs
    requires a.ok && a.active.None? && a.front.None? && HeirOk(Fronted(w.tabs, w.tasks[k].tab), w.tasks[k].tab, a.heir)
    ensures var tab := w.tasks[k].tab;
            var e := Browse(Fronted(w.tabs, tab), Some(w.tabs[tab].window));
            && Enabled(w, e) && InSight(Apply(w, e), tab)
            && Enabled(Apply(w, e), Step(k, a)) && tab !in Apply(Apply(w, e), Step(k, a)).tabs
  {
    var tab := w.tasks[k].tab;
    UserShows(w, tab);
    var v := Apply(w, Browse(Fronted(w.tabs, tab), Some(w.tabs[tab].window)));
    assert v.tasks == w.tasks && v.tabs == Fronted(w.tabs, tab);
    ClosesIt(v, k, a);
  }

  lemma UserShows(w: Worker, tab: nat)
    requires Sound(w) && tab in w.tabs
    ensures var e := Browse(Fronted(w.tabs, tab), Some(w.tabs[tab].window));
            Enabled(w, e) && InSight(Apply(w, e), tab)
  {
    ShownIsLifelike(w.tabs, tab, w.focused);
    assert Fronted(w.tabs, tab)[tab].window == w.tabs[tab].window;
  }

  lemma ClosesIt(w: Worker, k: nat, a: Answer)
    requires k < |w.tasks| && w.tasks[k].Remove? && w.tasks[k].tab in w.tabs
    requires a.ok && a.active.None? && a.front.None? && HeirOk(w.tabs, w.tasks[k].tab, a.heir)
    ensures Enabled(w, Step(k, a)) && w.tasks[k].tab !in Apply(w, Step(k, a)).tabs
  {
  }

  /** So can a tool: it shows the tab in the window in front. */
  lemma AShownTabCanBeClosed(w: Worker, j: nat, k: nat, b: Answer, a: Answer)
    requires Sound(w) && k < |w.tasks| && w.tasks[k].Remove? && w.tasks[k].tab in w.tabs
    requires j < |w.tasks| && w.tasks[j] == Show(w.tasks[k].tab) && w.focused == Some(w.tabs[w.tasks[k].tab].window)
    requires b.active.None? && a.ok && a.active.None? && a.front.None?
    requires HeirOk(Fronted(w.tabs, w.tasks[k].tab), w.tasks[k].tab, a.heir)
    ensures var tab := w.tasks[k].tab;
            && Enabled(w, Step(j, b)) && InSight(Apply(w, Step(j, b)), tab)
            && Enabled(Apply(w, Step(j, b)), Step(k, a)) && tab !in Apply(Apply(w, Step(j, b)), Step(k, a)).tabs
  {
  }

  /** And the browser: a tab in sight is closed on a look gone stale, the browser makes another work
      tab active, and that one is closed in sight too, though the user has done nothing since it was
      looked at. */
  lemma AnHeirCanBeClosed(w: Worker, k: nat, j: nat, a: Answer, b: Answer)
    requires Sound(w) && k < |w.tasks| && w.tasks[k].Remove? && InSight(w, w.tasks[k].tab)
    requires j < |w.tasks| && w.tasks[j].Remove? && w.tasks[j].tab in w.tabs && w.tasks[j].tab != w.tasks[k].tab
    requires w.tabs[w.tasks[j].tab].window == w.tabs[w.tasks[k].tab].window
    requires a.ok && a.active.None? && a.front.None? && a.heir == Some(w.tasks[j].tab)
    requires b.ok && b.active.None? && b.front.None?
    requires HeirOk(WithoutTab(w.tabs, w.tasks[k].tab, a.heir), w.tasks[j].tab, b.heir)
    ensures Enabled(w, Step(k, a))
    ensures var v := Apply(w, Step(k, a));
            && InSight(v, w.tasks[j].tab) && Enabled(v, Step(j, b))
            && w.tasks[j].tab !in Apply(v, Step(j, b)).tabs
  {
    var tab := w.tasks[j].tab;
    StepSight(w, Step(k, a), tab);
    var v := Apply(w, Step(k, a));
    assert v.tasks[j] == w.tasks[j];
  }
}
