/** What one handler does when nothing else happens meanwhile (extension/background.js 540-605, 641-678,
    927-943): which tab a tool is given, which tab is opened, what is closed and what is forgotten. */
module TabsAlone {
  import opened Common
  import opened TabsProtocol

  /** Handler k runs on, n pieces at most, with the browser answering as a says. */
  ghost function Pieces(w: Worker, k: nat, a: Answer, n: nat): Worker
    decreases n
  {
    if n == 0 || !Enabled(w, Step(k, a)) then w else Pieces(Piece(w, k, a), k, a, n - 1)
  }

  /** No handler has more pieces. */
  const ALL: nat := 12

  /** The tabs are in memory, and handler k may run. */
  ghost predicate Ready(w: Worker, k: nat, a: Answer, m: Tabs) {
    && w.mem.Some? && w.mem.value < |w.heap| && w.heap[w.mem.value] == m
    && k < |w.tasks| && (a.active.Some? ==> a.active.value in w.tabs && w.tabs[a.active.value].active)
  }

  /** No two chats have the same tab. */
  ghost predicate OneEach(m: Tabs) {
    forall r, q :: r in m && q in m && m[r] == m[q] ==> r == q
  }

  lemma OnePiece(w: Worker, k: nat, a: Answer, n: nat)
    requires n > 0 && Enabled(w, Step(k, a))
    ensures Pieces(w, k, a, n) == Pieces(Piece(w, k, a), k, a, n - 1)
  {
  }

  lemma Overwritten(w: Worker, k: nat, x: Task, y: Task)
    requires k < |w.tasks|
    ensures Became(Became(w, k, x), k, y) == Became(w, k, y)
  {
    assert w.tasks[k := x][k := y] == w.tasks[k := y];
  }

  /** A handler that has ended stays as it is. */
  lemma {:induction false} EndedStays(w: Worker, k: nat, a: Answer, n: nat)
    requires k < |w.tasks| && w.tasks[k] == Ended
    ensures Pieces(w, k, a, n) == w
    decreases n
  {
    if n > 0 && Enabled(w, Step(k, a)) {
      EndedStays(w, k, a, n - 1);
    }
  }

  /** The tabs are looked up in memory. */
  lemma LooksUp(w: Worker, k: nat, a: Answer, n: nat, m: Tabs, job: Job) returns (u: Worker)
    requires n >= 2 && Ready(w, k, a, m) && w.tasks[k] == Load(job)
    ensures u == Became(w, k, Use(w.mem.value, job))
    ensures Pieces(w, k, a, n) == Pieces(UsePiece(u, k, w.mem.value, job), k, a, n - 2)
  {
    u := Became(w, k, Use(w.mem.value, job));
    OnePiece(w, k, a, n);
    OnePiece(u, k, a, n - 1);
  }

  lemma Finds(w: Worker, k: nat, a: Answer, n: nat, m: Tabs, s: Session, goal: Goal)
    requires n >= 2 && Ready(w, k, a, m) && w.tasks[k] == Load(Find(s, goal))
    ensures Pieces(w, k, a, n) == Pieces(Became(w, k, if s in m then Get(s, m[s], goal) else Then(Missing(s, goal))), k, a, n - 2)
  {
    var u := LooksUp(w, k, a, n, m, Find(s, goal));
    Overwritten(w, k, Use(w.mem.value, Find(s, goal)), if s in m then Get(s, m[s], goal) else Then(Missing(s, goal)));
  }

  /** A tab that is gone, or is to be closed, is looked at and then forgotten. */
  lemma Looked(w: Worker, k: nat, a: Answer, m: Tabs, s: Session, goal: Goal, next: Next)
    requires Ready(w, k, a, m) && w.tasks[k] == Load(Find(s, goal)) && s in m
    requires if m[s] !in w.tabs then next == Missing(s, goal) else goal == ForClose && next == Focus(s, m[s], w.tabs[m[s]])
    ensures Pieces(w, k, a, ALL) == Pieces(Became(w, k, Load(Forget(s, next))), k, a, ALL - 3)
  {
    Finds(w, k, a, ALL, m, s, goal);
    GetForgets(Became(w, k, Get(s, m[s], goal)), k, a, s, m[s], goal, next);
    Overwritten(w, k, Get(s, m[s], goal), Load(Forget(s, next)));
  }

  lemma GetForgets(w: Worker, k: nat, a: Answer, s: Session, tab: nat, goal: Goal, next: Next)
    requires Enabled(w, Step(k, a)) && w.tasks[k] == Get(s, tab, goal)
    requires if tab !in w.tabs then next == Missing(s, goal) else goal == ForClose && next == Focus(s, tab, w.tabs[tab])
    ensures Pieces(w, k, a, ALL - 2) == Pieces(Became(w, k, Load(Forget(s, next))), k, a, ALL - 3)
  {
    OnePiece(w, k, a, ALL - 2);
  }

  // ---- the tab of a tool ----

  /** The active tab may be taken: it is not protected, and no other chat's. */
  ghost predicate TakesActive(a: Answer, s: Session, m: Tabs) {
    a.active.Some? && !a.shielded && forall r :: r in m && m[r] == a.active.value ==> r == s
  }

  /** A tool is given the active tab if that may be taken, else its chat's own tab if there is one, and
      with neither it is given none. */
  lemma WhatAToolIsGiven(w: Worker, k: nat, a: Answer, s: Session, m: Tabs)
    requires Ready(w, k, a, m) && w.tasks[k] == Target(s) && OneEach(m)
    requires s in m ==> m[s] in w.tabs
    ensures var t := Pieces(w, k, a, ALL);
            && t.tabs == w.tabs && t.heap == w.heap && t.storage == w.storage && t.tasks == w.tasks[k := Ended]
            && t.deeds == w.deeds + (if TakesActive(a, s, m) then [Targeted(s, a.active.value, Some(m))]
                                     else if s in m then [Targeted(s, m[s], None)] else [])
  {
    OnePiece(w, k, a, ALL);
    if a.active.Some? && !a.shielded {
      Asks(Became(w, k, Load(AskOwner(s, a.active.value))), k, a, s, m);
      Overwritten(w, k, Load(AskOwner(s, a.active.value)), Ended);
    } else {
      GivenItsOwn(Became(w, k, Load(Find(s, ForTarget))), k, a, ALL - 1, s, m);
      Overwritten(w, k, Load(Find(s, ForTarget)), Ended);
    }
  }

  lemma Asks(w: Worker, k: nat, a: Answer, s: Session, m: Tabs)
    requires Ready(w, k, a, m) && a.active.Some? && w.tasks[k] == Load(AskOwner(s, a.active.value)) && OneEach(m)
    requires (s in m ==> m[s] in w.tabs) && !a.shielded
    ensures var t := Pieces(w, k, a, ALL - 1);
            && t.tabs == w.tabs && t.heap == w.heap && t.storage == w.storage && t.tasks == w.tasks[k := Ended]
            && t.deeds == w.deeds + (if TakesActive(a, s, m) then [Targeted(s, a.active.value, Some(m))]
                                     else if s in m then [Targeted(s, m[s], None)] else [])
  {
    var tab := a.active.value;
    var u := LooksUp(w, k, a, ALL - 1, m, AskOwner(s, tab));
    OwnersTab(m, s, tab);
    if TakesActive(a, s, m) {
      var v := w.(deeds := w.deeds + [Targeted(s, tab, Some(m))]);
      Overwritten(v, k, Use(w.mem.value, AskOwner(s, tab)), Ended);
      EndedStays(Became(v, k, Ended), k, a, ALL - 3);
    } else {
      Overwritten(w, k, Use(w.mem.value, AskOwner(s, tab)), Load(Find(s, ForTarget)));
      GivenItsOwn(Became(w, k, Load(Find(s, ForTarget))), k, a, ALL - 3, s, m);
      Overwritten(w, k, Load(Find(s, ForTarget)), Ended);
    }
  }

  lemma OwnersTab(m: Tabs, s: Session, tab: nat)
    requires OneEach(m)
    ensures OwnerIn(m, tab) == None || OwnerIn(m, tab) == Some(s) <==> forall r :: r in m && m[r] == tab ==> r == s
  {
  }

  lemma GivenItsOwn(w: Worker, k: nat, a: Answer, n: nat, s: Session, m: Tabs)
    requires n >= 3 && Ready(w, k, a, m) && w.tasks[k] == Load(Find(s, ForTarget))
    requires s in m ==> m[s] in w.tabs
    ensures Pieces(w, k, a, n) ==
            Became(if s in m then w.(deeds := w.deeds + [Targeted(s, m[s], None)]) else w, k, Ended)
  {
    Finds(w, k, a, n, m, s, ForTarget);
    var next := if s in m then Get(s, m[s], ForTarget) else Then(Missing(s, ForTarget));
    var v := if s in m then w.(deeds := w.deeds + [Targeted(s, m[s], None)]) else w;
    OnePiece(Became(w, k, next), k, a, n - 2);
    Overwritten(v, k, next, Ended);
    EndedStays(Became(v, k, Ended), k, a, n - 3);
  }

  // ---- opening ----

  /** A page is opened in the chat's own tab. */
  lemma OpensInItsTab(w: Worker, k: nat, a: Answer, s: Session, m: Tabs)
    requires Ready(w, k, a, m) && w.tasks[k] == Load(Find(s, ForOpen)) && s in m && m[s] in w.tabs
    ensures Pieces(w, k, a, ALL) == Became(w.(deeds := w.deeds + [Navigated(s, m[s])]), k, Ended)
  {
    Finds(w, k, a, ALL, m, s, ForOpen);
    var v := w.(deeds := w.deeds + [Navigated(s, m[s])]);
    OnePiece(Became(w, k, Get(s, m[s], ForOpen)), k, a, ALL - 2);
    Overwritten(v, k, Get(s, m[s], ForOpen), Ended);
    EndedStays(Became(v, k, Ended), k, a, ALL - 3);
  }

  /** Without one, a tab is created in front of its window, and remembered and saved as the chat's. */
  lemma OpensANewTab(w: Worker, k: nat, a: Answer, s: Session, m: Tabs)
    requires Ready(w, k, a, m) && w.tasks[k] == Load(Find(s, ForOpen)) && s !in m
    requires a.ok && a.newTab !in w.used && HasTab(w.tabs, a.window) && a.active == None
    ensures HasNewTab(w, k, a, s, m, Pieces(w, k, a, ALL))
  {
    Finds(w, k, a, ALL, m, s, ForOpen);
    CreatesATab(Became(w, k, Then(Missing(s, ForOpen))), k, a, ALL - 2, s, m);
    Overwritten(w, k, Then(Missing(s, ForOpen)), Ended);
  }

  /** The same if the tab that is remembered no longer exists. */
  lemma ReplacesADeadTab(w: Worker, k: nat, a: Answer, s: Session, m: Tabs)
    requires Ready(w, k, a, m) && w.tasks[k] == Load(Find(s, ForOpen)) && s in m && m[s] !in w.tabs
    requires a.ok && a.newTab !in w.used && HasTab(w.tabs, a.window) && a.active == None
    ensures HasNewTab(w, k, a, s, m, Pieces(w, k, a, ALL))
  {
    Looked(w, k, a, m, s, ForOpen, Missing(s, ForOpen));
    ForgetsAndCreates(Became(w, k, Load(Forget(s, Missing(s, ForOpen)))), k, a, s, m);
    Overwritten(w, k, Load(Forget(s, Missing(s, ForOpen))), Ended);
  }

  lemma ForgetsAndCreates(w: Worker, k: nat, a: Answer, s: Session, m: Tabs)
    requires Ready(w, k, a, m) && w.tasks[k] == Load(Forget(s, Missing(s, ForOpen))) && s in m
    requires a.ok && a.newTab !in w.used && HasTab(w.tabs, a.window) && a.active == None
    ensures HasNewTab(w, k, a, s, m, Pieces(w, k, a, ALL - 3))
  {
    var next := Missing(s, ForOpen);
    Forgets(w, k, a, ALL - 3, s, next, m);
    var v := Became(w.(heap := w.heap[w.mem.value := m - {s}], storage := m - {s}), k, Then(next));
    CreatesATab(v, k, a, ALL - 6, s, m - {s});
    NewTabAllTheSame(w, k, a, s, m, v, Pieces(v, k, a, ALL - 6));
  }

  lemma NewTabAllTheSame(w: Worker, k: nat, a: Answer, s: Session, m: Tabs, v: Worker, t: Worker)
    requires Ready(w, k, a, m) && Ready(v, k, a, m - {s}) && HasNewTab(v, k, a, s, m - {s}, t)
    requires v.mem == w.mem && v.tabs == w.tabs && v.deeds == w.deeds && v.heap == w.heap[w.mem.value := m - {s}]
    requires v.tasks == w.tasks[k := v.tasks[k]]
    ensures HasNewTab(w, k, a, s, m, t)
  {
    assert (m - {s})[s := a.newTab] == m[s := a.newTab];
    assert v.heap[w.mem.value := m[s := a.newTab]] == w.heap[w.mem.value := m[s := a.newTab]];
    assert v.tasks[k := Ended] == w.tasks[k := Ended];
  }

  ghost predicate HasNewTab(w: Worker, k: nat, a: Answer, s: Session, m: Tabs, t: Worker)
    requires Ready(w, k, a, m)
  {
    && t.tabs == WithTab(w.tabs, a.newTab, a.window) && t.mem == w.mem
    && t.heap == w.heap[w.mem.value := m[s := a.newTab]] && t.storage == m[s := a.newTab]
    && t.deeds == w.deeds && t.tasks == w.tasks[k := Ended]
  }

  lemma CreatesATab(w: Worker, k: nat, a: Answer, n: nat, s: Session, m: Tabs)
    requires n >= 6 && Ready(w, k, a, m) && w.tasks[k] == Then(Missing(s, ForOpen))
    requires a.ok && a.newTab !in w.used && HasTab(w.tabs, a.window) && a.active == None
    ensures HasNewTab(w, k, a, s, m, Pieces(w, k, a, n))
  {
    OnePiece(w, k, a, n);
    Creates(Became(w, k, Create(s)), k, a, n - 1, s, m);
    Overwritten(w, k, Create(s), Ended);
  }

  lemma Creates(w: Worker, k: nat, a: Answer, n: nat, s: Session, m: Tabs)
    requires n >= 5 && Ready(w, k, a, m) && w.tasks[k] == Create(s)
    requires a.ok && a.newTab !in w.used && HasTab(w.tabs, a.window) && a.active == None
    ensures HasNewTab(w, k, a, s, m, Pieces(w, k, a, n))
  {
    OnePiece(w, k, a, n);
    var v := Piece(w, k, a);
    Remembers(v, k, a, n - 1, s, a.newTab, m);
    Overwritten(w, k, Load(Remember(s, a.newTab)), Ended);
  }

  lemma Remembers(w: Worker, k: nat, a: Answer, n: nat, s: Session, tab: nat, m: Tabs)
    requires n >= 4 && Ready(w, k, a, m) && w.tasks[k] == Load(Remember(s, tab)) && a.ok
    ensures Pieces(w, k, a, n) ==
            Became(w.(heap := w.heap[w.mem.value := m[s := tab]], storage := m[s := tab]), k, Ended)
  {
    var u := LooksUp(w, k, a, n, m, Remember(s, tab));
    var h := w.(heap := w.heap[w.mem.value := m[s := tab]]);
    Overwritten(h, k, Use(w.mem.value, Remember(s, tab)), Stored(m[s := tab], Finished));
    Saves(Became(h, k, Stored(m[s := tab], Finished)), k, a, n - 2, m[s := tab], Finished);
    var v := h.(storage := m[s := tab]);
    Overwritten(v, k, Stored(m[s := tab], Finished), Then(Finished));
    IsFinished(Became(v, k, Then(Finished)), k, a, n - 3);
    Overwritten(v, k, Then(Finished), Ended);
  }

  lemma Saves(w: Worker, k: nat, a: Answer, n: nat, image: Tabs, next: Next)
    requires n >= 1 && k < |w.tasks| && w.tasks[k] == Stored(image, next) && a.ok && Enabled(w, Step(k, a))
    ensures Pieces(w, k, a, n) == Pieces(Became(w.(storage := image), k, Then(next)), k, a, n - 1)
  {
    OnePiece(w, k, a, n);
  }

  lemma IsFinished(w: Worker, k: nat, a: Answer, n: nat)
    requires n >= 1 && k < |w.tasks| && w.tasks[k] == Then(Finished) && Enabled(w, Step(k, a))
    ensures Pieces(w, k, a, n) == Became(w, k, Ended)
  {
    OnePiece(w, k, a, n);
    EndedStays(Became(w, k, Ended), k, a, n - 1);
  }

  // ---- forgetting ----

  /** The tab is deleted in memory and in storage; `owned` is history. */
  lemma Forgets(w: Worker, k: nat, a: Answer, n: nat, s: Session, next: Next, m: Tabs)
    requires n >= 3 && Ready(w, k, a, m) && w.tasks[k] == Load(Forget(s, next)) && a.ok
    ensures Pieces(w, k, a, n) ==
            Pieces(Became(w.(heap := w.heap[w.mem.value := m - {s}], storage := m - {s}, owned := GivenUp(w.owned, s, next)),
                          k, Then(next)), k, a, n - 3)
  {
    var u := LooksUp(w, k, a, n, m, Forget(s, next));
    var h := w.(heap := w.heap[w.mem.value := m - {s}], owned := GivenUp(w.owned, s, next));
    Overwritten(h, k, Use(w.mem.value, Forget(s, next)), Stored(m - {s}, next));
    Saves(Became(h, k, Stored(m - {s}, next)), k, a, n - 2, m - {s}, next);
    Overwritten(h.(storage := m - {s}), k, Stored(m - {s}, next), Then(next));
  }

  /** A tab that is gone is forgotten by the chat whose it was, and by nobody else. */
  lemma AGoneTabIsForgotten(w: Worker, k: nat, a: Answer, tab: nat, m: Tabs)
    requires Ready(w, k, a, m) && w.tasks[k] == Load(Removed(tab)) && OneEach(m) && a.ok
    ensures var t := Pieces(w, k, a, ALL);
            && t.tabs == w.tabs && t.deeds == w.deeds && t.tasks == w.tasks[k := Ended]
            && (forall s :: s in m && m[s] == tab ==> t.heap == w.heap[w.mem.value := m - {s}] && t.storage == m - {s})
            && ((forall s :: s in m ==> m[s] != tab) ==> t.heap == w.heap && t.storage == w.storage)
  {
    var u := LooksUp(w, k, a, ALL, m, Removed(tab));
    var owner := OwnerIn(m, tab);
    if owner.Some? {
      var s := owner.value;
      Overwritten(w, k, Use(w.mem.value, Removed(tab)), Load(Forget(s, Finished)));
      Forgets(Became(w, k, Load(Forget(s, Finished))), k, a, ALL - 2, s, Finished, m);
      var v := w.(heap := w.heap[w.mem.value := m - {s}], storage := m - {s});
      Overwritten(v, k, Load(Forget(s, Finished)), Then(Finished));
      IsFinished(Became(v, k, Then(Finished)), k, a, ALL - 5);
      Overwritten(v, k, Then(Finished), Ended);
    } else {
      Overwritten(w, k, Use(w.mem.value, Removed(tab)), Ended);
      EndedStays(Became(w, k, Ended), k, a, ALL - 2);
    }
  }

  // ---- closing ----

  /** What is done to the tab: nothing if it is in sight; it is closed if it is not alone in its window,
      and otherwise emptied. */
  ghost predicate Dealt(w: Worker, s: Session, tab: nat, heir: Option<nat>, t: Worker)
    requires tab in w.tabs
  {
    var seen := w.tabs[tab];
    var n := |set x | x in w.tabs && w.tabs[x].window == seen.window|;
    if seen.active && w.focused == Some(seen.window) then t.tabs == w.tabs && t.deeds == w.deeds
    else if n > 1 then
      t.tabs == WithoutTab(w.tabs, tab, heir) && t.deeds == w.deeds + [Closed(s, tab, seen, w.focused, n)]
    else t.tabs == w.tabs && t.deeds == w.deeds + [Navigated(s, tab)]
  }

  /** When a chat's grace is over its tab is forgotten, and then dealt with. */
  lemma WhatIsClosed(w: Worker, k: nat, a: Answer, s: Session, m: Tabs)
    requires Ready(w, k, a, m) && w.tasks[k] == Load(Find(s, ForClose)) && s in m && m[s] in w.tabs
    requires a.ok && a.active == None && HeirOk(w.tabs, m[s], a.heir) && (a.front.Some? ==> HasTab(w.tabs - {m[s]}, a.front.value))
    ensures var t := Pieces(w, k, a, ALL);
            && t.heap == w.heap[w.mem.value := m - {s}] && t.storage == m - {s} && t.tasks == w.tasks[k := Ended]
            && Dealt(w, s, m[s], a.heir, t)
  {
    var tab, seen := m[s], w.tabs[m[s]];
    var next := Focus(s, tab, seen);
    Looked(w, k, a, m, s, ForClose, next);
    ForgetsAndLooks(Became(w, k, Load(Forget(s, next))), k, a, s, tab, m);
    Overwritten(w, k, Load(Forget(s, next)), Ended);
  }

  lemma ForgetsAndLooks(w: Worker, k: nat, a: Answer, s: Session, tab: nat, m: Tabs)
    requires Ready(w, k, a, m) && tab in w.tabs && w.tasks[k] == Load(Forget(s, Focus(s, tab, w.tabs[tab])))
    requires a.ok && a.active == None && HeirOk(w.tabs, tab, a.heir) && (a.front.Some? ==> HasTab(w.tabs - {tab}, a.front.value))
    ensures var t := Pieces(w, k, a, ALL - 3);
            && t.heap == w.heap[w.mem.value := m - {s}] && t.storage == m - {s} && t.tasks == w.tasks[k := Ended]
            && Dealt(w, s, tab, a.heir, t)
  {
    var next := Focus(s, tab, w.tabs[tab]);
    Forgets(w, k, a, ALL - 3, s, next, m);
    var v := w.(heap := w.heap[w.mem.value := m - {s}], storage := m - {s}, owned := GivenUp(w.owned, s, next));
    Looks(Became(v, k, Then(next)), k, a, s, tab);
    Overwritten(v, k, Then(next), Ended);
  }

  lemma Looks(w: Worker, k: nat, a: Answer, s: Session, tab: nat)
    requires k < |w.tasks| && tab in w.tabs && w.tasks[k] == Then(Focus(s, tab, w.tabs[tab]))
    requires a.ok && a.active == None && HeirOk(w.tabs, tab, a.heir) && (a.front.Some? ==> HasTab(w.tabs - {tab}, a.front.value))
    ensures var t := Pieces(w, k, a, ALL - 6);
            && t.heap == w.heap && t.storage == w.storage && t.tasks == w.tasks[k := Ended]
            && Dealt(w, s, tab, a.heir, t)
  {
    var seen := w.tabs[tab];
    OnePiece(w, k, a, ALL - 6);
    if seen.active && w.focused == Some(seen.window) {
      EndedStays(Became(w, k, Ended), k, a, ALL - 7);
    } else {
      var q := Query(s, tab, seen, w.focused);
      CountsAndCloses(Became(w, k, q), k, a, s, tab, seen);
      Overwritten(w, k, q, Ended);
      assert TabsIn(w.tabs, seen.window) == set x | x in w.tabs && w.tabs[x].window == seen.window;
    }
  }

  lemma CountsAndCloses(w: Worker, k: nat, a: Answer, s: Session, tab: nat, seen: Tab)
    requires k < |w.tasks| && w.tasks[k] == Query(s, tab, seen, w.focused) && tab in w.tabs
    requires a.ok && a.active == None && HeirOk(w.tabs, tab, a.heir) && (a.front.Some? ==> HasTab(w.tabs - {tab}, a.front.value))
    ensures var t, n := Pieces(w, k, a, ALL - 7), CountIn(w.tabs, seen.window);
            && t.heap == w.heap && t.storage == w.storage && t.tasks == w.tasks[k := Ended]
            && if n > 1 then
                 t.tabs == WithoutTab(w.tabs, tab, a.heir) && t.deeds == w.deeds + [Closed(s, tab, seen, w.focused, n)]
               else t.tabs == w.tabs && t.deeds == w.deeds + [Navigated(s, tab)]
  {
    OnePiece(w, k, a, ALL - 7);
    var n := CountIn(w.tabs, seen.window);
    var v := Piece(w, k, a);
    if n > 1 {
      OnePiece(v, k, a, ALL - 8);
      EndedStays(Piece(v, k, a), k, a, ALL - 9);
      Overwritten(w, k, Remove(s, tab, seen, w.focused, n), Ended);
    } else {
      EndedStays(v, k, a, ALL - 8);
    }
  }
}
