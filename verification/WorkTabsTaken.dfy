/** When a tool is given another chat's tab (extension/background.js 522-605).

    `targetTab` gives the active tab unless it is another chat's. A chat's tab can be unknown to the
    tabs that are consulted: not yet remembered, lost to a load that was overtaken, to a failed save,
    or to a late forgetting. This file says exactly which runs are safe from that. */
module TabsTaken {
  import opened Common
  import opened TabsProtocol
  import opened TabsRuns

  /** One question to `ownerOf`: another chat's tab is given away exactly if the tabs consulted do not
      have it as that chat's. */
  lemma TakenIffNotRemembered(w: Worker, k: nat, obj: nat, s: Session, tab: nat, maker: Session)
    requires Inv(w) && k < |w.tasks| && w.tasks[k] == Use(obj, AskOwner(s, tab))
    requires Made(maker, tab, w.creator) && maker != s
    ensures obj < |w.heap|
    ensures UsePiece(w, k, obj, AskOwner(s, tab)).deeds == w.deeds + [Targeted(s, tab, Some(w.heap[obj]))] <==>
            !(maker in w.heap[obj] && w.heap[obj][maker] == tab)
  {
    assert TaskOk(w.tasks[k], |w.heap|, w.creator);
    var m := w.heap[obj];
    OwnerIsUnique(m, w.creator, tab, s);
    OwnerIsUnique(m, w.creator, tab, maker);
    assert w.deeds != w.deeds + [Targeted(s, tab, Some(m))];
  }

  // ---- runs in which it does not happen ----

  /** The handler has created this tab and not yet remembered it. */
  predicate Pending(t: Task, s: Session, tab: nat) {
    match t
    case Load(job) => job == Remember(s, tab)
    case Fetched(job) => job == Remember(s, tab)
    case Arrived(_, job) => job == Remember(s, tab)
    case Use(_, job) => job == Remember(s, tab)
    case _ => false
  }

  predicate Loading(t: Task) { t.Fetched? || t.Arrived? }

  /** What is remembered: in memory once it was loaded, in storage before. */
  function Known(w: Worker): Tabs { if w.mem.Some? then Image(w) else w.storage }

  ghost predicate NothingPending(w: Worker, s: Session) {
    forall k, tab :: 0 <= k < |w.tasks| ==> !Pending(w.tasks[k], s, tab)
  }

  /** The step of a handler that runs is an orderly one: one load at a time, and it succeeds; a chat
      creates no tab while another of its tabs waits to be remembered; a chat's tab is forgotten only
      once it is gone, or by the handler that closes it; nobody asks who owns a tab that waits to be
      remembered. */
  ghost predicate OrderlyPiece(w: Worker, k: nat, a: Answer)
    requires Enabled(w, Step(k, a))
  {
    match w.tasks[k]
    case Load(_) => w.mem == None ==> forall j :: 0 <= j < |w.tasks| ==> !Loading(w.tasks[j])
    case Fetched(_) => a.ok
    case Create(s) => a.ok ==> NothingPending(w, s)
    case Use(obj, Forget(s, next)) =>
      s in w.heap[obj] && w.heap[obj][s] in w.tabs ==> next.Focus? && next.session == s && next.tab == w.heap[obj][s]
    case Use(_, AskOwner(_, tab)) => forall j, s :: 0 <= j < |w.tasks| ==> !Pending(w.tasks[j], s, tab)
    case _ => true
  }

  /** The worker is unloaded when everything is saved. */
  ghost predicate Orderly(w: Worker, e: Event)
    requires Enabled(w, e)
  {
    match e
    case Step(k, a) => OrderlyPiece(w, k, a)
    case Unload =>
      && w.storage == Known(w)
      && (forall k :: 0 <= k < |w.tasks| ==> !w.tasks[k].Stored?)
      && (forall k, s, tab :: 0 <= k < |w.tasks| ==> !Pending(w.tasks[k], s, tab))
    case _ => true
  }

  ghost predicate OrderlyRun(w: Worker, events: seq<Event>)
    requires Possible(w, events)
    decreases |events|
  {
    events == [] || (Orderly(w, events[0]) && OrderlyRun(Apply(w, events[0]), events[1..]))
  }

  /** A chat's own live tab is remembered or waits to be. */
  ghost predicate Cared(w: Worker, s: Session) {
    s in w.owned && w.owned[s] in w.tabs ==>
      (s in Known(w) && Known(w)[s] == w.owned[s]) || exists k :: 0 <= k < |w.tasks| && Pending(w.tasks[k], s, w.owned[s])
  }

  /** Handlers hold the tabs in memory; a load reads what storage still holds; a tab that waits to be
      remembered is its chat's own. */
  ghost predicate Current(w: Worker, t: Task) {
    && (t.Use? ==> w.mem == Some(t.obj))
    && (t.Stored? ==> w.mem.Some?)
    && (Loading(t) ==> w.mem == None)
    && (t.Arrived? ==> t.image == w.storage)
    && (forall s, tab :: Pending(t, s, tab) && s in w.owned ==> w.owned[s] == tab)
  }

  ghost predicate Careful(w: Worker) {
    && (forall k :: 0 <= k < |w.tasks| ==> Current(w, w.tasks[k]))
    && (forall j, k :: 0 <= j < k < |w.tasks| ==> !(Loading(w.tasks[j]) && Loading(w.tasks[k])))
    && (forall s :: Cared(w, s))
  }

  /** A handler went on that has no tab waiting, or still has the same. */
  lemma MovesCarefully(w: Worker, k: nat, task: Task, deeds: seq<Deed>)
    requires Careful(w) && k < |w.tasks| && Current(w, task)
    requires Loading(task) ==> forall j :: 0 <= j < |w.tasks| && j != k ==> !Loading(w.tasks[j])
    requires forall s, tab :: Pending(w.tasks[k], s, tab) ==> Pending(task, s, tab)
    ensures Careful(Became(w.(deeds := deeds), k, task))
  {
    var t := Became(w.(deeds := deeds), k, task);
    forall j | 0 <= j < |t.tasks| ensures Current(t, t.tasks[j]) {
      assert Current(w, if j == k then task else w.tasks[j]);
    }
    forall s ensures Cared(t, s) {
      assert Cared(w, s);
      if j :| 0 <= j < |w.tasks| && s in w.owned && Pending(w.tasks[j], s, w.owned[s]) {
        assert Pending(t.tasks[j], s, t.owned[s]);
      }
    }
  }

  lemma ArrivesCarefully(w: Worker, k: nat, a: Answer)
    requires Inv(w) && Careful(w) && Enabled(w, Step(k, a)) && w.tasks[k].Arrived?
    ensures Careful(Piece(w, k, a))
  {
    var t := Piece(w, k, a);
    assert Current(w, w.tasks[k]) && Known(t) == Known(w);
    forall j | 0 <= j < |t.tasks| ensures Current(t, t.tasks[j]) {
      assert Current(w, w.tasks[j]);
      assert forall s, tab :: Pending(t.tasks[j], s, tab) ==> Pending(w.tasks[j], s, tab);
    }
    forall s ensures Cared(t, s) {
      assert Cared(w, s);
      if j :| 0 <= j < |w.tasks| && s in w.owned && Pending(w.tasks[j], s, w.owned[s]) {
        assert Pending(t.tasks[j], s, t.owned[s]);
      }
    }
  }

  lemma RemembersCarefully(w: Worker, k: nat, obj: nat, s: Session, tab: nat)
    requires Inv(w) && Careful(w) && k < |w.tasks| && w.tasks[k] == Use(obj, Remember(s, tab)) && obj < |w.heap|
    ensures Careful(UsePiece(w, k, obj, Remember(s, tab)))
  {
    var t := UsePiece(w, k, obj, Remember(s, tab));
    assert Current(w, w.tasks[k]) && Known(t) == Put(Known(w), s, tab);
    forall j | 0 <= j < |t.tasks| ensures Current(t, t.tasks[j]) {
      assert Current(w, w.tasks[j]);
    }
    forall c ensures Cared(t, c) {
      assert Cared(w, c);
      assert Pending(w.tasks[k], s, tab);
      if j :| 0 <= j < |w.tasks| && c in w.owned && Pending(w.tasks[j], c, w.owned[c]) {
        assert j != k ==> Pending(t.tasks[j], c, t.owned[c]);
      }
    }
  }

  lemma ForgetsCarefully(w: Worker, k: nat, obj: nat, s: Session, next: Next)
    requires Inv(w) && Careful(w) && k < |w.tasks| && w.tasks[k] == Use(obj, Forget(s, next)) && obj < |w.heap|
    requires s in w.heap[obj] && w.heap[obj][s] in w.tabs ==> next.Focus? && next.session == s && next.tab == w.heap[obj][s]
    ensures Careful(UsePiece(w, k, obj, Forget(s, next)))
  {
    var t := UsePiece(w, k, obj, Forget(s, next));
    assert Current(w, w.tasks[k]) && Known(t) == Without(Known(w), s);
    forall j | 0 <= j < |t.tasks| ensures Current(t, t.tasks[j]) {
      assert Current(w, w.tasks[j]);
    }
    forall c ensures Cared(t, c) {
      assert Cared(w, c);
      if j :| 0 <= j < |w.tasks| && c in w.owned && Pending(w.tasks[j], c, w.owned[c]) {
        assert Pending(t.tasks[j], c, w.owned[c]);
      }
    }
  }

  lemma SavesCarefully(w: Worker, k: nat, a: Answer)
    requires Inv(w) && Careful(w) && Enabled(w, Step(k, a)) && w.tasks[k].Stored?
    ensures Careful(Piece(w, k, a))
  {
    var v := if a.ok then w.(storage := w.tasks[k].image) else w;
    assert Current(w, w.tasks[k]);
    assert Careful(v) by {
      forall j | 0 <= j < |v.tasks| ensures Current(v, v.tasks[j]) {
        assert Current(w, w.tasks[j]);
      }
      forall s ensures Cared(v, s) {
        assert Cared(w, s);
      }
    }
    MovesCarefully(v, k, Then(w.tasks[k].next), v.deeds);
  }

  lemma CreatesCarefully(w: Worker, k: nat, a: Answer, s: Session)
    requires Inv(w) && Careful(w) && Enabled(w, Step(k, a)) && w.tasks[k] == Create(s) && a.ok && NothingPending(w, s)
    ensures Careful(Piece(w, k, a))
  {
    var t := Piece(w, k, a);
    forall j | 0 <= j < |t.tasks| ensures Current(t, t.tasks[j]) {
      assert Current(w, w.tasks[j]);
    }
    forall c ensures Cared(t, c) {
      assert Cared(w, c);
      assert Pending(t.tasks[k], s, a.newTab);
      if j :| 0 <= j < |w.tasks| && c in w.owned && Pending(w.tasks[j], c, w.owned[c]) {
        assert Pending(t.tasks[j], c, w.owned[c]);
      }
    }
  }

  /** Tabs only go, apart from new ones. */
  lemma BrowsesCarefully(w: Worker, tabs: map<nat, Tab>, focused: Option<nat>)
    requires Inv(w) && Careful(w) && forall t <- tabs :: t in w.tabs || t !in w.used
    ensures Careful(w.(tabs := tabs, focused := focused, used := w.used + tabs.Keys))
  {
    var t := w.(tabs := tabs, focused := focused, used := w.used + tabs.Keys);
    forall j | 0 <= j < |t.tasks| ensures Current(t, t.tasks[j]) {
      assert Current(w, w.tasks[j]);
    }
    forall s ensures Cared(t, s) {
      assert Cared(w, s);
      assert s in w.owned ==> w.owned[s] in w.used;
    }
  }

  lemma RemovesCarefully(w: Worker, k: nat, a: Answer)
    requires Inv(w) && Careful(w) && Enabled(w, Step(k, a)) && w.tasks[k].Remove?
    ensures Careful(Piece(w, k, a))
  {
    if w.tasks[k].tab in w.tabs && a.ok {
      var less := WithoutTab(w.tabs, w.tasks[k].tab, a.heir);
      var focused := FocusAfter(less, w.focused, a.front);
      BrowsesCarefully(w, less, focused);
      assert w.used + less.Keys == w.used;
      MovesCarefully(w.(tabs := less, focused := focused), k, Ended, Piece(w, k, a).deeds);
    } else {
      MovesCarefully(w, k, Ended, w.deeds);
    }
  }

  lemma ShowsCarefully(w: Worker, k: nat, tab: nat)
    requires Inv(w) && Careful(w) && k < |w.tasks| && w.tasks[k] == Show(tab)
    ensures Careful(Became(w.(tabs := Fronted(w.tabs, tab)), k, Ended))
  {
    var tabs := Fronted(w.tabs, tab);
    BrowsesCarefully(w, tabs, w.focused);
    assert w.used + tabs.Keys == w.used && w.(focused := w.focused) == w;
    MovesCarefully(w.(tabs := tabs), k, Ended, w.deeds);
  }

  lemma UsesCarefully(w: Worker, k: nat, obj: nat, job: Job)
    requires Inv(w) && Careful(w) && k < |w.tasks| && w.tasks[k] == Use(obj, job) && obj < |w.heap|
    requires !job.Remember? && !job.Forget?
    ensures Careful(UsePiece(w, k, obj, job))
  {
    assert Current(w, w.tasks[k]);
    var t := UsePiece(w, k, obj, job);
    MovesCarefully(w, k, t.tasks[k], t.deeds);
  }

  lemma UnloadsCarefully(w: Worker)
    requires Inv(w) && Careful(w) && Orderly(w, Unload)
    ensures Careful(Apply(w, Unload))
  {
    var t := Apply(w, Unload);
    forall s ensures Cared(t, s) {
      assert Cared(w, s);
    }
  }

  lemma StartsCarefully(w: Worker, task: Task)
    requires Careful(w) && Entry(task)
    ensures Careful(w.(tasks := w.tasks + [task]))
  {
    var t := w.(tasks := w.tasks + [task]);
    forall j | 0 <= j < |t.tasks| ensures Current(t, t.tasks[j]) {
      assert j < |w.tasks| ==> Current(w, w.tasks[j]);
    }
    forall s ensures Cared(t, s) {
      assert Cared(w, s);
      if j :| 0 <= j < |w.tasks| && s in w.owned && Pending(w.tasks[j], s, w.owned[s]) {
        assert Pending(t.tasks[j], s, t.owned[s]);
      }
    }
  }

  lemma PieceStaysCareful(w: Worker, k: nat, a: Answer)
    requires Inv(w) && Careful(w) && Enabled(w, Step(k, a)) && OrderlyPiece(w, k, a)
    ensures Careful(Piece(w, k, a))
  {
    assert Current(w, w.tasks[k]);
    match w.tasks[k]
    case Arrived(_, _) => ArrivesCarefully(w, k, a);
    case Stored(_, _) => SavesCarefully(w, k, a);
    case Create(s) =>
      if a.ok { CreatesCarefully(w, k, a, s); } else { MovesCarefully(w, k, Ended, w.deeds); }
    case Show(tab) => ShowsCarefully(w, k, tab);
    case Remove(_, _, _, _, _) => RemovesCarefully(w, k, a);
    case Use(obj, Remember(s, tab)) => RemembersCarefully(w, k, obj, s, tab);
    case Use(obj, Forget(s, next)) => ForgetsCarefully(w, k, obj, s, next);
    case Use(obj, job) => UsesCarefully(w, k, obj, job);
    case Ended =>
    case _ => OtherPieceStaysCareful(w, k, a);
  }

  /** The pieces that only move on. */
  lemma OtherPieceStaysCareful(w: Worker, k: nat, a: Answer)
    requires Inv(w) && Careful(w) && Enabled(w, Step(k, a)) && OrderlyPiece(w, k, a)
    requires var t := w.tasks[k]; t.Load? || t.Fetched? || t.Then? || t.Get? || t.Target? || t.Query?
    ensures Careful(Piece(w, k, a))
  {
    assert Current(w, w.tasks[k]);
    match w.tasks[k]
    case Load(job) => SameJobStaysCareful(w, k, job, if w.mem.Some? then Use(w.mem.value, job) else Fetched(job));
    case Fetched(job) => SameJobStaysCareful(w, k, job, Arrived(w.storage, job));
    case Target(_) => MovesCarefully(w, k, Piece(w, k, a).tasks[k], w.deeds);
    case Then(next) => ThenStaysCareful(w, k, next, if a.ok then w.focused else None);
    case Get(s, tab, goal) => GetStaysCareful(w, k, s, tab, goal);
    case Query(_, _, _, _) => QueryStaysCareful(w, k, a);
  }

  lemma ThenStaysCareful(w: Worker, k: nat, next: Next, focus: Option<nat>)
    requires Careful(w) && k < |w.tasks| && w.tasks[k] == Then(next)
    ensures Careful(NextPiece(w, k, next, focus))
  {
    MovesCarefully(w, k, NextPiece(w, k, next, focus).tasks[k], w.deeds);
  }

  lemma QueryStaysCareful(w: Worker, k: nat, a: Answer)
    requires Careful(w) && Enabled(w, Step(k, a)) && w.tasks[k].Query?
    ensures Careful(Piece(w, k, a))
  {
    var t := Piece(w, k, a);
    var task, deeds := t.tasks[k], t.deeds;
    assert t == Became(w.(deeds := deeds), k, task) && (task.Ended? || task.Remove?);
    MovesCarefully(w, k, task, deeds);
  }

  /** The loading goes on. */
  lemma SameJobStaysCareful(w: Worker, k: nat, job: Job, task: Task)
    requires Careful(w) && k < |w.tasks|
    requires (w.tasks[k] == Load(job) && ((w.mem.Some? && task == Use(w.mem.value, job)) ||
              (w.mem.None? && task == Fetched(job) && forall j :: 0 <= j < |w.tasks| ==> !Loading(w.tasks[j]))))
             || (w.tasks[k] == Fetched(job) && task == Arrived(w.storage, job))
    ensures Careful(Became(w, k, task))
  {
    assert Current(w, w.tasks[k]);
    assert forall s, tab :: Pending(task, s, tab) <==> Pending(w.tasks[k], s, tab);
    MovesCarefully(w, k, task, w.deeds);
  }

  lemma GetStaysCareful(w: Worker, k: nat, s: Session, tab: nat, goal: Goal)
    requires Careful(w) && k < |w.tasks| && w.tasks[k] == Get(s, tab, goal)
    ensures Careful(GetPiece(w, k, s, tab, goal))
  {
    var t := GetPiece(w, k, s, tab, goal);
    assert t == Became(w.(deeds := t.deeds), k, t.tasks[k]);
    MovesCarefully(w, k, t.tasks[k], t.deeds);
  }

  lemma StepStaysCareful(w: Worker, e: Event)
    requires Inv(w) && Careful(w) && Enabled(w, e) && Orderly(w, e)
    ensures Careful(Apply(w, e))
  {
    match e
    case Start(task) => StartsCarefully(w, task);
    case Step(k, a) => PieceStaysCareful(w, k, a);
    case Browse(tabs, focused) => BrowsesCarefully(w, tabs, focused);
    case Unload => UnloadsCarefully(w);
  }

  lemma {:induction false} RunStaysCareful(w: Worker, events: seq<Event>)
    requires Inv(w) && Careful(w) && Possible(w, events) && OrderlyRun(w, events)
    ensures Careful(After(w, events))
    decreases |events|
  {
    if events == [] {
    } else {
      StepKeepsInv(w, events[0]);
      StepStaysCareful(w, events[0]);
      RunStaysCareful(Apply(w, events[0]), events[1..]);
    }
  }

  /** Then the owner is found. */
  lemma OwnersAreFound(w: Worker, k: nat, a: Answer, s: Session, tab: nat, obj: nat, owner: Session)
    requires Inv(w) && Careful(w) && Enabled(w, Step(k, a)) && OrderlyPiece(w, k, a)
    requires w.tasks[k] == Use(obj, AskOwner(s, tab)) && owner in w.owned && w.owned[owner] == tab && tab in w.tabs
    ensures OwnerIn(w.heap[obj], tab) == Some(owner)
    ensures owner != s ==> Piece(w, k, a).deeds == w.deeds
  {
    assert Cared(w, owner) && Current(w, w.tasks[k]);
    OwnerIsUnique(w.heap[obj], w.creator, tab, owner);
  }

  /** In every orderly run, a tool that asks about a tab that another chat created last and has not
      closed is not given it. */
  lemma OrderlyRunsKeepTabsApart(events: seq<Event>, k: nat, a: Answer, s: Session, tab: nat, obj: nat, owner: Session)
    requires Possible(Initial(), events) && OrderlyRun(Initial(), events)
    requires var w := After(Initial(), events);
             && Enabled(w, Step(k, a)) && OrderlyPiece(w, k, a) && w.tasks[k] == Use(obj, AskOwner(s, tab))
             && tab in w.tabs && owner in w.owned && w.owned[owner] == tab && owner != s
    ensures var w := After(Initial(), events); Piece(w, k, a).deeds == w.deeds
  {
    RunKeepsInv(Initial(), events);
    RunStaysCareful(Initial(), events);
    OwnersAreFound(After(Initial(), events), k, a, s, tab, obj, owner);
  }

  // ---- runs in which it does ----

  /** A tool of session `s` asks for its target while `tab` is active. */
  function Asking(n: nat, s: Session, tab: nat): seq<Event> {
    var go := Fine(0, 0);
    [Start(Target(s)), Step(n, go.(active := Some(tab))), Step(n, go), Step(n, go)]
  }

  /** A tab unknown to the current tabs is given to whoever asks. */
  lemma AToolTakes(w: Worker, m: Tabs, s: Session, tab: nat) returns (t: Worker)
    requires InMemory(w, m) && OwnerIn(m, tab) == None && tab in w.tabs && w.tabs[tab].active
    ensures Leads(w, Asking(|w.tasks|, s, tab), t)
    ensures t.deeds == w.deeds + [Targeted(s, tab, Some(m))] && t.owned == w.owned
    ensures t.tabs == w.tabs && t.storage == w.storage
  {
    var n, obj := |w.tasks|, w.mem.value;
    var w1 := w.(tasks := w.tasks + [Target(s)]);
    var w2 := Became(w1, n, Load(AskOwner(s, tab)));
    var w3 := Became(w1, n, Use(obj, AskOwner(s, tab)));
    t := Became(w1.(deeds := w.deeds + [Targeted(s, tab, Some(m))]), n, Ended);
    FourEvents(w, Asking(n, s, tab), w1, w2, w3, t);
  }

  lemma NotYetOwned(m: Tabs, creator: map<nat, Session>, tab: nat)
    requires OwnTabs(m, creator) && tab !in creator
    ensures OwnerIn(m, tab) == None
  {
    OwnerIsUnique(m, creator, tab, 0);
  }

  /** Wherever a chat creates its tab, another chat's tool that runs before the tab is remembered is
      given that tab. */
  lemma ANewTabCanBeTaken(w: Worker, k: nat, maker: Session, m: Tabs, s: Session, a: Answer) returns (t: Worker)
    requires Inv(w) && Enabled(w, Step(k, a)) && w.tasks[k] == Create(maker) && a.ok && InMemory(w, m) && s != maker
    ensures Leads(w, [Step(k, a)] + Asking(|w.tasks|, s, a.newTab), t)
    ensures t.deeds == w.deeds + [Targeted(s, a.newTab, Some(m))]
    ensures maker in t.owned && t.owned[maker] == a.newTab
  {
    OneEvent(w, Step(k, a));
    var v := Piece(w, k, a);
    NotYetOwned(m, w.creator, a.newTab);
    t := AToolTakes(v, m, s, a.newTab);
    LeadsOn(w, [Step(k, a)], v, Asking(|w.tasks|, s, a.newTab), t);
  }

  /** Wherever a second load was overtaken by the remembering of a tab, that tab is lost when the load
      ends, and another chat's tool is given it. */
  lemma ALostTabIsTaken(w: Worker, k: nat, image: Tabs, job: Job, owner: Session, tab: nat, s: Session) returns (t: Worker)
    requires Inv(w) && k < |w.tasks| && w.tasks[k] == Arrived(image, job)
    requires owner in w.owned && w.owned[owner] == tab && owner !in image && s != owner
    requires tab in w.tabs && w.tabs[tab].active
    ensures Leads(w, [Step(k, Fine(0, 0))] + Asking(|w.tasks|, s, tab), t)
    ensures t.deeds == w.deeds + [Targeted(s, tab, Some(image))]
    ensures t.owned == w.owned && t.tabs == w.tabs && t.storage == w.storage
  {
    var e := Step(k, Fine(0, 0));
    OneEvent(w, e);
    var v := Piece(w, k, e.answer);
    assert OwnerIn(image, tab) == None by {
      assert TaskOk(w.tasks[k], |w.heap|, w.creator);
      OwnerIsUnique(image, w.creator, tab, owner);
    }
    t := AToolTakes(v, image, s, tab);
    LeadsOn(w, [e], v, Asking(|w.tasks|, s, tab), t);
  }

  /** Wherever a load fails, every chat's tab is lost. */
  lemma AFailedLoadLosesTabs(w: Worker, k: nat, job: Job, a: Answer, tab: nat, s: Session) returns (t: Worker)
    requires k < |w.tasks| && w.tasks[k] == Fetched(job) && !a.ok && a.active == None
    requires tab in w.tabs && w.tabs[tab].active
    ensures Leads(w, ([Step(k, a)] + [Step(k, a)]) + Asking(|w.tasks|, s, tab), t)
    ensures t.deeds == w.deeds + [Targeted(s, tab, Some(map[]))] && t.owned == w.owned && t.tabs == w.tabs
  {
    OneEvent(w, Step(k, a));
    var v := Piece(w, k, a);
    OneEvent(v, Step(k, a));
    var u := Piece(v, k, a);
    LeadsOn(w, [Step(k, a)], v, [Step(k, a)], u);
    assert InMemory(u, map[]);
    t := AToolTakes(u, map[], s, tab);
    LeadsOn(w, [Step(k, a)] + [Step(k, a)], u, Asking(|w.tasks|, s, tab), t);
  }

  /** Wherever a handler forgets a chat's live tab and does not close it, the tab is lost. */
  lemma ALateForgettingLosesATab(w: Worker, k: nat, obj: nat, owner: Session, next: Next, tab: nat, s: Session)
    returns (t: Worker)
    requires Inv(w) && k < |w.tasks| && w.tasks[k] == Use(obj, Forget(owner, next)) && w.mem == Some(obj)
    requires owner in w.owned && w.owned[owner] == tab && !(next.Focus? && next.tab == tab)
    requires tab in w.tabs && w.tabs[tab].active
    ensures Leads(w, [Step(k, Fine(0, 0))] + Asking(|w.tasks|, s, tab), t)
    ensures obj < |w.heap| && t.deeds == w.deeds + [Targeted(s, tab, Some(Without(w.heap[obj], owner)))]
    ensures t.owned == w.owned && t.tabs == w.tabs
  {
    assert TaskOk(w.tasks[k], |w.heap|, w.creator);
    var e, m := Step(k, Fine(0, 0)), Without(w.heap[obj], owner);
    OneEvent(w, e);
    var v := Piece(w, k, e.answer);
    assert OwnerIn(m, tab) == None by {
      assert OwnTabs(w.heap[obj], w.creator) && OwnTabs(w.owned, w.creator);
      OwnerIsUnique(m, w.creator, tab, owner);
    }
    t := AToolTakes(v, m, s, tab);
    LeadsOn(w, [e], v, Asking(|w.tasks|, s, tab), t);
  }

  /** A chat creates and remembers a tab while an older one of its tabs still waits: that one is
      remembered last. */
  function Twice(j: nat, k: nat, a: Answer): seq<Event> { [Step(k, a), Step(k, a), Step(k, a), Step(j, a)] }

  /** Wherever it does, the newer tab is lost. */
  lemma ASecondTabIsLost(w: Worker, j: nat, k: nat, obj: nat, owner: Session, older: nat, m: Tabs, s: Session, a: Answer)
    returns (t: Worker)
    requires Inv(w) && Enabled(w, Step(k, a)) && a.ok && a.active == None && w.tasks[k] == Create(owner)
    requires InMemory(w, m) && w.mem == Some(obj) && j < |w.tasks| && w.tasks[j] == Use(obj, Remember(owner, older))
    ensures Leads(w, Twice(j, k, a) + Asking(|w.tasks|, s, a.newTab), t)
    ensures t.deeds == w.deeds + [Targeted(s, a.newTab, Some(Put(m, owner, older)))]
    ensures owner in t.owned && t.owned[owner] == a.newTab && a.newTab in t.tabs
  {
    var now := Put(m, owner, older);
    var v := RememberedTwice(w, j, k, obj, owner, older, m, a);
    NewTabIsNobodys(w, j, m, owner, older, a.newTab);
    t := AToolTakes(v, now, s, a.newTab);
    LeadsOn(w, Twice(j, k, a), v, Asking(|w.tasks|, s, a.newTab), t);
  }

  lemma RememberedTwice(w: Worker, j: nat, k: nat, obj: nat, owner: Session, older: nat, m: Tabs, a: Answer) returns (t: Worker)
    requires Enabled(w, Step(k, a)) && a.ok && a.active == None && w.tasks[k] == Create(owner)
    requires InMemory(w, m) && w.mem == Some(obj) && j < |w.tasks| && w.tasks[j] == Use(obj, Remember(owner, older))
    ensures Leads(w, Twice(j, k, a), t) && InMemory(t, Put(m, owner, older)) && |t.tasks| == |w.tasks|
    ensures t.deeds == w.deeds && t.owned == w.owned[owner := a.newTab]
    ensures a.newTab in t.tabs && t.tabs[a.newTab].active
  {
    var w1, more := Piece(w, k, a), Put(m, owner, a.newTab);
    assert w1.tasks == w.tasks[k := Load(Remember(owner, a.newTab))] && w1.heap == w.heap && w1.mem == w.mem;
    var w2 := Became(w1, k, Use(obj, Remember(owner, a.newTab)));
    var w3 := Became(w1.(heap := w.heap[obj := more]), k, Stored(more, Finished));
    t := Piece(w3, j, a);
    FourEvents(w, Twice(j, k, a), w1, w2, w3, t);
    assert Put(Put(m, owner, a.newTab), owner, older) == Put(m, owner, older);
  }

  lemma NewTabIsNobodys(w: Worker, j: nat, m: Tabs, owner: Session, older: nat, tab: nat)
    requires Inv(w) && InMemory(w, m) && j < |w.tasks| && w.tasks[j].Use? && w.tasks[j].job == Remember(owner, older)
    requires tab !in w.used
    ensures OwnerIn(Put(m, owner, older), tab) == None
  {
    assert TaskOk(w.tasks[j], |w.heap|, w.creator);
    assert OwnTabs(Put(m, owner, older), w.creator);
    NotYetOwned(Put(m, owner, older), w.creator, tab);
  }

  /** A tool of session `s` asks while nothing is in memory: it reads storage first. */
  function AskingCold(n: nat, s: Session, tab: nat): seq<Event> {
    ColdReading(n, s, tab) + ([Step(n, Fine(0, 0))] + [Step(n, Fine(0, 0))])
  }

  function ColdReading(n: nat, s: Session, tab: nat): seq<Event> {
    var go := Fine(0, 0);
    [Start(Target(s)), Step(n, go.(active := Some(tab))), Step(n, go), Step(n, go)]
  }

  lemma AColdToolTakes(w: Worker, s: Session, tab: nat) returns (t: Worker)
    requires w.mem == None && OwnerIn(w.storage, tab) == None && tab in w.tabs && w.tabs[tab].active
    ensures Leads(w, AskingCold(|w.tasks|, s, tab), t)
    ensures t.deeds == w.deeds + [Targeted(s, tab, Some(w.storage))] && t.owned == w.owned && t.tabs == w.tabs
  {
    var n, go := |w.tasks|, Fine(0, 0);
    var v := ColdToolReads(w, s, tab);
    var u := Piece(v, n, go);
    OneEvent(v, Step(n, go));
    assert u.tasks[n] == Use(|w.heap|, AskOwner(s, tab)) && u.heap[|w.heap|] == w.storage;
    OneEvent(u, Step(n, go));
    t := Piece(u, n, go);
    LeadsOn(v, [Step(n, go)], u, [Step(n, go)], t);
    LeadsOn(w, ColdReading(n, s, tab), v, [Step(n, go)] + [Step(n, go)], t);
  }

  lemma ColdToolReads(w: Worker, s: Session, tab: nat) returns (t: Worker)
    requires w.mem == None && tab in w.tabs && w.tabs[tab].active
    ensures Leads(w, ColdReading(|w.tasks|, s, tab), t)
    ensures t == w.(tasks := w.tasks + [Arrived(w.storage, AskOwner(s, tab))])
  {
    var n, job := |w.tasks|, AskOwner(s, tab);
    var w1 := w.(tasks := w.tasks + [Target(s)]);
    var w2 := w.(tasks := w.tasks + [Load(job)]);
    var w3 := w.(tasks := w.tasks + [Fetched(job)]);
    t := w.(tasks := w.tasks + [Arrived(w.storage, job)]);
    FourEvents(w, ColdReading(n, s, tab), w1, w2, w3, t);
  }

  lemma NotStored(w: Worker, m: Tabs, owner: Session, tab: nat)
    requires OwnTabs(m, w.creator) && Made(owner, tab, w.creator) && !(owner in m && m[owner] == tab)
    ensures OwnerIn(m, tab) == None
  {
    OwnerIsUnique(m, w.creator, tab, owner);
  }

  /** Wherever the worker is unloaded while storage does not have a chat's tab, because it waits to be
      remembered, or a save failed or is still on its way, the tab is lost. */
  lemma AnUnloadingLosesATab(w: Worker, owner: Session, tab: nat, s: Session) returns (t: Worker)
    requires Inv(w) && owner in w.owned && w.owned[owner] == tab && tab in w.tabs && w.tabs[tab].active
    requires !(owner in w.storage && w.storage[owner] == tab)
    ensures Leads(w, [Unload] + AskingCold(|w.tasks|, s, tab), t)
    ensures t.deeds == w.deeds + [Targeted(s, tab, Some(w.storage))] && t.owned == w.owned && t.tabs == w.tabs
  {
    OneEvent(w, Unload);
    var v := Apply(w, Unload);
    NotStored(w, w.storage, owner, tab);
    t := AColdToolTakes(v, s, tab);
    LeadsOn(w, [Unload], v, AskingCold(|w.tasks|, s, tab), t);
  }

  /** Wherever it is unloaded before an old save has arrived, a tab remembered since is lost. */
  lemma ALateSaveLosesATab(w: Worker, k: nat, image: Tabs, next: Next, owner: Session, tab: nat, s: Session)
    returns (t: Worker)
    requires Inv(w) && owner in w.owned && w.owned[owner] == tab && tab in w.tabs && w.tabs[tab].active
    requires k < |w.tasks| && w.tasks[k] == Stored(image, next) && !(owner in image && image[owner] == tab)
    ensures Leads(w, ([Unload] + [Step(k, Fine(0, 0))]) + AskingCold(|w.tasks|, s, tab), t)
    ensures t.deeds == w.deeds + [Targeted(s, tab, Some(image))] && t.owned == w.owned && t.tabs == w.tabs
  {
    assert TaskOk(w.tasks[k], |w.heap|, w.creator);
    OneEvent(w, Unload);
    var v := Apply(w, Unload);
    assert v.tasks[k] == Stored(image, Finished);
    OneEvent(v, Step(k, Fine(0, 0)));
    var u := Piece(v, k, Fine(0, 0));
    LeadsOn(w, [Unload], v, [Step(k, Fine(0, 0))], u);
    NotStored(w, image, owner, tab);
    t := AColdToolTakes(u, s, tab);
    LeadsOn(w, [Unload] + [Step(k, Fine(0, 0))], u, AskingCold(|w.tasks|, s, tab), t);
  }

  /** The worker has just started, the user is at tab 1 in window 5, and chats 0 and 1 each open a page:
      both handlers find no tabs in memory and go to read storage; */
  function BothLoad(): seq<Event> {
    [Start(Load(Find(0, ForOpen))), Start(Load(Find(1, ForOpen))), Step(0, Fine(10, 5)), Step(1, Fine(10, 5))]
  }

  /** both have read it, and the first goes on. */
  function BothRead(): seq<Event> { [Step(0, Fine(10, 5))] + [Step(1, Fine(10, 5))] + [Step(0, Fine(10, 5))] }

  lemma SecondLoadIsUnderWay(w: Worker) returns (t: Worker)
    requires w == Initial().(tabs := map[1 := Tab(5, true)], focused := Some(5), used := {1})
    ensures Leads(w, BothLoad() + BothRead(), t) && InMemory(t, map[]) && t.used == w.used && t.deeds == []
    ensures t.tabs == w.tabs && t.owned == map[]
    ensures t.tasks == [Use(0, Find(0, ForOpen)), Arrived(map[], Find(1, ForOpen))] && t.mem == Some(0)
  {
    var a := Fine(10, 5);
    var j0, j1 := Find(0, ForOpen), Find(1, ForOpen);
    var w4 := BothFetch(w);
    var w5 := w.(tasks := [Arrived(map[], j0), Fetched(j1)]);
    var w6 := w.(tasks := [Arrived(map[], j0), Arrived(map[], j1)]);
    t := w.(heap := [map[]], mem := Some(0), tasks := [Use(0, j0), Arrived(map[], j1)]);
    OneEvent(w4, Step(0, a));
    OneEvent(w5, Step(1, a));
    OneEvent(w6, Step(0, a));
    LeadsOn(w4, [Step(0, a)], w5, [Step(1, a)], w6);
    LeadsOn(w4, [Step(0, a)] + [Step(1, a)], w6, [Step(0, a)], t);
    LeadsOn(w, BothLoad(), w4, BothRead(), t);
  }

  lemma BothFetch(w: Worker) returns (t: Worker)
    requires w == Initial().(tabs := map[1 := Tab(5, true)], focused := Some(5), used := {1})
    ensures Leads(w, BothLoad(), t) && t == w.(tasks := [Fetched(Find(0, ForOpen)), Fetched(Find(1, ForOpen))])
  {
    var j0, j1 := Find(0, ForOpen), Find(1, ForOpen);
    var w1 := w.(tasks := [Load(j0)]);
    var w2 := w.(tasks := [Load(j0), Load(j1)]);
    var w3 := w.(tasks := [Fetched(j0), Load(j1)]);
    t := w.(tasks := [Fetched(j0), Fetched(j1)]);
    FourEvents(w, BothLoad(), w1, w2, w3, t);
  }

  lemma TabIsRemembered() returns (events: seq<Event>, t: Worker)
    ensures Leads(Initial(), events, t) && Inv(t) && |t.tasks| == 2 && t.tasks[1] == Arrived(map[], Find(1, ForOpen))
    ensures t.owned == map[0 := 10] && 10 in t.tabs && t.tabs[10] == Tab(5, true)
    ensures t.storage == map[0 := 10] && t.deeds == []
  {
    var u := UserIsThere();
    var w := SecondLoadIsUnderWay(u);
    assert w.tabs[1].window == 5;
    t := Opening(w, 0, 0, map[], Fine(10, 5));
    var more := (BothLoad() + BothRead()) + Steps(0, Fine(10, 5), 8);
    LeadsOn(u, BothLoad() + BothRead(), w, Steps(0, Fine(10, 5), 8), t);
    LeadsOn(Initial(), UserStarts(), u, more, t);
    events := UserStarts() + more;
    RunKeepsInv(Initial(), events);
  }

  /** A run with nothing amiss but two loads at once: chat 0's tab is created, remembered and saved, and
      still chat 1's tool is given it. */
  lemma ARememberedTabIsTaken() returns (events: seq<Event>, t: Worker)
    ensures Leads(Initial(), events, t)
    ensures t.owned == map[0 := 10] && 10 in t.tabs && t.storage == map[0 := 10]
    ensures t.deeds == [Targeted(1, 10, Some(map[]))]
  {
    var first, w := TabIsRemembered();
    t := ALostTabIsTaken(w, 1, map[], Find(1, ForOpen), 0, 10, 1);
    events := first + ([Step(1, Fine(0, 0))] + Asking(2, 1, 10));
    LeadsOn(Initial(), first, w, [Step(1, Fine(0, 0))] + Asking(2, 1, 10), t);
  }
}
