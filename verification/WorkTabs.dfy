/** The extension's work tabs, one per chat (extension/background.js 522-605, 641-678, 927-943).

    Every `await` lets other handlers run, and the browser may unload the worker at any time, so a
    handler is a task that is run one piece at a time: `TabsProtocol` is the worker, its running
    handlers and the browser as a value, `WorkTabs` the pieces that touch the remembered tabs. */
module TabsProtocol {
  import opened Common

  /** A chat's session, by number. */
  type Session = nat

  /** What `workTabs` holds: the tab of each session. */
  type Tabs = map<Session, nat>

  datatype Tab = Tab(window: nat, active: bool)

  /** The tab comes to the front of its window. */
  function Fronted(tabs: map<nat, Tab>, tab: nat): map<nat, Tab> {
    if tab !in tabs then tabs
    else map t | t in tabs :: if tabs[t].window == tabs[tab].window then tabs[t].(active := t == tab) else tabs[t]
  }

  /** A new tab, in front. */
  function WithTab(tabs: map<nat, Tab>, tab: nat, window: nat): map<nat, Tab> {
    Fronted(tabs[tab := Tab(window, true)], tab)
  }

  /** A tab is closed; if it was in front, its heir comes to the front. */
  function WithoutTab(tabs: map<nat, Tab>, tab: nat, heir: Option<nat>): map<nat, Tab> {
    var rest := tabs - {tab};
    if tab in tabs && tabs[tab].active && heir.Some? then Fronted(rest, heir.value) else rest
  }

  predicate HasTab(tabs: map<nat, Tab>, window: nat) { exists t <- tabs :: tabs[t].window == window }

  /** Which window was in front last, when the one that was may have lost its last tab. */
  function FocusAfter(tabs: map<nat, Tab>, focused: Option<nat>, front: Option<nat>): Option<nat> {
    if focused.Some? && !HasTab(tabs, focused.value) then front else focused
  }

  ghost predicate HasActive(tabs: map<nat, Tab>, window: nat) {
    exists t <- tabs :: tabs[t].window == window && tabs[t].active
  }

  ghost predicate OneActive(tabs: map<nat, Tab>) {
    forall t, u :: t in tabs && u in tabs && tabs[t].window == tabs[u].window && tabs[t].active && tabs[u].active ==> t == u
  }

  ghost predicate EachActive(tabs: map<nat, Tab>) {
    forall t <- tabs :: HasActive(tabs, tabs[t].window)
  }

  /** What a browser can show: one active tab in each window, and a window in front that exists. */
  ghost predicate Lifelike(tabs: map<nat, Tab>, focused: Option<nat>) {
    OneActive(tabs) && EachActive(tabs) && (focused.Some? ==> HasTab(tabs, focused.value))
  }

  datatype Goal = ForOpen | ForTarget | ForClose

  /** What a handler does once it has the remembered tabs. */
  datatype Job =
    | Find(session: Session, goal: Goal)
    | Remember(session: Session, tab: nat)
    | Forget(session: Session, next: Next)
    | AskOwner(session: Session, tab: nat)
    | Removed(tab: nat)

  /** What is left of a handler after its tab was forgotten or nothing was found. */
  datatype Next = Finished | Missing(session: Session, goal: Goal) | Focus(session: Session, tab: nat, seen: Tab)

  /** A running handler, by what it does when it runs next. */
  datatype Task =
    | Ended
    | Load(job: Job)
    | Fetched(job: Job)
    | Arrived(image: Tabs, job: Job)
    | Use(obj: nat, job: Job)
    | Stored(image: Tabs, next: Next)
    | Then(next: Next)
    | Get(session: Session, tab: nat, goal: Goal)
    | Create(session: Session)
    | Target(session: Session)
    | Show(tab: nat)
    | Query(session: Session, tab: nat, seen: Tab, focus: Option<nat>)
    | Remove(session: Session, tab: nat, seen: Tab, focus: Option<nat>, count: nat)

  /** What handlers did: a tab was sent to another page, given to a tool (with the tabs consulted when
      it was the active tab), or closed. */
  datatype Deed =
    | Navigated(session: Session, tab: nat)
    | Targeted(session: Session, tab: nat, consulted: Option<Tabs>)
    | Closed(session: Session, tab: nat, seen: Tab, focus: Option<nat>, count: nat)

  /** `heap` holds every object `workTabs` ever was, `mem` is the one it is now. The rest but `tasks`
      is history: for which session a tab was created, which tab each session created last and has
      not given up by closing it, and the tab ids ever given out. */
  datatype Worker = Worker(
    heap: seq<Tabs>,
    mem: Option<nat>,
    storage: Tabs,
    tabs: map<nat, Tab>,
    focused: Option<nat>,
    used: set<nat>,
    creator: map<nat, Session>,
    owned: Tabs,
    tasks: seq<Task>,
    deeds: seq<Deed>
  )

  function Initial(): Worker { Worker([], None, map[], map[], None, {}, map[], map[], [], []) }

  /** What the browser answers a piece of a handler: does the call succeed, the active tab and
      whether it is protected, the id and window of a new tab, and, when a tab is closed, the tab
      that comes to the front of its window and the window that comes to the front if that one is
      gone. */
  datatype Answer = Answer(ok: bool, active: Option<nat>, shielded: bool, newTab: nat, window: nat,
                           heir: Option<nat>, front: Option<nat>)

  datatype Event =
    | Start(task: Task)
    | Step(k: nat, answer: Answer)
    | Browse(tabs: map<nat, Tab>, focused: Option<nat>)
    | Unload

  // ---- the pieces ----

  /** The session whose work tab this is. */
  ghost function OwnerIn(m: Tabs, tab: nat): Option<Session> {
    if s :| s in m && m[s] == tab then Some(s) else None
  }

  function Put(m: Tabs, s: Session, tab: nat): Tabs { m[s := tab] }

  function Without(m: Tabs, s: Session): Tabs { m - {s} }

  function TabsIn(tabs: map<nat, Tab>, window: nat): set<nat> { set t | t in tabs && tabs[t].window == window }

  function CountIn(tabs: map<nat, Tab>, window: nat): nat { |TabsIn(tabs, window)| }

  function Became(w: Worker, k: nat, task: Task): Worker
    requires k < |w.tasks|
  {
    w.(tasks := w.tasks[k := task])
  }

  /** `storage.session.set` is given `workTabs` as it is at that moment. */
  function Image(w: Worker): Tabs {
    if w.mem.Some? && w.mem.value < |w.heap| then w.heap[w.mem.value] else map[]
  }

  /** A session gives up its tab by closing that tab. */
  function GivenUp(owned: Tabs, s: Session, next: Next): Tabs {
    if next.Focus? && s in owned && owned[s] == next.tab then owned - {s} else owned
  }

  ghost function UsePiece(w: Worker, k: nat, obj: nat, job: Job): Worker
    requires k < |w.tasks| && obj < |w.heap|
  {
    match job
    case Find(s, goal) =>
      Became(w, k, if s in w.heap[obj] then Get(s, w.heap[obj][s], goal) else Then(Missing(s, goal)))
    case Remember(s, tab) =>
      var t := w.(heap := w.heap[obj := Put(w.heap[obj], s, tab)]);
      Became(t, k, Stored(Image(t), Finished))
    case Forget(s, next) =>
      var t := w.(heap := w.heap[obj := Without(w.heap[obj], s)], owned := GivenUp(w.owned, s, next));
      Became(t, k, Stored(Image(t), next))
    case AskOwner(s, tab) =>
      var owner := OwnerIn(w.heap[obj], tab);
      if owner == None || owner == Some(s) then
        Became(w.(deeds := w.deeds + [Targeted(s, tab, Some(w.heap[obj]))]), k, Ended)
      else Became(w, k, Load(Find(s, ForTarget)))
    case Removed(tab) =>
      var owner := OwnerIn(w.heap[obj], tab);
      Became(w, k, if owner.Some? then Load(Forget(owner.value, Finished)) else Ended)
  }

  function GetPiece(w: Worker, k: nat, s: Session, tab: nat, goal: Goal): Worker
    requires k < |w.tasks|
  {
    if tab !in w.tabs then Became(w, k, Load(Forget(s, Missing(s, goal))))
    else
      match goal
      case ForOpen => Became(w.(deeds := w.deeds + [Navigated(s, tab)]), k, Ended)
      case ForTarget => Became(w.(deeds := w.deeds + [Targeted(s, tab, None)]), k, Ended)
      case ForClose => Became(w, k, Load(Forget(s, Focus(s, tab, w.tabs[tab]))))
  }

  /** `focus` is the window in front, if the browser says. */
  function NextPiece(w: Worker, k: nat, next: Next, focus: Option<nat>): Worker
    requires k < |w.tasks|
  {
    match next
    case Finished => Became(w, k, Ended)
    case Missing(s, ForOpen) => Became(w, k, Create(s))
    case Missing(s, ForTarget) => Became(w, k, Ended)
    case Missing(s, ForClose) => Became(w, k, Load(Forget(s, Finished)))
    case Focus(s, tab, seen) =>
      Became(w, k, if seen.active && focus == Some(seen.window) then Ended else Query(s, tab, seen, focus))
  }

  /** A handler runs up to its next `await`. */
  ghost function Piece(w: Worker, k: nat, a: Answer): Worker
    requires Enabled(w, Step(k, a))
  {
    match w.tasks[k]
    case Ended => w
    case Load(job) => Became(w, k, if w.mem.Some? then Use(w.mem.value, job) else Fetched(job))
    case Fetched(job) => Became(w, k, Arrived(if a.ok then w.storage else map[], job))
    case Arrived(image, job) => Became(w.(heap := w.heap + [image], mem := Some(|w.heap|)), k, Use(|w.heap|, job))
    case Use(obj, job) => UsePiece(w, k, obj, job)
    case Stored(image, next) => Became(if a.ok then w.(storage := image) else w, k, Then(next))
    case Then(next) => NextPiece(w, k, next, if a.ok then w.focused else None)
    case Get(s, tab, goal) => GetPiece(w, k, s, tab, goal)
    case Create(s) =>
      if !a.ok then Became(w, k, Ended)
      else
        Became(w.(tabs := WithTab(w.tabs, a.newTab, a.window), used := w.used + {a.newTab},
                  creator := w.creator[a.newTab := s], owned := w.owned[s := a.newTab]),
               k, Load(Remember(s, a.newTab)))
    case Show(tab) => Became(w.(tabs := Fronted(w.tabs, tab)), k, Ended)
    case Target(s) =>
      Became(w, k, if a.active.Some? && !a.shielded then Load(AskOwner(s, a.active.value)) else Load(Find(s, ForTarget)))
    case Query(s, tab, seen, focus) =>
      var n := CountIn(w.tabs, seen.window);
      if n > 1 then Became(w, k, Remove(s, tab, seen, focus, n))
      else if tab in w.tabs then Became(w.(deeds := w.deeds + [Navigated(s, tab)]), k, Ended)
      else Became(w, k, Ended)
    case Remove(s, tab, seen, focus, n) =>
      if tab !in w.tabs || !a.ok then Became(w, k, Ended)
      else
        var rest := WithoutTab(w.tabs, tab, a.heir);
        Became(w.(tabs := rest, focused := FocusAfter(rest, w.focused, a.front),
                  deeds := w.deeds + [Closed(s, tab, seen, focus, n)]),
               k, Ended)
  }

  /** Where handlers begin: `browser.open`, a tool on the target tab, a tool that brings its tab to the
      front, the end of a chat's grace, and a tab's removal. */
  predicate Entry(t: Task) {
    match t
    case Load(Find(_, goal)) => goal != ForTarget
    case Load(Removed(_)) => true
    case Target(_) => true
    case Show(_) => true
    case _ => false
  }

  /** When the tab is closed: if it is the active one of several, one of the others becomes active. */
  ghost predicate HeirOk(tabs: map<nat, Tab>, tab: nat, heir: Option<nat>)
    requires tab in tabs
  {
    && (heir.Some? ==> heir.value in tabs && heir.value != tab && tabs[heir.value].window == tabs[tab].window)
    && (heir.None? && tabs[tab].active ==> !HasTab(tabs - {tab}, tabs[tab].window))
  }

  /** New tabs have new ids and open in a window that exists; the user's tabs are nobody's. */
  ghost predicate Enabled(w: Worker, e: Event) {
    match e
    case Start(t) => Entry(t)
    case Step(k, a) =>
      && k < |w.tasks| && (w.tasks[k].Use? ==> w.tasks[k].obj < |w.heap|)
      && (w.tasks[k].Create? && a.ok ==> a.newTab !in w.used && HasTab(w.tabs, a.window))
      && (w.tasks[k].Remove? && w.tasks[k].tab in w.tabs ==>
            && HeirOk(w.tabs, w.tasks[k].tab, a.heir)
            && (a.front.Some? ==> HasTab(w.tabs - {w.tasks[k].tab}, a.front.value)))
      && (a.active.Some? ==> a.active.value in w.tabs && w.tabs[a.active.value].active)
    case Browse(tabs, focused) => Lifelike(tabs, focused) && forall t <- tabs :: t in w.tabs || t !in w.used
    case Unload => true
  }

  /** Unloading ends every handler; a save already sent may still arrive. */
  function Interrupted(t: Task): Task {
    match t
    case Stored(image, _) => Stored(image, Finished)
    case _ => Ended
  }

  ghost function Apply(w: Worker, e: Event): Worker
    requires Enabled(w, e)
  {
    match e
    case Start(t) => w.(tasks := w.tasks + [t])
    case Step(k, a) => Piece(w, k, a)
    case Browse(tabs, focused) => w.(tabs := tabs, focused := focused, used := w.used + tabs.Keys)
    case Unload => w.(mem := None, tasks := seq(|w.tasks|, i requires 0 <= i < |w.tasks| => Interrupted(w.tasks[i])))
  }

  // ---- a step leaves the other handlers alone ----

  predicate MovedOne(w: Worker, t: Worker, k: nat) {
    k < |w.tasks| == |t.tasks| && t.tasks == w.tasks[k := t.tasks[k]]
  }

  lemma UseMovesOne(w: Worker, k: nat, obj: nat, job: Job)
    requires k < |w.tasks| && obj < |w.heap|
    ensures var t := UsePiece(w, k, obj, job); MovedOne(w, t, k) && !t.tasks[k].Remove?
    ensures var t := UsePiece(w, k, obj, job); t.tabs == w.tabs && t.focused == w.focused && t.used == w.used
  {
  }

  lemma GetMovesOne(w: Worker, k: nat, s: Session, tab: nat, goal: Goal)
    requires k < |w.tasks|
    ensures var t := GetPiece(w, k, s, tab, goal); MovedOne(w, t, k) && !t.tasks[k].Remove?
    ensures var t := GetPiece(w, k, s, tab, goal); t.tabs == w.tabs && t.focused == w.focused && t.used == w.used
  {
  }

  lemma NextMovesOne(w: Worker, k: nat, next: Next, focus: Option<nat>)
    requires k < |w.tasks|
    ensures var t := NextPiece(w, k, next, focus); MovedOne(w, t, k) && !t.tasks[k].Remove?
    ensures var t := NextPiece(w, k, next, focus); t.tabs == w.tabs && t.focused == w.focused && t.used == w.used
  {
  }

  lemma PieceMovesOne(w: Worker, k: nat, a: Answer)
    requires Enabled(w, Step(k, a))
    ensures MovedOne(w, Piece(w, k, a), k)
  {
    match w.tasks[k]
    case Use(obj, job) => UseMovesOne(w, k, obj, job);
    case Get(s, tab, goal) => GetMovesOne(w, k, s, tab, goal);
    case Then(next) => NextMovesOne(w, k, next, if a.ok then w.focused else None);
    case _ =>
  }

  /** An unloading ends them all. */
  lemma OthersStay(w: Worker, e: Event, k: nat)
    requires Enabled(w, e) && k < |w.tasks| && (e.Step? ==> e.k != k)
    ensures k < |Apply(w, e).tasks|
    ensures Apply(w, e).tasks[k] == if e.Unload? then Interrupted(w.tasks[k]) else w.tasks[k]
  {
    if e.Step? {
      PieceMovesOne(w, e.k, e.answer);
    }
  }

  // ---- the invariant ----

  /** Each session is mapped to a tab that was created for it. */
  ghost predicate OwnTabs(m: Tabs, creator: map<nat, Session>) {
    forall s <- m :: m[s] in creator && creator[m[s]] == s
  }

  predicate Made(session: Session, tab: nat, creator: map<nat, Session>) {
    tab in creator && creator[tab] == session
  }

  predicate NextOk(next: Next, creator: map<nat, Session>) {
    next.Focus? ==> Made(next.session, next.tab, creator)
  }

  predicate JobOk(job: Job, creator: map<nat, Session>) {
    match job
    case Remember(s, tab) => Made(s, tab, creator)
    case Forget(_, next) => NextOk(next, creator)
    case _ => true
  }

  /** A tab about to be closed was not in sight when it was looked at, nor alone in its window. */
  predicate Unseen(seen: Tab, focus: Option<nat>) { !(seen.active && focus == Some(seen.window)) }

  ghost predicate TaskOk(t: Task, objects: nat, creator: map<nat, Session>) {
    match t
    case Load(job) => JobOk(job, creator)
    case Fetched(job) => JobOk(job, creator)
    case Arrived(image, job) => OwnTabs(image, creator) && JobOk(job, creator)
    case Use(obj, job) => obj < objects && JobOk(job, creator)
    case Stored(image, next) => OwnTabs(image, creator) && NextOk(next, creator)
    case Then(next) => NextOk(next, creator)
    case Get(s, tab, _) => Made(s, tab, creator)
    case Query(s, tab, seen, focus) => Made(s, tab, creator) && Unseen(seen, focus)
    case Remove(s, tab, seen, focus, n) => Made(s, tab, creator) && Unseen(seen, focus) && n >= 2
    case _ => true
  }

  /** The tab a tool is given is nobody else's in the tabs consulted, or the chat's own; a tab that
      is closed was made for that chat, out of sight and not alone, as far as the handler saw. */
  ghost predicate DeedOk(d: Deed, creator: map<nat, Session>) {
    match d
    case Navigated(s, tab) => Made(s, tab, creator)
    case Targeted(s, tab, Some(m)) => OwnTabs(m, creator) && forall o <- m :: m[o] == tab ==> o == s
    case Targeted(s, tab, None) => Made(s, tab, creator)
    case Closed(s, tab, seen, focus, n) => Made(s, tab, creator) && Unseen(seen, focus) && n >= 2
  }

  ghost predicate Inv(w: Worker) {
    && (forall i :: 0 <= i < |w.heap| ==> OwnTabs(w.heap[i], w.creator))
    && OwnTabs(w.storage, w.creator) && OwnTabs(w.owned, w.creator)
    && (w.mem.Some? ==> w.mem.value < |w.heap|)
    && w.creator.Keys <= w.used && w.tabs.Keys <= w.used
    && (forall k :: 0 <= k < |w.tasks| ==> TaskOk(w.tasks[k], |w.heap|, w.creator))
    && (forall k :: 0 <= k < |w.deeds| ==> DeedOk(w.deeds[k], w.creator))
  }

  // ---- every step keeps the invariant ----

  /** A tab newly created changes nothing about those before it. */
  lemma MoreTabs(w: Worker, tab: nat, s: Session)
    requires Inv(w) && tab !in w.used
    ensures var creator := w.creator[tab := s];
            && (forall i :: 0 <= i < |w.heap| ==> OwnTabs(w.heap[i], creator))
            && OwnTabs(w.storage, creator) && OwnTabs(w.owned[s := tab], creator)
            && (forall k :: 0 <= k < |w.tasks| ==> TaskOk(w.tasks[k], |w.heap|, creator))
            && (forall k :: 0 <= k < |w.deeds| ==> DeedOk(w.deeds[k], creator))
  {
    assert tab !in w.creator;
  }

  /** Only the handler itself moved on. */
  lemma PieceKeepsInv(w: Worker, k: nat, task: Task)
    requires Inv(w) && k < |w.tasks| && TaskOk(task, |w.heap|, w.creator)
    ensures Inv(Became(w, k, task))
  {
  }

  lemma WrittenKeepsInv(w: Worker, obj: nat, m: Tabs, owned: Tabs)
    requires Inv(w) && obj < |w.heap| && OwnTabs(m, w.creator) && OwnTabs(owned, w.creator)
    ensures var t := w.(heap := w.heap[obj := m], owned := owned); Inv(t) && OwnTabs(Image(t), t.creator)
  {
  }

  lemma DeedKeepsInv(w: Worker, d: Deed)
    requires Inv(w) && DeedOk(d, w.creator)
    ensures Inv(w.(deeds := w.deeds + [d]))
  {
  }

  lemma DeedDone(w: Worker, k: nat, d: Deed)
    requires Inv(w) && k < |w.tasks| && DeedOk(d, w.creator)
    ensures Inv(Became(w.(deeds := w.deeds + [d]), k, Ended))
  {
    DeedKeepsInv(w, d);
    PieceKeepsInv(w.(deeds := w.deeds + [d]), k, Ended);
  }

  /** The session found is the only one with that tab. */
  lemma OwnerIsUnique(m: Tabs, creator: map<nat, Session>, tab: nat, s: Session)
    requires OwnTabs(m, creator)
    ensures OwnerIn(m, tab) == Some(s) <==> s in m && m[s] == tab
    ensures OwnerIn(m, tab) == None <==> forall o <- m :: m[o] != tab
  {
    if o :| o in m && m[o] == tab {
      assert creator[tab] == o;
    }
  }

  lemma UseKeepsInv(w: Worker, k: nat, obj: nat, job: Job)
    requires Inv(w) && k < |w.tasks| && w.tasks[k] == Use(obj, job)
    ensures obj < |w.heap| && Inv(UsePiece(w, k, obj, job))
  {
    assert TaskOk(w.tasks[k], |w.heap|, w.creator);
    var m := w.heap[obj];
    match job
    case Find(s, goal) =>
      PieceKeepsInv(w, k, if s in m then Get(s, m[s], goal) else Then(Missing(s, goal)));
    case Remember(s, tab) =>
      WrittenKeepsInv(w, obj, Put(m, s, tab), w.owned);
      var t := w.(heap := w.heap[obj := Put(m, s, tab)]);
      PieceKeepsInv(t, k, Stored(Image(t), Finished));
    case Forget(s, next) =>
      WrittenKeepsInv(w, obj, Without(m, s), GivenUp(w.owned, s, next));
      var t := w.(heap := w.heap[obj := Without(m, s)], owned := GivenUp(w.owned, s, next));
      PieceKeepsInv(t, k, Stored(Image(t), next));
    case AskOwner(s, tab) =>
      var owner := OwnerIn(m, tab);
      if owner == None || owner == Some(s) {
        OwnerIsUnique(m, w.creator, tab, s);
        forall o | o in m && m[o] == tab ensures o == s { OwnerIsUnique(m, w.creator, tab, o); }
        DeedDone(w, k, Targeted(s, tab, Some(m)));
      } else {
        PieceKeepsInv(w, k, Load(Find(s, ForTarget)));
      }
    case Removed(tab) =>
      var owner := OwnerIn(m, tab);
      PieceKeepsInv(w, k, if owner.Some? then Load(Forget(owner.value, Finished)) else Ended);
  }

  lemma GetKeepsInv(w: Worker, k: nat, s: Session, tab: nat, goal: Goal)
    requires Inv(w) && k < |w.tasks| && w.tasks[k] == Get(s, tab, goal)
    ensures Inv(GetPiece(w, k, s, tab, goal))
  {
    assert TaskOk(w.tasks[k], |w.heap|, w.creator);
    if tab !in w.tabs {
      PieceKeepsInv(w, k, Load(Forget(s, Missing(s, goal))));
    } else {
      match goal
      case ForOpen => DeedDone(w, k, Navigated(s, tab));
      case ForTarget =>
        DeedDone(w, k, Targeted(s, tab, None));
      case ForClose => PieceKeepsInv(w, k, Load(Forget(s, Focus(s, tab, w.tabs[tab]))));
    }
  }

  lemma CreateKeepsInv(w: Worker, k: nat, s: Session, a: Answer)
    requires Inv(w) && Enabled(w, Step(k, a)) && w.tasks[k] == Create(s)
    ensures Inv(Piece(w, k, a))
  {
    if a.ok {
      MoreTabs(w, a.newTab, s);
      var t := w.(tabs := WithTab(w.tabs, a.newTab, a.window), used := w.used + {a.newTab},
                  creator := w.creator[a.newTab := s], owned := w.owned[s := a.newTab]);
      assert Inv(t);
      PieceKeepsInv(t, k, Load(Remember(s, a.newTab)));
    } else {
      PieceKeepsInv(w, k, Ended);
    }
  }

  lemma ShowKeepsInv(w: Worker, k: nat, tab: nat)
    requires Inv(w) && k < |w.tasks|
    ensures Inv(Became(w.(tabs := Fronted(w.tabs, tab)), k, Ended))
  {
    PieceKeepsInv(w.(tabs := Fronted(w.tabs, tab)), k, Ended);
  }

  lemma ArrivedKeepsInv(w: Worker, k: nat, a: Answer)
    requires Inv(w) && Enabled(w, Step(k, a)) && w.tasks[k].Arrived?
    ensures Inv(Piece(w, k, a))
  {
    assert TaskOk(w.tasks[k], |w.heap|, w.creator);
    var t := w.(heap := w.heap + [w.tasks[k].image], mem := Some(|w.heap|));
    assert Inv(t);
    PieceKeepsInv(t, k, Use(|w.heap|, w.tasks[k].job));
  }

  lemma RemoveKeepsInv(w: Worker, k: nat, a: Answer)
    requires Inv(w) && Enabled(w, Step(k, a)) && w.tasks[k].Remove?
    ensures Inv(Piece(w, k, a))
  {
    assert TaskOk(w.tasks[k], |w.heap|, w.creator);
    var r := w.tasks[k];
    PieceKeepsInv(w, k, Ended);
    DeedKeepsInv(w, Closed(r.session, r.tab, r.seen, r.focus, r.count));
    var rest := WithoutTab(w.tabs, r.tab, a.heir);
    var t := w.(tabs := rest, focused := FocusAfter(rest, w.focused, a.front),
                deeds := w.deeds + [Closed(r.session, r.tab, r.seen, r.focus, r.count)]);
    PieceKeepsInv(t, k, Ended);
  }

  lemma QueryKeepsInv(w: Worker, k: nat, a: Answer)
    requires Inv(w) && Enabled(w, Step(k, a)) && w.tasks[k].Query?
    ensures Inv(Piece(w, k, a))
  {
    assert TaskOk(w.tasks[k], |w.heap|, w.creator);
    var q := w.tasks[k];
    var n := CountIn(w.tabs, q.seen.window);
    PieceKeepsInv(w, k, if n <= 1 then Ended else Remove(q.session, q.tab, q.seen, q.focus, n));
    DeedDone(w, k, Navigated(q.session, q.tab));
  }

  lemma NextKeepsInv(w: Worker, k: nat, next: Next, focus: Option<nat>)
    requires Inv(w) && k < |w.tasks| && NextOk(next, w.creator)
    ensures Inv(NextPiece(w, k, next, focus))
  {
    match next
    case Finished => PieceKeepsInv(w, k, Ended);
    case Missing(s, ForOpen) => PieceKeepsInv(w, k, Create(s));
    case Missing(s, ForTarget) => PieceKeepsInv(w, k, Ended);
    case Missing(s, ForClose) => PieceKeepsInv(w, k, Load(Forget(s, Finished)));
    case Focus(s, tab, seen) =>
      PieceKeepsInv(w, k, if seen.active && focus == Some(seen.window) then Ended else Query(s, tab, seen, focus));
  }

  lemma UnloadKeepsInv(w: Worker)
    requires Inv(w)
    ensures Inv(Apply(w, Unload))
  {
    var t := Apply(w, Unload);
    forall k | 0 <= k < |t.tasks| ensures TaskOk(t.tasks[k], |t.heap|, t.creator) {
      assert TaskOk(w.tasks[k], |w.heap|, w.creator);
    }
  }

  lemma StepKeepsInv(w: Worker, e: Event)
    requires Inv(w) && Enabled(w, e)
    ensures Inv(Apply(w, e))
  {
    match e
    case Start(t) =>
    case Browse(tabs, focused) =>
    case Unload => UnloadKeepsInv(w);
    case Step(k, a) =>
      assert TaskOk(w.tasks[k], |w.heap|, w.creator);
      match w.tasks[k] {
        case Ended =>
        case Load(job) => PieceKeepsInv(w, k, if w.mem.Some? then Use(w.mem.value, job) else Fetched(job));
        case Fetched(job) => PieceKeepsInv(w, k, Arrived(if a.ok then w.storage else map[], job));
        case Arrived(_, _) => ArrivedKeepsInv(w, k, a);
        case Use(obj, job) => UseKeepsInv(w, k, obj, job);
        case Stored(image, next) => PieceKeepsInv(if a.ok then w.(storage := image) else w, k, Then(next));
        case Then(next) => NextKeepsInv(w, k, next, if a.ok then w.focused else None);
        case Get(s, tab, goal) => GetKeepsInv(w, k, s, tab, goal);
        case Create(s) => CreateKeepsInv(w, k, s, a);
        case Show(tab) => ShowKeepsInv(w, k, tab);
        case Target(s) =>
          PieceKeepsInv(w, k, if a.active.Some? && !a.shielded then Load(AskOwner(s, a.active.value)) else Load(Find(s, ForTarget)));
        case Query(s, tab, seen, focus) =>
          QueryKeepsInv(w, k, a);
        case Remove(_, _, _, _, _) => RemoveKeepsInv(w, k, a);
      }
  }

  // ---- runs ----

  ghost predicate Possible(w: Worker, events: seq<Event>)
    decreases |events|
  {
    events == [] || (Enabled(w, events[0]) && Possible(Apply(w, events[0]), events[1..]))
  }

  ghost function After(w: Worker, events: seq<Event>): Worker
    requires Possible(w, events)
    decreases |events|
  {
    if events == [] then w else After(Apply(w, events[0]), events[1..])
  }

  lemma {:induction false} RunKeepsInv(w: Worker, events: seq<Event>)
    requires Inv(w) && Possible(w, events)
    ensures Inv(After(w, events))
    decreases |events|
  {
    if events == [] {
    } else {
      StepKeepsInv(w, events[0]);
      RunKeepsInv(Apply(w, events[0]), events[1..]);
    }
  }

  /** The tabs remembered in memory, in storage, or in an object some handler still holds. */
  ghost predicate Remembered(w: Worker, m: Tabs) { m == w.storage || m in w.heap }

  /** In every run, however handlers interleave and however often the worker is unloaded, a tab is
      the work tab of one chat at most, even between different copies of the tabs. */
  lemma ATabIsOneChats(events: seq<Event>, m: Tabs, n: Tabs, a: Session, b: Session)
    requires Possible(Initial(), events)
    requires Remembered(After(Initial(), events), m) && Remembered(After(Initial(), events), n)
    requires a in m && b in n && m[a] == n[b]
    ensures a == b
  {
    RunKeepsInv(Initial(), events);
  }

  /** In every run a handler navigates only tabs made for its chat; a tool is given a tab that is no
      other chat's in the tabs consulted, or that was made for its own; and a handler closes only a
      tab made for its chat that, when it looked, was not active in the focused window and not alone
      in its window. */
  lemma HandlersKeepToTheirTabs(events: seq<Event>, k: nat)
    requires Possible(Initial(), events) && k < |After(Initial(), events).deeds|
    ensures var w := After(Initial(), events);
            match w.deeds[k]
            case Navigated(s, tab) => tab in w.creator && w.creator[tab] == s
            case Targeted(s, tab, Some(m)) => forall o <- m :: m[o] == tab ==> o == s
            case Targeted(s, tab, None) => tab in w.creator && w.creator[tab] == s
            case Closed(s, tab, seen, focus, n) =>
              tab in w.creator && w.creator[tab] == s && !(seen.active && focus == Some(seen.window)) && n >= 2
  {
    RunKeepsInv(Initial(), events);
    assert DeedOk(After(Initial(), events).deeds[k], After(Initial(), events).creator);
  }
}

/** The worker's own variables. `objects` are the objects `workTabs` has been; a handler that got one
    keeps it even when `workTabs` has become another. */
module WorkTabs {
  import opened Common
  import opened P = TabsProtocol

  class Background {
    var objects: seq<Tabs>
    var workTabs: Option<nat>
    var stored: Tabs

    ghost predicate Matches(w: Worker)
      reads this
    {
      objects == w.heap && workTabs == w.mem && stored == w.storage
    }

    constructor ()
      ensures Matches(Initial()) && Inv(Initial())
    {
      objects, workTabs, stored := [], None, map[];
    }

    /** `loadWorkTabs` up to its `await`: the handler goes on with the tabs in memory, or to storage. */
    method LoadWorkTabs(ghost w: Worker, ghost k: nat, ghost a: Answer) returns (obj: Option<nat>)
      requires Matches(w) && Inv(w) && Enabled(w, Step(k, a)) && w.tasks[k].Load?
      ensures Matches(Piece(w, k, a)) && Inv(Piece(w, k, a))
      ensures Piece(w, k, a).tasks[k] == if obj.Some? then Use(obj.value, w.tasks[k].job) else Fetched(w.tasks[k].job)
      ensures obj.Some? ==> obj.value < |objects|
    {
      StepKeepsInv(w, Step(k, a));
      obj := workTabs;
    }

    /** `loadWorkTabs` after its `await`: the value read becomes `workTabs`, also when another handler
        has done the same or saved something else in the meantime. */
    method TabsArrive(image: Tabs, ghost w: Worker, ghost k: nat, ghost a: Answer) returns (obj: nat)
      requires Matches(w) && Inv(w) && Enabled(w, Step(k, a)) && w.tasks[k].Arrived? && w.tasks[k].image == image
      modifies this
      ensures Matches(Piece(w, k, a)) && Inv(Piece(w, k, a)) && Piece(w, k, a).tasks[k] == Use(obj, w.tasks[k].job)
    {
      StepKeepsInv(w, Step(k, a));
      obj := |objects|;
      objects := objects + [image];
      workTabs := Some(obj);
    }

    /** What a read of storage yields; a failed one yields no tabs. */
    method ReadStorage(ghost w: Worker, ghost k: nat, ghost a: Answer, ok: bool) returns (image: Tabs)
      requires Matches(w) && Inv(w) && Enabled(w, Step(k, a)) && w.tasks[k].Fetched? && a.ok == ok
      ensures Matches(Piece(w, k, a)) && Inv(Piece(w, k, a))
      ensures Piece(w, k, a).tasks[k] == Arrived(image, w.tasks[k].job) && OwnTabs(image, w.creator)
    {
      StepKeepsInv(w, Step(k, a));
      image := if ok then stored else map[];
    }

    /** `rememberWorkTab`: returns what is sent to storage. */
    method RememberWorkTab(obj: nat, session: Session, tab: nat, ghost w: Worker, ghost k: nat) returns (image: Tabs)
      requires Matches(w) && Inv(w) && k < |w.tasks| && w.tasks[k] == Use(obj, Remember(session, tab))
      modifies this
      ensures var t := UsePiece(w, k, obj, Remember(session, tab));
              Matches(t) && Inv(t) && t.tasks[k] == Stored(image, Finished)
    {
      UseKeepsInv(w, k, obj, Remember(session, tab));
      objects := objects[obj := Put(objects[obj], session, tab)];
      image := if workTabs.Some? then objects[workTabs.value] else map[];
    }

    /** `forgetWorkTab` likewise. */
    method ForgetWorkTab(obj: nat, session: Session, ghost next: Next, ghost w: Worker, ghost k: nat)
      returns (image: Tabs)
      requires Matches(w) && Inv(w) && k < |w.tasks| && w.tasks[k] == Use(obj, Forget(session, next))
      modifies this
      ensures var t := UsePiece(w, k, obj, Forget(session, next));
              Matches(t) && Inv(t) && t.tasks[k] == Stored(image, next)
    {
      UseKeepsInv(w, k, obj, Forget(session, next));
      objects := objects[obj := Without(objects[obj], session)];
      image := if workTabs.Some? then objects[workTabs.value] else map[];
    }

    method SaveArrives(image: Tabs, ok: bool, ghost w: Worker, ghost k: nat, ghost a: Answer)
      requires Matches(w) && Inv(w) && Enabled(w, Step(k, a)) && a.ok == ok
      requires w.tasks[k].Stored? && w.tasks[k].image == image
      modifies this
      ensures Matches(Piece(w, k, a)) && Inv(Piece(w, k, a))
    {
      StepKeepsInv(w, Step(k, a));
      if ok {
        stored := image;
      }
    }

    /** `ownerOf` goes through the sessions; the invariant makes the order irrelevant. */
    method OwnerOf(obj: nat, tab: nat, ghost w: Worker) returns (owner: Option<Session>)
      requires Matches(w) && Inv(w) && obj < |objects|
      ensures owner == OwnerIn(w.heap[obj], tab)
    {
      var m := objects[obj];
      var keys := m.Keys;
      while keys != {}
        invariant keys <= m.Keys
        invariant forall s <- m :: s in keys || m[s] != tab
        decreases |keys|
      {
        var s :| s in keys;
        OwnerIsUnique(m, w.creator, tab, s);
        if m[s] == tab {
          return Some(s);
        }
        keys := keys - {s};
      }
      OwnerIsUnique(m, w.creator, tab, 0);
      owner := None;
    }
  }
}
