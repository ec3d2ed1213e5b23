/** The COM worker (com.py): one thread serves a FIFO of futures; a thread stuck in a call is
    written off and its waiting jobs move to a fresh queue served by a fresh thread.

    `ComProtocol` is the state machine: one step per atomic section of the source (a queue operation,
    a future transition, a `with self._lock` block), taken by the caller or by any thread, in any
    order. `ComWorker.Worker` is the class; each of its methods performs one of those steps (or, for
    `Submit` and `Abandon`, a fixed run of them) on the fields of the source. */
module ComProtocol {
  import opened Common

  /** Jobs are numbered in the order in which `submit` put them on the queue. */
  datatype Message = Job(id: nat) | StopToken

  datatype Future = Pending | Cancelled | Running | Finished

  /** Where a thread stands in `_run`: blocked on its queue; holding a job it has dequeued; past
      `set_running_or_notify_cancel`; inside `job.fn`; past the book-keeping; out of the loop. */
  datatype Pc =
    | Waiting
    | Holding(job: nat)
    | Claimed(job: nat)
    | Calling(job: nat)
    | Returned(job: nat)
    | Exited

  /** A thread and the index of the queue it was started on. */
  datatype Thread = Thread(pc: Pc, jobs: nat)

  /** `started` and `respawnedAt` are history: the calls of `job.fn` and the replacement instants. */
  datatype State = State(
    queues: seq<seq<Message>>,
    queue: nat,
    threads: seq<Thread>,
    thread: Option<nat>,
    futures: seq<Future>,
    current: Option<nat>,
    currentSince: int,
    now: int,
    abandoned: nat,
    completed: nat,
    restarts: nat,
    started: seq<nat>,
    respawnedAt: seq<int>
  )

  datatype Event =
    | Start
    | Respawn
    | Put
    | Cancel(job: nat)
    | Tick(elapsed: nat)
    | Take(t: nat)
    | Claim(t: nat)
    | Begin(t: nat)
    | Finish(t: nat)
    | Resolve(t: nat)

  function Initial(now: int): State {
    State([[]], 0, [], None, [], None, 0, now, 0, 0, 0, [], [])
  }

  // ---- the atomic steps ----

  predicate Alive(s: State) {
    s.thread.Some? && s.thread.value < |s.threads| && !s.threads[s.thread.value].pc.Exited?
  }

  predicate Wedged(s: State, wedgeAfter: Option<int>) {
    wedgeAfter.Some? && s.current.Some? && s.now - s.currentSince >= wedgeAfter.value
  }

  function Spawn(s: State): State {
    s.(threads := s.threads + [Thread(Waiting, s.queue)], thread := Some(|s.threads|))
  }

  function JobsOnly(q: seq<Message>): (r: seq<Message>)
    ensures forall m <- r :: m.Job?
  {
    if q == [] then [] else (if q[0].Job? then [q[0]] else []) + JobsOnly(q[1..])
  }

  function Replace(s: State): State
    requires s.queue < |s.queues|
  {
    Spawn(s.(
      queues := s.queues[s.queue := [StopToken]] + [JobsOnly(s.queues[s.queue])],
      queue := |s.queues|,
      current := None,
      restarts := s.restarts + 1,
      respawnedAt := s.respawnedAt + [s.now]))
  }

  predicate Enabled(s: State, e: Event) {
    match e
    case Start => true
    case Respawn => s.queue < |s.queues|
    case Put => s.thread.Some? && s.queue < |s.queues|
    case Cancel(j) => j < |s.futures|
    case Tick(_) => true
    case Take(t) =>
      && t < |s.threads| && s.threads[t].pc.Waiting?
      && s.threads[t].jobs < |s.queues| && s.queues[s.threads[t].jobs] != []
    case Claim(t) => t < |s.threads| && s.threads[t].pc.Holding? && s.threads[t].pc.job < |s.futures|
    case Begin(t) => t < |s.threads| && s.threads[t].pc.Claimed?
    case Finish(t) => t < |s.threads| && s.threads[t].pc.Calling?
    case Resolve(t) => t < |s.threads| && s.threads[t].pc.Returned? && s.threads[t].pc.job < |s.futures|
  }

  function Goto(s: State, t: nat, pc: Pc): State
    requires t < |s.threads|
  {
    s.(threads := s.threads[t := s.threads[t].(pc := pc)])
  }

  function Apply(s: State, e: Event, wedgeAfter: Option<int>): State
    requires Enabled(s, e)
  {
    match e
    case Start => if Alive(s) then s else Spawn(s)
    case Respawn => if Wedged(s, wedgeAfter) then Replace(s) else s
    case Put =>
      s.(queues := s.queues[s.queue := s.queues[s.queue] + [Job(|s.futures|)]],
         futures := s.futures + [Pending])
    case Cancel(j) =>
      (match s.futures[j]
       case Pending => s.(futures := s.futures[j := Cancelled])
       case Cancelled => s
       case _ => s.(abandoned := s.abandoned + 1))
    case Tick(d) => s.(now := s.now + d)
    case Take(t) =>
      var q := s.threads[t].jobs;
      var m := s.queues[q][0];
      Goto(s, t, if m.Job? then Holding(m.id) else Exited).(queues := s.queues[q := s.queues[q][1..]])
    case Claim(t) =>
      var j := s.threads[t].pc.job;
      if s.futures[j].Pending? then Goto(s, t, Claimed(j)).(futures := s.futures[j := Running])
      else Goto(s, t, Waiting)
    case Begin(t) =>
      var j := s.threads[t].pc.job;
      Goto(s, t, Calling(j)).(current := Some(j), currentSince := s.now, started := s.started + [j])
    case Finish(t) =>
      var j := s.threads[t].pc.job;
      Goto(s, t, Returned(j)).(
        current := if s.current == Some(j) then None else s.current,
        completed := s.completed + 1)
    case Resolve(t) =>
      var j := s.threads[t].pc.job;
      Goto(s, t, Waiting).(futures := s.futures[j := Finished])
  }

  // ---- the invariant ----

  /** The job a thread has claimed and not yet resolved. */
  function Busy(pc: Pc): Option<nat> {
    match pc
    case Claimed(j) => Some(j)
    case Calling(j) => Some(j)
    case Returned(j) => Some(j)
    case _ => None
  }

  /** The queue and the threads stay in step: thread t serves queue t, the last one is live. */
  ghost predicate Topology(s: State) {
    && |s.queues| == Max(1, |s.threads|)
    && s.queue == |s.queues| - 1
    && s.thread == (if s.threads == [] then None else Some(|s.threads| - 1))
    && (forall t :: 0 <= t < |s.threads| ==> s.threads[t].jobs == t)
    && (s.threads == [] ==> s.futures == [])
    && s.restarts == |s.queues| - 1
    && |s.respawnedAt| == s.restarts
  }

  ghost predicate WrittenOff(s: State, t: nat)
    requires t < |s.threads| && t < |s.queues|
  {
    && !s.threads[t].pc.Holding? && !s.threads[t].pc.Claimed?
    && s.queues[t] == if s.threads[t].pc.Exited? then [] else [StopToken]
  }

  /** The live thread's program counter (`Waiting` before the first thread is started). */
  function LivePc(s: State): Pc {
    if s.threads == [] then Waiting else s.threads[|s.threads| - 1].pc
  }

  function Ids(q: seq<Message>): seq<int>
    requires forall m <- q :: m.Job?
  {
    seq(|q|, i requires 0 <= i < |q| => q[i].id)
  }

  /** The job in the live thread's hand, before its function is called. */
  function Hand(pc: Pc): seq<int> {
    match pc
    case Holding(j) => [j]
    case Claimed(j) => [j]
    case _ => []
  }

  ghost predicate QueueHoldsJobs(s: State) {
    s.queue < |s.queues| && forall m <- s.queues[s.queue] :: m.Job?
  }

  /** Every job in the order it was or will be called: already called, in hand, waiting. */
  ghost function Pipeline(s: State): seq<int>
    requires QueueHoldsJobs(s)
  {
    s.started + Hand(LivePc(s)) + Ids(s.queues[s.queue])
  }

  ghost predicate Ordered(s: State) {
    && QueueHoldsJobs(s)
    && StrictlyIncreasing(Pipeline(s))
    && forall j <- Pipeline(s) :: 0 <= j < |s.futures|
  }

  ghost predicate ThreadsMatchFutures(s: State) {
    && (forall t :: 0 <= t < |s.threads| && Busy(s.threads[t].pc).Some? ==>
          && Busy(s.threads[t].pc).value < |s.futures|
          && s.futures[Busy(s.threads[t].pc).value].Running?
          && (!s.threads[t].pc.Claimed? ==> Busy(s.threads[t].pc).value in s.started))
    && (forall t, u :: 0 <= t < u < |s.threads| && Busy(s.threads[t].pc).Some? ==>
          Busy(s.threads[t].pc) != Busy(s.threads[u].pc))
  }

  ghost predicate FutureAccountedFor(s: State, j: nat)
    requires j < |s.futures| && QueueHoldsJobs(s)
  {
    match s.futures[j]
    case Pending => Job(j) in s.queues[s.queue] || LivePc(s) == Holding(j)
    case Cancelled => j !in s.started
    case Running => exists t :: 0 <= t < |s.threads| && Busy(s.threads[t].pc) == Some(j)
    case Finished => j in s.started
  }

  /** What waits is unclaimed; what was called is running or finished. */
  ghost predicate FuturesMatchPlaces(s: State)
    requires QueueHoldsJobs(s)
  {
    && (forall j :: 0 <= j < |s.futures| ==> FutureAccountedFor(s, j))
    && (forall m <- s.queues[s.queue] :: m.id < |s.futures| && (s.futures[m.id].Pending? || s.futures[m.id].Cancelled?))
    && (LivePc(s).Holding? ==>
          LivePc(s).job < |s.futures| && (s.futures[LivePc(s).job].Pending? || s.futures[LivePc(s).job].Cancelled?))
    && (forall j <- s.started :: j < |s.futures| && (s.futures[j].Running? || s.futures[j].Finished?))
  }

  ghost predicate CurrentIsLive(s: State) {
    s.current == if LivePc(s).Calling? then Some(LivePc(s).job) else None
  }

  ghost predicate Timing(s: State, wedgeAfter: Option<int>) {
    && (s.current.Some? ==> s.currentSince <= s.now)
    && (s.respawnedAt != [] ==>
          && wedgeAfter.Some?
          && s.respawnedAt[|s.respawnedAt| - 1] <= s.now
          && (s.current.Some? ==> s.respawnedAt[|s.respawnedAt| - 1] <= s.currentSince))
    && (forall i :: 0 < i < |s.respawnedAt| ==> s.respawnedAt[i] - s.respawnedAt[i - 1] >= wedgeAfter.value)
  }

  ghost predicate Inv(s: State, wedgeAfter: Option<int>) {
    && Topology(s)
    && (forall t :: 0 <= t < |s.threads| - 1 ==> WrittenOff(s, t))
    && !LivePc(s).Exited?
    && Ordered(s)
    && ThreadsMatchFutures(s)
    && FuturesMatchPlaces(s)
    && CurrentIsLive(s)
    && Timing(s, wedgeAfter)
  }

  lemma InitialInv(now: int, wedgeAfter: Option<int>)
    ensures Inv(Initial(now), wedgeAfter)
  {
  }

  // ---- every step keeps the invariant ----

  lemma StartKeepsInv(s: State, w: Option<int>)
    requires Inv(s, w)
    ensures Inv(Apply(s, Start, w), w)
  {
    var s' := Apply(s, Start, w);
    if !Alive(s) {
      assert s.threads == [];
      assert Pipeline(s') == Pipeline(s);
    }
  }

  lemma JobsOnlyKeepsJobs(q: seq<Message>)
    requires forall m <- q :: m.Job?
    ensures JobsOnly(q) == q
  {
  }

  /** A wedged thread is inside its call, so it holds nothing but that call's job. */
  lemma RespawnKeepsInv(s: State, w: Option<int>)
    requires Inv(s, w)
    ensures Inv(Apply(s, Respawn, w), w)
  {
    if Wedged(s, w) {
      var s' := Apply(s, Respawn, w);
      JobsOnlyKeepsJobs(s.queues[s.queue]);
      assert s'.queues[s'.queue] == s.queues[s.queue];
      assert Pipeline(s') == Pipeline(s);
      forall j | 0 <= j < |s'.futures| ensures FutureAccountedFor(s', j) {
        assert FutureAccountedFor(s, j);
        if s.futures[j].Running? {
          var t :| 0 <= t < |s.threads| && Busy(s.threads[t].pc) == Some(j);
          assert s'.threads[t] == s.threads[t];
        }
      }
      forall t | 0 <= t < |s'.threads| - 1 ensures WrittenOff(s', t) {
        if t < |s.threads| - 1 { assert WrittenOff(s, t); }
      }
    }
  }

  lemma PutKeepsInv(s: State, w: Option<int>)
    requires Inv(s, w) && Enabled(s, Put)
    ensures Inv(Apply(s, Put, w), w)
  {
    var s' := Apply(s, Put, w);
    var q, q' := s.queues[s.queue], s'.queues[s'.queue];
    assert q' == q + [Job(|s.futures|)];
    assert Ids(q') == Ids(q) + [|s.futures|];
    assert Pipeline(s') == Pipeline(s) + [|s.futures|];
    Append(Pipeline(s), |s.futures|);
    assert Job(|s.futures|) in q';
    forall j | 0 <= j < |s'.futures| ensures FutureAccountedFor(s', j) {
      if j < |s.futures| { assert FutureAccountedFor(s, j); }
    }
    assert forall t :: 0 <= t < |s.threads| - 1 ==> WrittenOff(s, t) ==> WrittenOff(s', t);
  }

  lemma Append(a: seq<int>, x: int)
    requires StrictlyIncreasing(a) && forall y <- a :: y < x
    ensures StrictlyIncreasing(a + [x])
  {
    forall i, j | 0 <= i < j < |a + [x]| ensures (a + [x])[i] < (a + [x])[j] {
      assert a[i] in a;
    }
  }

  lemma CancelKeepsInv(s: State, j: nat, w: Option<int>)
    requires Inv(s, w) && Enabled(s, Cancel(j))
    ensures Inv(Apply(s, Cancel(j), w), w)
  {
    var s' := Apply(s, Cancel(j), w);
    assert Pipeline(s') == Pipeline(s);
    assert FutureAccountedFor(s, j);
    forall i | 0 <= i < |s'.futures| ensures FutureAccountedFor(s', i) {
      assert FutureAccountedFor(s, i);
    }
    assert forall t :: 0 <= t < |s.threads| - 1 ==> WrittenOff(s, t) ==> WrittenOff(s', t);
  }

  lemma TickKeepsInv(s: State, d: nat, w: Option<int>)
    requires Inv(s, w)
    ensures Inv(Apply(s, Tick(d), w), w)
  {
    var s' := Apply(s, Tick(d), w);
    assert Pipeline(s') == Pipeline(s);
    forall i | 0 <= i < |s'.futures| ensures FutureAccountedFor(s', i) {
      assert FutureAccountedFor(s, i);
    }
    assert forall t :: 0 <= t < |s.threads| - 1 ==> WrittenOff(s, t) ==> WrittenOff(s', t);
  }

  lemma TakeKeepsInv(s: State, t: nat, w: Option<int>)
    requires Inv(s, w) && Enabled(s, Take(t))
    ensures Inv(Apply(s, Take(t), w), w)
  {
    if t == |s.threads| - 1 {
      LiveTakeKeepsInv(s, t, w);
    } else {
      OldTakeKeepsInv(s, t, w);
    }
  }

  lemma LiveTakeKeepsInv(s: State, t: nat, w: Option<int>)
    requires Inv(s, w) && Enabled(s, Take(t)) && t == |s.threads| - 1
    ensures Inv(Apply(s, Take(t), w), w)
  {
    var s' := Apply(s, Take(t), w);
    FirstJobInHand(s, t, w);
    forall j | 0 <= j < |s'.futures| ensures FutureAccountedFor(s', j) {
      assert FutureAccountedFor(s, j);
      UnmovedRunner(s, s', t, j);
    }
    assert forall u :: 0 <= u < |s.threads| - 1 ==> WrittenOff(s, u) ==> WrittenOff(s', u);
  }

  lemma FirstJobInHand(s: State, t: nat, w: Option<int>)
    requires Topology(s) && QueueHoldsJobs(s) && Enabled(s, Take(t)) && t == |s.threads| - 1
    ensures var s' := Apply(s, Take(t), w);
            && s'.queues[s'.queue] == s.queues[s.queue][1..] && QueueHoldsJobs(s') && Pipeline(s') == Pipeline(s)
            && s.queues[s.queue][0] in s.queues[s.queue] && forall m <- s.queues[s.queue][1..] :: m in s.queues[s.queue]
  {
    var q := s.queues[s.queue];
    assert q[0] in q;
    assert Ids(q) == [q[0].id] + Ids(q[1..]);
  }

  /** A written-off thread finds the stop token. */
  lemma OldTakeKeepsInv(s: State, t: nat, w: Option<int>)
    requires Inv(s, w) && Enabled(s, Take(t)) && t < |s.threads| - 1
    ensures Inv(Apply(s, Take(t), w), w)
  {
    var s' := Apply(s, Take(t), w);
    assert WrittenOff(s, t);
    assert s'.queues[s'.queue] == s.queues[s.queue] && LivePc(s') == LivePc(s);
    assert Pipeline(s') == Pipeline(s);
    forall j | 0 <= j < |s'.futures| ensures FutureAccountedFor(s', j) {
      assert FutureAccountedFor(s, j);
      UnmovedRunner(s, s', t, j);
    }
    assert forall u :: 0 <= u < |s.threads| - 1 ==> WrittenOff(s, u) ==> WrittenOff(s', u);
  }

  /** A step of thread t that neither claims nor resolves a job leaves every runner in place. */
  lemma UnmovedRunner(s: State, s': State, t: nat, j: nat)
    requires t < |s.threads| == |s'.threads|
    requires forall u :: 0 <= u < |s.threads| && u != t ==> s'.threads[u] == s.threads[u]
    requires Busy(s'.threads[t].pc) == Busy(s.threads[t].pc)
    ensures (exists u :: 0 <= u < |s.threads| && Busy(s.threads[u].pc) == Some(j)) ==>
              exists u :: 0 <= u < |s'.threads| && Busy(s'.threads[u].pc) == Some(j)
  {
    if u :| 0 <= u < |s.threads| && Busy(s.threads[u].pc) == Some(j) {
      assert Busy(s'.threads[u].pc) == Some(j);
    }
  }

  lemma OtherRunner(s: State, s': State, t: nat, i: nat)
    requires t < |s.threads| == |s'.threads|
    requires forall u :: 0 <= u < |s.threads| && u != t ==> s'.threads[u] == s.threads[u]
    ensures Busy(s.threads[t].pc) != Some(i) ==>
              (exists u :: 0 <= u < |s.threads| && Busy(s.threads[u].pc) == Some(i)) ==>
              exists u :: 0 <= u < |s'.threads| && Busy(s'.threads[u].pc) == Some(i)
  {
    if u :| 0 <= u < |s.threads| && u != t && Busy(s.threads[u].pc) == Some(i) {
      assert Busy(s'.threads[u].pc) == Some(i);
    }
  }

  lemma OnlyLiveHandIsFull(s: State, t: nat, w: Option<int>)
    requires Inv(s, w) && t < |s.threads|
    ensures t == |s.threads| - 1 || (!s.threads[t].pc.Holding? && !s.threads[t].pc.Claimed?)
  {
    if t != |s.threads| - 1 {
      assert WrittenOff(s, t);
    }
  }

  lemma ClaimKeepsInv(s: State, t: nat, w: Option<int>)
    requires Inv(s, w) && Enabled(s, Claim(t))
    ensures Inv(Apply(s, Claim(t), w), w)
  {
    OnlyLiveHandIsFull(s, t, w);
    HandIsElsewhere(s);
    if s.futures[s.threads[t].pc.job].Pending? {
      ClaimPendingKeepsInv(s, t, w);
    } else {
      DiscardCancelledKeepsInv(s, t, w);
    }
  }

  /** The job in hand is neither called yet nor waiting a second time. */
  lemma HandIsElsewhere(s: State)
    requires Ordered(s) && LivePc(s).Holding?
    ensures LivePc(s).job !in s.started
    ensures forall m <- s.queues[s.queue] :: m.id != LivePc(s).job
  {
    var rest := Ids(s.queues[s.queue]);
    HandNotElsewhere(s.started, LivePc(s).job, rest);
    forall m | m in s.queues[s.queue] ensures m.id != LivePc(s).job {
      var k :| 0 <= k < |s.queues[s.queue]| && s.queues[s.queue][k] == m;
      assert rest[k] == m.id;
    }
  }

  lemma ClaimPendingKeepsInv(s: State, t: nat, w: Option<int>)
    requires Inv(s, w) && Enabled(s, Claim(t)) && t == |s.threads| - 1
    requires s.futures[s.threads[t].pc.job].Pending?
    requires s.threads[t].pc.job !in s.started
    requires forall m <- s.queues[s.queue] :: m.id != s.threads[t].pc.job
    ensures Inv(Apply(s, Claim(t), w), w)
  {
    var s' := Apply(s, Claim(t), w);
    var j := s.threads[t].pc.job;
    assert Pipeline(s') == Pipeline(s);
    forall i | 0 <= i < |s'.futures| ensures FutureAccountedFor(s', i) {
      assert FutureAccountedFor(s, i);
      if i == j { assert Busy(s'.threads[t].pc) == Some(j); }
      else if s.futures[i].Running? {
        var u :| 0 <= u < |s.threads| && Busy(s.threads[u].pc) == Some(i);
        assert Busy(s'.threads[u].pc) == Some(i);
      }
    }
    assert forall u :: 0 <= u < |s.threads| - 1 ==> WrittenOff(s, u) ==> WrittenOff(s', u);
  }

  lemma DiscardCancelledKeepsInv(s: State, t: nat, w: Option<int>)
    requires Inv(s, w) && Enabled(s, Claim(t)) && t == |s.threads| - 1
    requires !s.futures[s.threads[t].pc.job].Pending?
    ensures Inv(Apply(s, Claim(t), w), w)
  {
    var s' := Apply(s, Claim(t), w);
    var j := s.threads[t].pc.job;
    var rest := Ids(s.queues[s.queue]);
    assert Pipeline(s) == s.started + [j] + rest;
    assert Pipeline(s') == s.started + rest;
    DropMiddle(s.started, j, rest);
    assert forall i <- Pipeline(s') :: i in Pipeline(s);
    forall i | 0 <= i < |s'.futures| ensures FutureAccountedFor(s', i) {
      assert FutureAccountedFor(s, i);
      UnmovedRunner(s, s', t, i);
    }
    assert forall u :: 0 <= u < |s.threads| - 1 ==> WrittenOff(s, u) ==> WrittenOff(s', u);
  }

  lemma DropMiddle(a: seq<int>, x: int, b: seq<int>)
    requires StrictlyIncreasing(a + [x] + b)
    ensures StrictlyIncreasing(a + b)
  {
    var s := a + [x] + b;
    forall i, j | 0 <= i < j < |a + b| ensures (a + b)[i] < (a + b)[j] {
      var i' := if i < |a| then i else i + 1;
      var j' := if j < |a| then j else j + 1;
      assert s[i'] == (a + b)[i] && s[j'] == (a + b)[j];
    }
  }

  lemma HandNotElsewhere(a: seq<int>, x: int, b: seq<int>)
    requires StrictlyIncreasing(a + [x] + b)
    ensures x !in a && x !in b
  {
    var s := a + [x] + b;
    assert s[|a|] == x;
    forall i | 0 <= i < |a| ensures a[i] != x { assert s[i] == a[i]; }
    forall i | 0 <= i < |b| ensures b[i] != x { assert s[|a| + 1 + i] == b[i]; }
  }

  lemma BeginKeepsInv(s: State, t: nat, w: Option<int>)
    requires Inv(s, w) && Enabled(s, Begin(t))
    ensures Inv(Apply(s, Begin(t), w), w)
  {
    var s' := Apply(s, Begin(t), w);
    OnlyLiveHandIsFull(s, t, w);
    assert Busy(s.threads[t].pc).Some?;
    assert Pipeline(s') == Pipeline(s);
    forall j | 0 <= j < |s'.futures| ensures FutureAccountedFor(s', j) {
      assert FutureAccountedFor(s, j);
      UnmovedRunner(s, s', t, j);
    }
    assert forall u :: 0 <= u < |s.threads| - 1 ==> WrittenOff(s, u) ==> WrittenOff(s', u);
  }

  lemma FinishKeepsInv(s: State, t: nat, w: Option<int>)
    requires Inv(s, w) && Enabled(s, Finish(t))
    ensures Inv(Apply(s, Finish(t), w), w)
    ensures t < |s.threads| - 1 ==> Apply(s, Finish(t), w).current == s.current
  {
    var s' := Apply(s, Finish(t), w);
    assert Busy(s.threads[t].pc).Some?;
    if t < |s.threads| - 1 && LivePc(s).Calling? {
      assert Busy(s.threads[t].pc) != Busy(s.threads[|s.threads| - 1].pc);
    }
    assert Pipeline(s') == Pipeline(s);
    forall j | 0 <= j < |s'.futures| ensures FutureAccountedFor(s', j) {
      assert FutureAccountedFor(s, j);
      UnmovedRunner(s, s', t, j);
    }
    assert forall u :: 0 <= u < |s.threads| - 1 ==> WrittenOff(s, u) ==> WrittenOff(s', u);
  }

  lemma ResolveKeepsInv(s: State, t: nat, w: Option<int>)
    requires Inv(s, w) && Enabled(s, Resolve(t))
    ensures Inv(Apply(s, Resolve(t), w), w)
  {
    var s' := Apply(s, Resolve(t), w);
    assert Pipeline(s') == Pipeline(s);
    ResolvedAccounted(s, t, w);
    ResolvedThreads(s, t, w);
    assert forall u :: 0 <= u < |s.threads| - 1 ==> WrittenOff(s, u) ==> WrittenOff(s', u);
  }

  lemma ResolvedAccounted(s: State, t: nat, w: Option<int>)
    requires Inv(s, w) && Enabled(s, Resolve(t))
    ensures var s' := Apply(s, Resolve(t), w); QueueHoldsJobs(s') && FuturesMatchPlaces(s')
  {
    var s' := Apply(s, Resolve(t), w);
    assert Busy(s.threads[t].pc) == Some(s.threads[t].pc.job);
    forall i | 0 <= i < |s'.futures| ensures FutureAccountedFor(s', i) {
      assert FutureAccountedFor(s, i);
      OtherRunner(s, s', t, i);
    }
  }

  lemma ResolvedThreads(s: State, t: nat, w: Option<int>)
    requires Inv(s, w) && Enabled(s, Resolve(t))
    ensures ThreadsMatchFutures(Apply(s, Resolve(t), w))
  {
    assert Busy(s.threads[t].pc) == Some(s.threads[t].pc.job);
  }

  lemma StepKeepsInv(s: State, e: Event, w: Option<int>)
    requires Inv(s, w) && Enabled(s, e)
    ensures Inv(Apply(s, e, w), w)
  {
    match e
    case Start => StartKeepsInv(s, w);
    case Respawn => RespawnKeepsInv(s, w);
    case Put => PutKeepsInv(s, w);
    case Cancel(j) => CancelKeepsInv(s, j, w);
    case Tick(d) => TickKeepsInv(s, d, w);
    case Take(t) => TakeKeepsInv(s, t, w);
    case Claim(t) => ClaimKeepsInv(s, t, w);
    case Begin(t) => BeginKeepsInv(s, t, w);
    case Finish(t) => FinishKeepsInv(s, t, w);
    case Resolve(t) => ResolveKeepsInv(s, t, w);
  }

  /** `submit`: start a thread if there is none, replace a wedged one, put the job. */
  ghost function Submitted(s: State, w: Option<int>): (s': State)
    requires Inv(s, w)
    ensures Inv(s', w)
    ensures |s'.futures| == |s.futures| + 1 && s'.futures[|s.futures|].Pending?
  {
    StartKeepsInv(s, w);
    var started := Apply(s, Start, w);
    RespawnKeepsInv(started, w);
    var ready := Apply(started, Respawn, w);
    PutKeepsInv(ready, w);
    Apply(ready, Put, w)
  }

  // ---- whole runs ----

  ghost predicate Possible(s: State, es: seq<Event>, w: Option<int>)
    decreases |es|
  {
    es == [] || (Enabled(s, es[0]) && Possible(Apply(s, es[0], w), es[1..], w))
  }

  ghost function After(s: State, es: seq<Event>, w: Option<int>): State
    requires Possible(s, es, w)
    decreases |es|
  {
    if es == [] then s else After(Apply(s, es[0], w), es[1..], w)
  }

  lemma {:induction false} RunKeepsInv(s: State, es: seq<Event>, w: Option<int>)
    requires Inv(s, w) && Possible(s, es, w)
    ensures Inv(After(s, es, w), w)
    decreases |es|
  {
    if es == [] {
    } else {
      StepKeepsInv(s, es[0], w);
      RunKeepsInv(Apply(s, es[0], w), es[1..], w);
    }
  }

  /** Whatever the caller and the threads do, in whatever order, the invariant holds. */
  lemma ReachableInv(now: int, es: seq<Event>, w: Option<int>)
    requires Possible(Initial(now), es, w)
    ensures Inv(After(Initial(now), es, w), w)
  {
    InitialInv(now, w);
    RunKeepsInv(Initial(now), es, w);
  }

  datatype Place = InQueue | InHand | RunningIn(t: nat) | GivenUp | Done

  /** `GivenUp`: the caller cancelled it before it was claimed. */
  ghost predicate IsAt(s: State, j: nat, p: Place)
    requires j < |s.futures| && s.queue < |s.queues|
  {
    match p
    case InQueue => s.futures[j].Pending? && Job(j) in s.queues[s.queue]
    case InHand => s.futures[j].Pending? && LivePc(s) == Holding(j)
    case RunningIn(t) => t < |s.threads| && Busy(s.threads[t].pc) == Some(j)
    case GivenUp => s.futures[j].Cancelled?
    case Done => s.futures[j].Finished?
  }

  /** Every submitted job is in exactly one place. */
  lemma EachJobInExactlyOnePlace(s: State, j: nat, w: Option<int>) returns (p: Place)
    requires Inv(s, w) && j < |s.futures|
    ensures IsAt(s, j, p)
    ensures forall q :: IsAt(s, j, q) ==> q == p
  {
    assert FutureAccountedFor(s, j);
    match s.futures[j] {
      case Pending => p := if LivePc(s) == Holding(j) then InHand else InQueue;
      case Running =>
        var t :| 0 <= t < |s.threads| && Busy(s.threads[t].pc) == Some(j);
        p := RunningIn(t);
      case Cancelled => p := GivenUp;
      case Finished => p := Done;
    }
    forall q | IsAt(s, j, q) ensures q == p {
      OnePlaceOnly(s, j, p, q, w);
    }
  }

  lemma OnePlaceOnly(s: State, j: nat, p: Place, q: Place, w: Option<int>)
    requires Inv(s, w) && j < |s.futures| && IsAt(s, j, p) && IsAt(s, j, q)
    ensures p == q
  {
    if LivePc(s).Holding? {
      HandIsElsewhere(s);
    }
    if p.RunningIn? || q.RunningIn? {
      assert s.futures[j].Running?;
    }
  }

  /** A job waits at most once, and no queue but the current one knows it. */
  lemma JobIsQueuedOnce(s: State, j: nat, w: Option<int>)
    requires Inv(s, w)
    ensures multiset(s.queues[s.queue])[Job(j)] <= 1
    ensures forall k :: 0 <= k < |s.queues| && k != s.queue ==> Job(j) !in s.queues[k]
  {
    QueuedOnce(s, j);
    forall k | 0 <= k < |s.queues| && k != s.queue ensures Job(j) !in s.queues[k] {
      assert WrittenOff(s, k);
    }
  }

  lemma QueuedOnce(s: State, j: nat)
    requires Ordered(s)
    ensures multiset(s.queues[s.queue])[Job(j)] <= 1
  {
    var q := s.queues[s.queue];
    var lead := s.started + Hand(LivePc(s));
    forall a, b | 0 <= a < b < |q| ensures q[a] != q[b] {
      assert Pipeline(s)[|lead| + a] == q[a].id && Pipeline(s)[|lead| + b] == q[b].id;
    }
    DistinctCount(q, Job(j));
  }

  /** Calls are made in submission order, each job at most once, even across respawns; a called
      job is running or finished, so a cancelled one is never called. */
  lemma CallsInSubmissionOrder(s: State, w: Option<int>)
    requires Inv(s, w)
    ensures StrictlyIncreasing(s.started)
    ensures forall j <- s.started :: 0 <= j < |s.futures| && (s.futures[j].Running? || s.futures[j].Finished?)
    ensures forall j <- s.started :: forall m <- s.queues[s.queue] :: j < m.id
  {
    var n := |s.started|;
    assert forall i :: 0 <= i < n ==> Pipeline(s)[i] == s.started[i];
    forall j, m | j in s.started && m in s.queues[s.queue] ensures j < m.id {
      var i :| 0 <= i < n && s.started[i] == j;
      var k :| 0 <= k < |s.queues[s.queue]| && s.queues[s.queue][k] == m;
      assert Pipeline(s)[n + |Hand(LivePc(s))| + k] == m.id;
    }
  }

  /** A successful cancel is final: from then on the job stays cancelled and is never called. */
  lemma {:induction false} CancelledIsNeverCalled(s: State, es: seq<Event>, j: nat, w: Option<int>)
    requires Inv(s, w) && Possible(s, es, w)
    requires j < |s.futures| && s.futures[j].Cancelled?
    ensures j < |After(s, es, w).futures| && After(s, es, w).futures[j].Cancelled?
    ensures j !in After(s, es, w).started
    decreases |es|
  {
    if es == [] {
      assert FutureAccountedFor(s, j);
    } else {
      StepKeepsInv(s, es[0], w);
      StaysCancelled(s, es[0], j, w);
      CancelledIsNeverCalled(Apply(s, es[0], w), es[1..], j, w);
    }
  }

  lemma StaysCancelled(s: State, e: Event, j: nat, w: Option<int>)
    requires Inv(s, w) && Enabled(s, e) && j < |s.futures| && s.futures[j].Cancelled?
    ensures j < |Apply(s, e, w).futures| && Apply(s, e, w).futures[j].Cancelled?
  {
    if e.Resolve? {
      assert Busy(s.threads[e.t].pc) == Some(s.threads[e.t].pc.job);
    }
  }

  /** Only the live thread takes work: it alone dequeues a job, claims it or calls it, and a
      written-off thread that comes back can only find the stop token. */
  lemma OnlyLiveThreadTakesWork(s: State, t: nat, w: Option<int>)
    requires Inv(s, w)
    ensures Enabled(s, Claim(t)) || Enabled(s, Begin(t)) ==> s.thread == Some(t)
    ensures Enabled(s, Take(t)) ==>
              if s.thread == Some(t) then Apply(s, Take(t), w).threads[t].pc.Holding?
              else Apply(s, Take(t), w).threads[t].pc.Exited? && s.queues[t] == [StopToken]
  {
    if 0 <= t < |s.threads| - 1 {
      assert WrittenOff(s, t);
    } else if t == |s.threads| - 1 && s.queues[t] != [] {
      assert s.queues[t][0] in s.queues[s.queue];
    }
  }

  // ---- when a thread is replaced ----

  /** How much the clock advances. */
  function Elapsed(es: seq<Event>): nat {
    if es == [] then 0 else (if es[0].Tick? then es[0].elapsed else 0) + Elapsed(es[1..])
  }

  ghost predicate InCall(s: State, t: nat, j: nat) {
    s.thread == Some(t) && t < |s.threads| && s.threads[t].pc == Calling(j)
  }

  /** Thread t is written off, or its call of job j has returned. */
  ghost predicate CallOver(s: State, t: nat, j: nat) {
    || t + 1 < |s.threads|
    || (t < |s.threads| && s.threads[t].pc == Returned(j))
    || (j < |s.futures| && s.futures[j].Finished?)
  }

  lemma StepKeepsCallOver(s: State, t: nat, j: nat, e: Event, w: Option<int>)
    requires Inv(s, w) && Enabled(s, e) && CallOver(s, t, j)
    ensures CallOver(Apply(s, e, w), t, j)
  {
  }

  lemma {:induction false} CallStaysOver(s: State, t: nat, j: nat, es: seq<Event>, w: Option<int>)
    requires Inv(s, w) && Possible(s, es, w) && CallOver(s, t, j)
    ensures !InCall(After(s, es, w), t, j)
    decreases |es|
  {
    if es == [] {
      assert t < |s.threads| && s.threads[t].pc == Calling(j) ==> Busy(s.threads[t].pc) == Some(j);
    } else {
      StepKeepsInv(s, es[0], w);
      StepKeepsCallOver(s, t, j, es[0], w);
      CallStaysOver(Apply(s, es[0], w), t, j, es[1..], w);
    }
  }

  /** During a call the status keeps naming it, and the instant at which it began. */
  lemma StepInCall(s: State, t: nat, j: nat, e: Event, w: Option<int>)
    requires Inv(s, w) && Enabled(s, e) && InCall(s, t, j)
    ensures var s' := Apply(s, e, w);
            || CallOver(s', t, j)
            || (InCall(s', t, j) && s'.currentSince == s.currentSince
                && s'.now == s.now + if e.Tick? then e.elapsed else 0)
  {
    if e.Begin? {
      OnlyLiveThreadTakesWork(s, e.t, w);
    }
  }

  lemma {:induction false} CallIsTimed(s: State, t: nat, j: nat, es: seq<Event>, w: Option<int>)
    requires Inv(s, w) && Possible(s, es, w) && InCall(s, t, j) && InCall(After(s, es, w), t, j)
    ensures var end := After(s, es, w);
            end.currentSince == s.currentSince && end.now == s.now + Elapsed(es)
    decreases |es|
  {
    if es == [] {
    } else {
      var s' := Apply(s, es[0], w);
      StepKeepsInv(s, es[0], w);
      StepInCall(s, t, j, es[0], w);
      if CallOver(s', t, j) {
        CallStaysOver(s', t, j, es[1..], w);
      } else {
        CallIsTimed(s', t, j, es[1..], w);
      }
    }
  }

  /** A call begins, and after a while thread t is still the live one and still inside it. Then the
      respawn check replaces the thread if and only if the call has lasted `wedgeAfter`; otherwise it
      changes nothing. */
  lemma LongCallIsReplaced(s: State, t: nat, es: seq<Event>, w: Option<int>)
    requires Inv(s, w) && Enabled(s, Begin(t)) && Possible(Apply(s, Begin(t), w), es, w)
    requires var end := After(Apply(s, Begin(t), w), es, w);
             end.thread == Some(t) && t < |end.threads| && end.threads[t].pc == Calling(s.threads[t].pc.job)
    ensures var end := After(Apply(s, Begin(t), w), es, w);
            && end.current == Some(s.threads[t].pc.job) && end.now - end.currentSince == Elapsed(es)
            && Enabled(end, Respawn)
            && var next := Apply(end, Respawn, w);
               if w.Some? && Elapsed(es) >= w.value then
                 |next.threads| == |end.threads| + 1 && next.thread == Some(|end.threads|) && next.restarts == end.restarts + 1
               else next == end
  {
    var begun, j := Apply(s, Begin(t), w), s.threads[t].pc.job;
    OnlyLiveThreadTakesWork(s, t, w);
    BeginKeepsInv(s, t, w);
    CallIsTimed(begun, t, j, es, w);
    RunKeepsInv(begun, es, w);
    ReplacedWhenLong(After(begun, es, w), t, j, w);
  }

  lemma ReplacedWhenLong(s: State, t: nat, j: nat, w: Option<int>)
    requires Inv(s, w) && InCall(s, t, j)
    ensures s.current == Some(j) && Enabled(s, Respawn)
    ensures var next := Apply(s, Respawn, w);
            if w.Some? && s.now - s.currentSince >= w.value then
              |next.threads| == |s.threads| + 1 && next.thread == Some(|s.threads|) && next.restarts == s.restarts + 1
            else next == s
  {
  }

  /** Outside a call it changes nothing either. */
  lemma NoCallNoRespawn(s: State, w: Option<int>)
    requires Inv(s, w) && !LivePc(s).Calling?
    ensures Apply(s, Respawn, w) == s
  {
  }

  /** A respawn happens only while the live thread is inside a call; it moves every waiting job,
      in order, to the new thread's queue and leaves the old thread the stop token. */
  lemma RespawnMovesTheLine(s: State, w: Option<int>)
    requires Inv(s, w) && Apply(s, Respawn, w) != s
    ensures LivePc(s).Calling? && s.current == Some(LivePc(s).job)
    ensures var s' := Apply(s, Respawn, w);
            && s'.queues[s'.queue] == s.queues[s.queue]
            && s'.queues[s.queue] == [StopToken]
            && s'.thread == Some(|s.threads|) && s'.threads[|s.threads|] == Thread(Waiting, s'.queue)
            && s'.threads[..|s.threads|] == s.threads
            && s'.current == None && s'.futures == s.futures && s'.started == s.started
  {
    JobsOnlyKeepsJobs(s.queues[s.queue]);
  }

  /** A written-off thread's late finish leaves the status of the new thread's job alone. */
  lemma LateFinishKeepsStatus(s: State, t: nat, w: Option<int>)
    requires Inv(s, w) && Enabled(s, Finish(t)) && s.thread != Some(t)
    ensures Apply(s, Finish(t), w).current == s.current
    ensures Apply(s, Finish(t), w).currentSince == s.currentSince
  {
    FinishKeepsInv(s, t, w);
  }

  /** The status never names a job that is resolved, cancelled or owned by a written-off thread. */
  lemma StatusNamesTheLiveCall(s: State, w: Option<int>)
    requires Inv(s, w)
    ensures forall j :: s.current == Some(j) ==>
              j < |s.futures| && s.futures[j].Running? && s.thread.Some? && s.threads[s.thread.value].pc == Calling(j)
    ensures s.restarts == |s.threads| - 1 || (s.threads == [] && s.restarts == 0)
  {
    if s.current.Some? {
      assert Busy(s.threads[|s.threads| - 1].pc).Some?;
    }
  }

  /** Two replacements are at least `wedgeAfter` apart, however far apart in the run they are. */
  lemma {:induction false} RespawnsAreSpaced(s: State, i: nat, k: nat, w: Option<int>)
    requires Inv(s, w) && i < k < |s.respawnedAt|
    ensures w.Some? && s.respawnedAt[k] - s.respawnedAt[k - 1] >= w.value
    ensures w.value >= 0 ==> s.respawnedAt[k] - s.respawnedAt[i] >= w.value
    decreases k
  {
    if i < k - 1 {
      RespawnsAreSpaced(s, i, k - 1, w);
    }
  }

  /** A waiting job is never stranded: the live thread can move, unless it is inside a call. */
  lemma WaitingJobIsNeverStranded(s: State, j: nat, w: Option<int>)
    requires Inv(s, w) && j < |s.futures| && s.futures[j].Pending?
    ensures s.thread.Some?
    ensures var t := s.thread.value;
            || Enabled(s, Take(t)) || Enabled(s, Claim(t)) || Enabled(s, Begin(t)) || Enabled(s, Resolve(t))
            || s.threads[t].pc.Calling?
  {
    assert FutureAccountedFor(s, j);
    var t := |s.threads| - 1;
    assert Busy(s.threads[t].pc).Some? ==> Busy(s.threads[t].pc).value < |s.futures|;
  }

  // ---- the books ----

  function CallsOpen(threads: seq<Thread>): nat {
    if threads == [] then 0 else CallsOpen(threads[1..]) + if threads[0].pc.Calling? then 1 else 0
  }

  lemma {:induction false} CallsOpenAfter(threads: seq<Thread>, t: nat, pc: Pc)
    requires t < |threads|
    ensures CallsOpen(threads[t := threads[t].(pc := pc)]) ==
            CallsOpen(threads) + (if pc.Calling? then 1 else 0) - (if threads[t].pc.Calling? then 1 else 0)
  {
    var moved := threads[t := threads[t].(pc := pc)];
    if t > 0 {
      assert moved[1..] == threads[1..][t - 1 := threads[t].(pc := pc)];
      CallsOpenAfter(threads[1..], t - 1, pc);
    } else {
      assert moved[1..] == threads[1..];
    }
  }

  lemma {:induction false} CallsOpenSpawn(threads: seq<Thread>, added: Thread)
    requires !added.pc.Calling?
    ensures CallsOpen(threads + [added]) == CallsOpen(threads)
  {
    if threads == [] {
    } else {
      assert (threads + [added])[1..] == threads[1..] + [added];
      CallsOpenSpawn(threads[1..], added);
    }
  }

  /** `completed` counts the calls that returned, whichever thread made them. */
  ghost predicate BooksBalance(s: State) {
    s.completed + CallsOpen(s.threads) == |s.started|
  }

  lemma StepKeepsBooks(s: State, e: Event, w: Option<int>)
    requires Enabled(s, e) && BooksBalance(s)
    ensures BooksBalance(Apply(s, e, w))
  {
    CallsOpenSpawn(s.threads, Thread(Waiting, s.queue));
    CallsOpenSpawn(s.threads, Thread(Waiting, |s.queues|));
    match e
    case Take(t) => CallsOpenAfter(s.threads, t, Apply(s, e, w).threads[t].pc);
    case Claim(t) => CallsOpenAfter(s.threads, t, Apply(s, e, w).threads[t].pc);
    case Begin(t) => CallsOpenAfter(s.threads, t, Apply(s, e, w).threads[t].pc);
    case Finish(t) => CallsOpenAfter(s.threads, t, Apply(s, e, w).threads[t].pc);
    case Resolve(t) => CallsOpenAfter(s.threads, t, Apply(s, e, w).threads[t].pc);
    case _ =>
  }

  lemma {:induction false} RunKeepsBooks(s: State, es: seq<Event>, w: Option<int>)
    requires BooksBalance(s) && Possible(s, es, w)
    ensures BooksBalance(After(s, es, w))
    decreases |es|
  {
    if es == [] {
    } else {
      StepKeepsBooks(s, es[0], w);
      RunKeepsBooks(Apply(s, es[0], w), es[1..], w);
    }
  }

  /** How many jobs a run gives up after they were claimed. */
  ghost function AbandonsIn(s: State, es: seq<Event>, w: Option<int>): nat
    requires Possible(s, es, w)
    decreases |es|
  {
    if es == [] then 0
    else
      (if es[0].Cancel? && s.futures[es[0].job] in {Running, Finished} then 1 else 0) + AbandonsIn(Apply(s, es[0], w), es[1..], w)
  }

  lemma {:induction false} AbandonsAreCounted(s: State, es: seq<Event>, w: Option<int>)
    requires Possible(s, es, w)
    ensures After(s, es, w).abandoned == s.abandoned + AbandonsIn(s, es, w)
    decreases |es|
  {
    if es == [] {
    } else {
      AbandonsAreCounted(Apply(s, es[0], w), es[1..], w);
    }
  }
}

module ComWorker {
  import opened Common
  import opened ComProtocol

  datatype ComStatus = ComStatus(
    alive: bool,
    busyFor: int,
    current: Option<nat>,
    pending: nat,
    abandoned: nat,
    completed: nat,
    restarts: nat
  )

  /** The fields of the source, with every queue and thread it ever created kept in a list; a job
      is its number, and `now` is the monotonic clock. */
  class Worker {
    const wedgeAfter: Option<int>
    var queues: seq<seq<Message>>
    var queue: nat
    var threads: seq<Thread>
    var thread: Option<nat>
    var futures: seq<Future>
    var current: Option<nat>
    var currentSince: int
    var now: int
    var abandoned: nat
    var completed: nat
    var restarts: nat
    ghost var started: seq<nat>
    ghost var respawnedAt: seq<int>

    ghost function View(): State
      reads this
    {
      State(queues, queue, threads, thread, futures, current, currentSince, now,
            abandoned, completed, restarts, started, respawnedAt)
    }

    ghost predicate Valid()
      reads this
    {
      Inv(View(), wedgeAfter)
    }

    constructor (wedgeAfter: Option<int>, now: int)
      ensures Valid() && this.wedgeAfter == wedgeAfter && View() == Initial(now)
    {
      this.wedgeAfter := wedgeAfter;
      queues, queue, threads, thread := [[]], 0, [], None;
      futures, current, currentSince, this.now := [], None, 0, now;
      abandoned, completed, restarts := 0, 0, 0;
      started, respawnedAt := [], [];
    }

    method Spawn()
      modifies this`threads, this`thread
      ensures View() == ComProtocol.Spawn(old(View()))
    {
      thread := Some(|threads|);
      threads := threads + [Thread(Waiting, queue)];
    }

    method Start()
      requires Valid()
      modifies this
      ensures Valid() && View() == Apply(old(View()), ComProtocol.Start, wedgeAfter)
    {
      StartKeepsInv(View(), wedgeAfter);
      if thread.Some? && !threads[thread.value].pc.Exited? {
        return;
      }
      Spawn();
    }

    method RespawnIfWedged()
      requires Valid()
      modifies this
      ensures Valid() && View() == Apply(old(View()), Respawn, wedgeAfter)
      ensures wedgeAfter.Some? && current.Some? ==> now - currentSince < wedgeAfter.value
    {
      RespawnKeepsInv(View(), wedgeAfter);
      if wedgeAfter.None? || current.None? || now - currentSince < wedgeAfter.value {
        return;
      }
      MoveOn();
    }

    /** The live thread is written off. */
    method MoveOn()
      requires queue < |queues|
      modifies this
      ensures View() == Replace(old(View()))
    {
      var moved := MoveJobs(queues[queue]);
      queues := queues[queue := [StopToken]] + [moved];
      queue := |queues| - 1;
      current, restarts, respawnedAt := None, restarts + 1, respawnedAt + [now];
      Spawn();
    }

    /** The waiting jobs move to the new thread. */
    method MoveJobs(waiting: seq<Message>) returns (moved: seq<Message>)
      ensures moved == JobsOnly(waiting)
    {
      var rest := waiting;
      moved := [];
      while rest != []
        invariant moved + JobsOnly(rest) == JobsOnly(waiting)
        decreases |rest|
      {
        var job := rest[0];
        Regroup(moved, if job.Job? then [job] else [], JobsOnly(rest[1..]));
        rest := rest[1..];
        if job.Job? {
          moved := moved + [job];
        }
      }
    }

    /** The locked block of `status`. */
    method Snapshot() returns (status: ComStatus)
      requires Valid()
      ensures status.alive == Alive(View()) && status.pending == |queues[queue]|
      ensures status.current == current
      ensures forall j :: status.current == Some(j) ==> j < |futures| && futures[j].Running?
      ensures status.busyFor == (if current.Some? then now - currentSince else 0)
      ensures (status.abandoned, status.completed, status.restarts) == (abandoned, completed, restarts)
    {
      StatusNamesTheLiveCall(View(), wedgeAfter);
      var alive := thread.Some? && !threads[thread.value].pc.Exited?;
      status := ComStatus(alive, if current.Some? then now - currentSince else 0, current,
                          |queues[queue]|, abandoned, completed, restarts);
    }

    method Status() returns (status: ComStatus)
      requires Valid()
      modifies this
      ensures Valid() && View() == Apply(old(View()), Respawn, wedgeAfter)
      ensures status.alive == Alive(View()) && status.pending == |queues[queue]|
      ensures status.current == current
      ensures forall j :: status.current == Some(j) ==> j < |futures| && futures[j].Running?
      ensures status.busyFor == (if current.Some? then now - currentSince else 0)
      ensures (status.abandoned, status.completed, status.restarts) == (abandoned, completed, restarts)
    {
      RespawnIfWedged();
      status := Snapshot();
    }

    /** `_queue.put`. */
    method Put() returns (job: nat)
      requires Valid() && thread.Some?
      modifies this
      ensures Valid() && job == |old(futures)| && View() == Apply(old(View()), ComProtocol.Put, wedgeAfter)
    {
      PutKeepsInv(View(), wedgeAfter);
      job := |futures|;
      queues := queues[queue := queues[queue] + [Job(job)]];
      futures := futures + [Pending];
    }

    method Submit() returns (job: nat)
      requires Valid()
      modifies this
      ensures Valid() && job == |old(futures)|
      ensures View() == Submitted(old(View()), wedgeAfter)
    {
      if thread.None? || threads[thread.value].pc.Exited? {
        Start();
      }
      RespawnIfWedged();
      job := Put();
    }

    /** `fut.cancel()`, and the count of those it is too late for. */
    method Cancel(job: nat) returns (cancelled: bool)
      requires Valid() && job < |futures|
      modifies this
      ensures Valid() && View() == Apply(old(View()), ComProtocol.Cancel(job), wedgeAfter)
      ensures cancelled == (old(futures[job]).Pending? || old(futures[job]).Cancelled?)
      ensures !cancelled ==> abandoned == old(abandoned) + 1
      ensures cancelled ==> job < |futures| && futures[job].Cancelled? && job !in started
    {
      ghost var after := Apply(View(), ComProtocol.Cancel(job), wedgeAfter);
      CancelKeepsInv(View(), job, wedgeAfter);
      assert FutureAccountedFor(after, job);
      cancelled := futures[job].Pending? || futures[job].Cancelled?;
      if cancelled {
        futures := futures[job := Cancelled];
      } else {
        abandoned := abandoned + 1;
      }
      assert View() == after;
    }

    /** The caller's deadline passed. */
    method Abandon(job: nat) returns (cancelled: bool)
      requires Valid() && job < |futures|
      modifies this
      ensures Valid()
      ensures cancelled == (old(futures[job]).Pending? || old(futures[job]).Cancelled?)
      ensures View() == if cancelled then Apply(Apply(old(View()), ComProtocol.Cancel(job), wedgeAfter), Respawn, wedgeAfter)
                        else old(View()).(abandoned := old(abandoned) + 1)
      ensures cancelled ==> job < |futures| && futures[job].Cancelled? && job !in started
    {
      cancelled := Cancel(job);
      if cancelled {
        var _ := Status();
        assert job < |futures| && FutureAccountedFor(View(), job);
      }
    }

    method Tick(elapsed: nat)
      requires Valid()
      modifies this`now
      ensures Valid() && View() == Apply(old(View()), ComProtocol.Tick(elapsed), wedgeAfter)
    {
      TickKeepsInv(View(), elapsed, wedgeAfter);
      now := now + elapsed;
    }

    // ---- thread t's loop, one atomic section at a time ----

    method Take(t: nat)
      requires Valid() && Enabled(View(), ComProtocol.Take(t))
      modifies this
      ensures Valid() && View() == Apply(old(View()), ComProtocol.Take(t), wedgeAfter)
    {
      TakeKeepsInv(View(), t, wedgeAfter);
      var q := threads[t].jobs;
      var job := queues[q][0];
      queues := queues[q := queues[q][1..]];
      if job.StopToken? {
        threads := threads[t := threads[t].(pc := Exited)];
      } else {
        threads := threads[t := threads[t].(pc := Holding(job.id))];
      }
    }

    method Claim(t: nat)
      requires Valid() && Enabled(View(), ComProtocol.Claim(t))
      modifies this
      ensures Valid() && View() == Apply(old(View()), ComProtocol.Claim(t), wedgeAfter)
    {
      ClaimKeepsInv(View(), t, wedgeAfter);
      var job := threads[t].pc.job;
      if !futures[job].Pending? {
        threads := threads[t := threads[t].(pc := Waiting)];
        return;
      }
      futures := futures[job := Running];
      threads := threads[t := threads[t].(pc := Claimed(job))];
    }

    method Begin(t: nat)
      requires Valid() && Enabled(View(), ComProtocol.Begin(t))
      modifies this
      ensures Valid() && View() == Apply(old(View()), ComProtocol.Begin(t), wedgeAfter)
    {
      BeginKeepsInv(View(), t, wedgeAfter);
      var job := threads[t].pc.job;
      current, currentSince := Some(job), now;
      threads := threads[t := threads[t].(pc := Calling(job))];
      started := started + [job];
    }

    method Finish(t: nat)
      requires Valid() && Enabled(View(), ComProtocol.Finish(t))
      modifies this
      ensures Valid() && View() == Apply(old(View()), ComProtocol.Finish(t), wedgeAfter)
    {
      FinishKeepsInv(View(), t, wedgeAfter);
      var job := threads[t].pc.job;
      if current == Some(job) {
        current := None;
      }
      completed := completed + 1;
      threads := threads[t := threads[t].(pc := Returned(job))];
    }

    method Resolve(t: nat)
      requires Valid() && Enabled(View(), ComProtocol.Resolve(t))
      modifies this
      ensures Valid() && View() == Apply(old(View()), ComProtocol.Resolve(t), wedgeAfter)
    {
      ResolveKeepsInv(View(), t, wedgeAfter);
      var job := threads[t].pc.job;
      futures := futures[job := Finished];
      threads := threads[t := threads[t].(pc := Waiting)];
    }
  }
}
