/** The page's socket (web/src/api/ws.ts 36-183): reconnecting with a backoff, pinging, and handing
    events on in batches.

    `WsProtocol` is the client with what the browser holds for it (sockets, timers, scheduled
    flushes) as a value, `WsClient` the class. A step that opens a socket is told whether
    `new WebSocket` succeeds. The random part of a delay is a parameter of `DelaysGrow`; the handlers'
    own work is not modelled. */
module WsProtocol {
  import opened Common

  const PING_INTERVAL: int := 25000
  const SILENCE_LIMIT: int := PING_INTERVAL * 2 + 5000
  const MIN_BACKOFF: nat := 1000
  const MAX_BACKOFF: nat := 30000

  datatype Ready = Connecting | Opened | Closing | Closed

  /** `attached`: the client's handlers are still on it. */
  datatype Socket = Socket(ready: Ready, attached: bool)

  /** The fields of the client; then the browser's side (`next` is the next timer handle); then the
      history: events, whether `connect` was ever called, and how long each reconnect since the last
      fresh start was made to wait (before the random part). */
  datatype Client = Client(
    socket: Option<nat>,
    attempt: nat,
    timer: Option<nat>,
    pingTimer: Option<nat>,
    queue: seq<string>,
    flushScheduled: bool,
    everOpened: bool,
    stopped: bool,
    lastHeard: int,
    sockets: seq<Socket>,
    timeouts: set<nat>,
    intervals: set<nat>,
    next: nat,
    flushes: nat,
    received: seq<string>,
    batches: seq<seq<string>>,
    begun: bool,
    waits: seq<nat>
  )

  function Initial(): Client {
    Client(None, 0, None, None, [], false, false, false, 0, [], {}, {}, 0, 0, [], [], false, [])
  }

  datatype Event =
    | Connect(ok: bool)
    | Close
    | Revive(now: int, ok: bool)
    | SocketOpens(ws: nat, now: int)
    | Message(ws: nat, now: int, data: Option<string>)
    | SocketClosing(ws: nat)
    | SocketCloses(ws: nat)
    | TimerFires(t: nat, ok: bool)
    | PingFires(i: nat, now: int, ok: bool)
    | Flush

  // ---- the client's own functions ----

  function Held(handle: Option<nat>): set<nat> {
    match handle case None => {} case Some(h) => {h}
  }

  function TimersCleared(s: Client): Client {
    s.(timeouts := s.timeouts - Held(s.timer), intervals := s.intervals - Held(s.pingTimer),
       timer := None, pingTimer := None)
  }

  function Pow2(n: nat): (p: nat)
    ensures p >= 1
  {
    if n == 0 then 1 else 2 * Pow2(n - 1)
  }

  function Backoff(attempt: nat): nat { Min(MAX_BACKOFF, MIN_BACKOFF * Pow2(attempt)) }

  function ReconnectScheduled(s: Client): Client {
    if s.stopped then s
    else s.(waits := s.waits + [Backoff(s.attempt)], attempt := s.attempt + 1, timer := Some(s.next), timeouts := s.timeouts + {s.next}, next := s.next + 1)
  }

  function Opening(s: Client, ok: bool): Client {
    var c := TimersCleared(s);
    if !ok then ReconnectScheduled(c)
    else c.(socket := Some(|c.sockets|), sockets := c.sockets + [Socket(Connecting, true)])
  }

  predicate Known(s: Client, ws: nat) { ws < |s.sockets| }

  function WithSocket(s: Client, ws: nat, socket: Socket): Client {
    if Known(s, ws) then s.(sockets := s.sockets[ws := socket]) else s
  }

  function Dropped(s: Client): Client {
    var d := match s.socket case None => s case Some(ws) => WithSocket(s, ws, Socket(Closing, false));
    d.(socket := None, attempt := 0, waits := [])
  }

  function Reopening(s: Client, ok: bool): Client {
    Opening(Dropped(s), ok)
  }

  predicate IsOpen(s: Client) {
    s.socket.Some? && Known(s, s.socket.value) && s.sockets[s.socket.value].ready == Opened
  }

  function FlushScheduled(s: Client): Client {
    if s.flushScheduled then s else s.(flushScheduled := true, flushes := s.flushes + 1)
  }

  function LetGo(s: Client): Client {
    var d := match s.socket case None => s case Some(ws) =>
      if Known(s, ws) then WithSocket(s, ws, s.sockets[ws].(ready := Closing)) else s;
    d.(socket := None)
  }

  function ClosedByUser(s: Client): Client {
    LetGo(TimersCleared(s.(stopped := true)))
  }

  // ---- steps ----

  /** Only live timers fire, and only sockets with handlers are heard. */
  predicate Enabled(s: Client, e: Event) {
    match e
    case SocketOpens(ws, _) => Known(s, ws) && s.sockets[ws] == Socket(Connecting, true)
    case Message(ws, _, _) => Known(s, ws) && s.sockets[ws].attached && s.sockets[ws].ready in {Opened, Closing}
    case SocketClosing(ws) => Known(s, ws) && s.sockets[ws].ready != Closed
    case SocketCloses(ws) => Known(s, ws) && s.sockets[ws].attached && s.sockets[ws].ready != Closed
    case TimerFires(t, _) => t in s.timeouts
    case PingFires(i, _, _) => i in s.intervals
    case Flush => s.flushes > 0
    case _ => true
  }

  /** A fresh start: heard just now, no failures behind, and a ping interval. */
  function Greeted(s: Client, now: int): Client {
    s.(everOpened := true, attempt := 0, waits := [], lastHeard := now, pingTimer := Some(s.next),
       intervals := s.intervals + {s.next}, next := s.next + 1)
  }

  function AfterOpen(s: Client, ws: nat, now: int): Client
    requires Known(s, ws)
  {
    var t := WithSocket(s, ws, Socket(Opened, true));
    if s.socket != Some(ws) then t else Greeted(t, now)
  }

  function AfterMessage(s: Client, now: int, data: Option<string>): Client {
    var t := s.(lastHeard := now);
    match data
    case None => t
    case Some(event) => FlushScheduled(t.(queue := t.queue + [event], received := t.received + [event]))
  }

  function AfterClose(s: Client, ws: nat): Client
    requires Known(s, ws)
  {
    var t := WithSocket(s, ws, Socket(Closed, true));
    if s.socket != Some(ws) then t
    else
      var c := t.(socket := None, intervals := t.intervals - Held(t.pingTimer), pingTimer := None);
      ReconnectScheduled(c)
  }

  function AfterRevive(s: Client, now: int, ok: bool): Client {
    if s.stopped then s
    else if !IsOpen(s) then Opening(s.(timeouts := s.timeouts - Held(s.timer), attempt := 0, waits := []), ok)
    else if now - s.lastHeard > PING_INTERVAL then Reopening(s, ok)
    else s
  }

  function AfterFlush(s: Client): Client
    requires s.flushes > 0
  {
    var t := s.(flushScheduled := false, flushes := s.flushes - 1);
    if t.queue == [] then t else t.(queue := [], batches := t.batches + [t.queue])
  }

  function Apply(s: Client, e: Event): Client
    requires Enabled(s, e)
  {
    match e
    case Connect(ok) => Opening(s.(stopped := false, begun := true), ok)
    case Close => ClosedByUser(s)
    case Revive(now, ok) => AfterRevive(s, now, ok)
    case SocketOpens(ws, now) => AfterOpen(s, ws, now)
    case Message(_, now, data) => AfterMessage(s, now, data)
    case SocketClosing(ws) => WithSocket(s, ws, s.sockets[ws].(ready := Closing))
    case SocketCloses(ws) => AfterClose(s, ws)
    case TimerFires(t, ok) => Opening(s.(timeouts := s.timeouts - {t}), ok)
    case PingFires(_, now, ok) => if now - s.lastHeard > SILENCE_LIMIT then Reopening(s, ok) else s
    case Flush => AfterFlush(s)
  }

  // ---- what holds whatever happens ----

  predicate EventsInOrder(s: Client) {
    && Concat(s.batches) + s.queue == s.received
    && s.flushes == (if s.flushScheduled then 1 else 0)
    && (s.queue != [] ==> s.flushScheduled)
  }

  /** The installed socket is one that can still be heard. */
  predicate SocketAlive(s: Client) {
    s.socket.Some? ==>
      Known(s, s.socket.value) && s.sockets[s.socket.value].attached && s.sockets[s.socket.value].ready != Closed
  }

  /** At most one ping interval is live: the one held, for the installed socket, which has opened. */
  predicate OnePing(s: Client) {
    && s.intervals <= Held(s.pingTimer)
    && (s.intervals != {} ==>
          s.socket.Some? && Known(s, s.socket.value) && s.sockets[s.socket.value].ready != Connecting)
  }

  predicate HandlesAreOld(s: Client) {
    && (forall t <- s.timeouts :: t < s.next)
    && (forall i <- s.intervals :: i < s.next)
    && (s.timer.Some? ==> s.timer.value < s.next)
  }

  /** A running client has a socket or is about to make one. */
  predicate NotStranded(s: Client) {
    s.begun && !s.stopped ==> s.socket.Some? || s.timeouts != {}
  }

  /** The k-th reconnect in a row waits the k-th backoff. */
  predicate BacksOff(s: Client) {
    |s.waits| == s.attempt && forall k :: 0 <= k < |s.waits| ==> s.waits[k] == Backoff(k)
  }

  predicate Always(s: Client) {
    EventsInOrder(s) && SocketAlive(s) && OnePing(s) && HandlesAreOld(s) && NotStranded(s) && BacksOff(s)
  }

  // ---- what holds as long as no socket fails to be made over an installed one ----

  /** At most one reconnect timer is live, the one held, and none beside a socket; an open socket is
      pinged; after `close` nothing is live. */
  predicate Tidy(s: Client) {
    && (IsOpen(s) ==> s.intervals != {})
    && s.timeouts <= Held(s.timer)
    && (s.socket.Some? ==> s.timeouts == {})
    && (s.stopped ==> s.timeouts == {} && s.intervals == {} && s.socket.None?)
  }

  /** The step calls `new WebSocket` while a socket is installed, and that throws. */
  predicate ThrowsOverSocket(s: Client, e: Event) {
    match e
    case Connect(ok) => !ok && s.socket.Some?
    case Revive(_, ok) => !ok && s.socket.Some? && !s.stopped && !IsOpen(s)
    case TimerFires(_, ok) => !ok && s.socket.Some?
    case _ => false
  }

  lemma OpeningKeepsAlways(s: Client, ok: bool)
    requires EventsInOrder(s) && SocketAlive(s) && s.intervals <= Held(s.pingTimer) && HandlesAreOld(s) && BacksOff(s)
    ensures Always(Opening(s, ok))
  {
    var t := Opening(s, ok);
    if !ok && !s.stopped {
      assert s.next in t.timeouts;
    }
  }

  lemma DroppingKeeps(s: Client)
    requires Always(s)
    ensures var d := Dropped(s); EventsInOrder(d) && SocketAlive(d) && HandlesAreOld(d) && BacksOff(d)
    ensures Dropped(s).intervals <= Held(Dropped(s).pingTimer)
  {
  }

  lemma ReopeningKeepsAlways(s: Client, ok: bool)
    requires Always(s)
    ensures Always(Reopening(s, ok))
  {
    DroppingKeeps(s);
    OpeningKeepsAlways(Dropped(s), ok);
  }

  lemma CloseKeepsAlways(s: Client, ws: nat)
    requires Always(s) && Enabled(s, SocketCloses(ws))
    ensures Always(AfterClose(s, ws))
  {
    var t := AfterClose(s, ws);
    if s.socket == Some(ws) && !s.stopped {
      assert s.next in t.timeouts;
    }
  }

  lemma FlushKeepsAlways(s: Client)
    requires Always(s) && s.flushes > 0
    ensures Always(AfterFlush(s))
  {
    ConcatSnoc(s.batches, s.queue);
    assert s.received + [] == s.received;
  }

  lemma MessageKeepsAlways(s: Client, now: int, data: Option<string>)
    requires Always(s)
    ensures Always(AfterMessage(s, now, data))
  {
    if data.Some? {
      Regroup(Concat(s.batches), s.queue, [data.value]);
    }
  }

  lemma SocketEventKeepsAlways(s: Client, e: Event)
    requires Always(s) && Enabled(s, e) && (e.SocketOpens? || e.SocketClosing?)
    ensures Always(Apply(s, e))
  {
  }

  lemma UserCloseKeepsAlways(s: Client)
    requires Always(s)
    ensures Always(ClosedByUser(s))
  {
  }

  lemma ReviveKeepsAlways(s: Client, now: int, ok: bool)
    requires Always(s)
    ensures Always(AfterRevive(s, now, ok))
  {
    OpeningKeepsAlways(s.(timeouts := s.timeouts - Held(s.timer), attempt := 0, waits := []), ok);
    ReopeningKeepsAlways(s, ok);
  }

  lemma StepKeepsAlways(s: Client, e: Event)
    requires Always(s) && Enabled(s, e)
    ensures Always(Apply(s, e))
  {
    match e
    case Connect(ok) => OpeningKeepsAlways(s.(stopped := false, begun := true), ok);
    case Close => UserCloseKeepsAlways(s);
    case Revive(now, ok) => ReviveKeepsAlways(s, now, ok);
    case SocketCloses(ws) => CloseKeepsAlways(s, ws);
    case TimerFires(t, ok) => OpeningKeepsAlways(s.(timeouts := s.timeouts - {t}), ok);
    case PingFires(_, now, ok) => ReopeningKeepsAlways(s, ok);
    case Flush => FlushKeepsAlways(s);
    case Message(_, now, data) => MessageKeepsAlways(s, now, data);
    case _ => SocketEventKeepsAlways(s, e);
  }

  lemma OpeningKeepsTidy(s: Client, ok: bool)
    requires s.timeouts <= Held(s.timer) && !s.stopped && (ok || s.socket.None?)
    ensures Tidy(Opening(s, ok))
  {
    assert TimersCleared(s).timeouts == {};
  }

  lemma ReviveKeepsTidy(s: Client, now: int, ok: bool)
    requires Always(s) && Tidy(s) && !ThrowsOverSocket(s, Revive(now, ok))
    ensures Tidy(AfterRevive(s, now, ok))
  {
    if !s.stopped {
      if !IsOpen(s) {
        OpeningKeepsTidy(s.(timeouts := s.timeouts - Held(s.timer), attempt := 0, waits := []), ok);
      } else {
        ReopeningKeepsTidy(s, ok);
      }
    }
  }

  lemma ReopeningKeepsTidy(s: Client, ok: bool)
    requires Tidy(s) && !s.stopped
    ensures Tidy(Reopening(s, ok))
  {
    OpeningKeepsTidy(Dropped(s), ok);
  }

  lemma CloseKeepsTidy(s: Client, ws: nat)
    requires Tidy(s) && Known(s, ws)
    ensures Tidy(AfterClose(s, ws))
  {
  }

  lemma UserCloseIsTidy(s: Client)
    requires Always(s) && Tidy(s)
    ensures Tidy(ClosedByUser(s))
  {
    assert TimersCleared(s).timeouts == {} && TimersCleared(s).intervals == {};
  }

  lemma StepKeepsTidy(s: Client, e: Event)
    requires Always(s) && Tidy(s) && Enabled(s, e) && !ThrowsOverSocket(s, e)
    ensures Tidy(Apply(s, e))
  {
    match e
    case Connect(ok) => OpeningKeepsTidy(s.(stopped := false, begun := true), ok);
    case Revive(now, ok) => ReviveKeepsTidy(s, now, ok);
    case TimerFires(t, ok) => OpeningKeepsTidy(s.(timeouts := s.timeouts - {t}), ok);
    case PingFires(i, now, ok) => ReopeningKeepsTidy(s, ok);
    case Close => UserCloseIsTidy(s);
    case SocketCloses(ws) => CloseKeepsTidy(s, ws);
    case SocketOpens(ws, now) => OpenKeepsTidy(s, ws, now);
    case _ => OtherKeepsTidy(s, e);
  }

  lemma OpenKeepsTidy(s: Client, ws: nat, now: int)
    requires Always(s) && Tidy(s) && Enabled(s, SocketOpens(ws, now))
    ensures Tidy(AfterOpen(s, ws, now))
  {
    if s.socket == Some(ws) {
      assert s.next in AfterOpen(s, ws, now).intervals;
    }
  }

  lemma OtherKeepsTidy(s: Client, e: Event)
    requires Tidy(s) && Enabled(s, e) && (e.SocketClosing? || e.Message? || e.Flush?)
    ensures Tidy(Apply(s, e))
  {
  }

  // ---- runs ----

  ghost predicate Possible(s: Client, events: seq<Event>)
    decreases |events|
  {
    events == [] || (Enabled(s, events[0]) && Possible(Apply(s, events[0]), events[1..]))
  }

  ghost function After(s: Client, events: seq<Event>): Client
    requires Possible(s, events)
    decreases |events|
  {
    if events == [] then s else After(Apply(s, events[0]), events[1..])
  }

  /** No step of the run throws over an installed socket. */
  ghost predicate Careful(s: Client, events: seq<Event>)
    requires Possible(s, events)
    decreases |events|
  {
    events == [] || (!ThrowsOverSocket(s, events[0]) && Careful(Apply(s, events[0]), events[1..]))
  }

  lemma {:induction false} RunKeepsAlways(s: Client, events: seq<Event>)
    requires Always(s) && Possible(s, events)
    ensures Always(After(s, events))
    decreases |events|
  {
    if events == [] {
    } else {
      StepKeepsAlways(s, events[0]);
      RunKeepsAlways(Apply(s, events[0]), events[1..]);
    }
  }

  lemma {:induction false} RunKeepsTidy(s: Client, events: seq<Event>)
    requires Always(s) && Tidy(s) && Possible(s, events) && Careful(s, events)
    ensures Always(After(s, events)) && Tidy(After(s, events))
    decreases |events|
  {
    if events == [] {
    } else {
      StepKeepsAlways(s, events[0]);
      StepKeepsTidy(s, events[0]);
      RunKeepsTidy(Apply(s, events[0]), events[1..]);
    }
  }

  /** The events that arrive in a run, in order. */
  function DataIn(events: seq<Event>): seq<string> {
    if events == [] then [] else DataOf(events[0]) + DataIn(events[1..])
  }

  function DataOf(e: Event): seq<string> {
    if e.Message? && e.data.Some? then [e.data.value] else []
  }

  lemma {:induction false} AllIsReceived(s: Client, events: seq<Event>)
    requires Possible(s, events)
    ensures After(s, events).received == s.received + DataIn(events)
    decreases |events|
  {
    if events == [] {
    } else {
      var t, e, rest := Apply(s, events[0]), events[0], events[1..];
      ReceivedStep(s, e);
      AllIsReceived(t, rest);
      Regroup(s.received, DataOf(e), DataIn(rest));
    }
  }

  lemma ReceivedStep(s: Client, e: Event)
    requires Enabled(s, e)
    ensures Apply(s, e).received == s.received + DataOf(e)
  {
    match e
    case Revive(now, ok) => ReopeningReceivesNothing(s, ok);
    case PingFires(_, _, ok) => ReopeningReceivesNothing(s, ok);
    case _ =>
  }

  lemma ReopeningReceivesNothing(s: Client, ok: bool)
    ensures Reopening(s, ok).received == s.received
  {
  }

  /** In any run: the batches handed on, then the queue, are the events that arrived, in order; a
      queue that is not empty has its one flush coming; no two ping intervals are live. */
  lemma EveryEventIsHandedOnInOrder(events: seq<Event>)
    requires Possible(Initial(), events)
    ensures var s := After(Initial(), events);
            && Concat(s.batches) + s.queue == DataIn(events)
            && (s.queue != [] ==> s.flushes == 1 && Enabled(s, Flush) && Apply(s, Flush).batches == s.batches + [s.queue])
            && |s.intervals| <= 1
  {
    RunKeepsAlways(Initial(), events);
    AllIsReceived(Initial(), events);
    AtMostOne(After(Initial(), events).intervals, After(Initial(), events).pingTimer);
  }

  /** Without a `close` a running client keeps running, without a `connect` a closed one stays closed. */
  lemma {:induction false} StaysAsItIs(s: Client, events: seq<Event>)
    requires Possible(s, events)
    ensures (forall e <- events :: !e.Close?) && !s.stopped ==> !After(s, events).stopped
    ensures (forall e <- events :: !e.Connect?) && s.stopped ==> After(s, events).stopped
    ensures s.begun ==> After(s, events).begun
    decreases |events|
  {
    if events == [] {
    } else {
      assert events[0] in events && forall e <- events[1..] :: e in events;
      StateStep(s, events[0]);
      StaysAsItIs(Apply(s, events[0]), events[1..]);
    }
  }

  lemma StateStep(s: Client, e: Event)
    requires Enabled(s, e)
    ensures Apply(s, e).stopped == if e.Connect? then false else if e.Close? then true else s.stopped
    ensures Apply(s, e).begun == (s.begun || e.Connect?)
  {
    match e
    case Revive(now, ok) => ReopeningGoesOn(s, ok);
    case PingFires(_, _, ok) => ReopeningGoesOn(s, ok);
    case _ =>
  }

  lemma ReopeningGoesOn(s: Client, ok: bool)
    ensures Reopening(s, ok).stopped == s.stopped && Reopening(s, ok).begun == s.begun
  {
  }

  /** The last call of `connect` or `close` decides whether the client is stopped. */
  lemma {:induction false} LastCallDecides(s: Client, events: seq<Event>, k: nat)
    requires Possible(s, events) && k < |events|
    ensures events[k].Connect? && (forall e <- events[k + 1..] :: !e.Close?) ==> After(s, events).begun && !After(s, events).stopped
    ensures events[k].Close? && (forall e <- events[k + 1..] :: !e.Connect?) ==> After(s, events).stopped
    decreases |events|
  {
    StateStep(s, events[0]);
    if k == 0 {
      StaysAsItIs(Apply(s, events[0]), events[1..]);
    } else {
      assert events[1..][k - 1] == events[k] && events[1..][k..] == events[k + 1..];
      LastCallDecides(Apply(s, events[0]), events[1..], k - 1);
    }
  }

  /** In any run, after a `connect` with no `close` since, the client has a socket or a reconnect coming. */
  lemma RunningClientIsNotStranded(events: seq<Event>, k: nat)
    requires Possible(Initial(), events)
    requires k < |events| && events[k].Connect? && forall e <- events[k + 1..] :: !e.Close?
    ensures After(Initial(), events).socket.Some? || After(Initial(), events).timeouts != {}
  {
    RunKeepsAlways(Initial(), events);
    LastCallDecides(Initial(), events, k);
  }

  /** In any run the reconnects since the last open wait one second, then twice as long each time,
      up to thirty seconds. */
  lemma WaitsDouble(events: seq<Event>, k: nat)
    requires Possible(Initial(), events) && k < |After(Initial(), events).waits|
    ensures var waits := After(Initial(), events).waits;
            waits[k] == if k == 0 then 1000 else Min(30000, 2 * waits[k - 1])
  {
    RunKeepsAlways(Initial(), events);
    assert k > 0 ==> Pow2(k) == 2 * Pow2(k - 1);
  }

  // ---- silence ----

  /** A message arrives, or the installed socket opens, at time t. */
  predicate Hears(s: Client, e: Event, t: int) {
    match e
    case SocketOpens(ws, now) => s.socket == Some(ws) && now == t
    case Message(_, now, _) => now == t
    case _ => false
  }

  predicate Silent(events: seq<Event>) {
    forall e <- events :: !e.SocketOpens? && !e.Message?
  }

  lemma {:induction false} SilenceChangesNothingHeard(s: Client, events: seq<Event>)
    requires Possible(s, events) && Silent(events)
    ensures After(s, events).lastHeard == s.lastHeard
    decreases |events|
  {
    if events != [] {
      assert events[0] in events;
      SilentStep(s, events[0]);
      SilenceChangesNothingHeard(Apply(s, events[0]), events[1..]);
    }
  }

  lemma SilentStep(s: Client, e: Event)
    requires Enabled(s, e) && !e.SocketOpens? && !e.Message?
    ensures Apply(s, e).lastHeard == s.lastHeard
  {
    match e
    case Revive(now, ok) =>
      OpeningHearsNothing(s.(timeouts := s.timeouts - Held(s.timer), attempt := 0, waits := []), ok);
      OpeningHearsNothing(Dropped(s), ok);
    case PingFires(_, _, ok) => OpeningHearsNothing(Dropped(s), ok);
    case _ =>
  }

  lemma OpeningHearsNothing(s: Client, ok: bool)
    ensures Opening(s, ok).lastHeard == s.lastHeard
  {
  }

  lemma HearingStep(s: Client, e: Event, t: int)
    requires Enabled(s, e) && Hears(s, e, t)
    ensures Apply(s, e).lastHeard == t
  {
  }

  /** The socket is given up without its handlers, and a new one made - or, where that throws, a
      reconnect scheduled, to come after the shortest wait. */
  ghost predicate Replaced(s: Client, s': Client, ok: bool)
    requires SocketAlive(s)
  {
    var sockets := if s.socket.Some? then s.sockets[s.socket.value := Socket(Closing, false)] else s.sockets;
    if ok then s'.sockets == sockets + [Socket(Connecting, true)] && s'.socket == Some(|s.sockets|)
    else
      && s'.sockets == sockets && s'.socket == None
      && (!s.stopped ==> s'.waits == [1000] && s'.timer.Some? && s'.timer.value in s'.timeouts)
  }

  /** Last heard at t1 and silent since, whatever else happens meanwhile: a ping at t2 replaces the
      socket if and only if more than 55 seconds have passed, and otherwise changes nothing. */
  lemma SilentSocketIsReplaced(s: Client, e: Event, t1: int, events: seq<Event>, i: nat, t2: int, ok: bool)
    requires Always(s) && Enabled(s, e) && Hears(s, e, t1)
    requires Possible(Apply(s, e), events) && Silent(events)
    requires Enabled(After(Apply(s, e), events), PingFires(i, t2, ok))
    ensures Always(After(Apply(s, e), events))
    ensures var before := After(Apply(s, e), events);
            var after := Apply(before, PingFires(i, t2, ok));
            if t2 - t1 > 55000 then Replaced(before, after, ok) else after == before
  {
    LastHeardThen(s, e, t1, events);
    PingReplaces(After(Apply(s, e), events), i, t1, t2, ok);
  }

  lemma LastHeardThen(s: Client, e: Event, t1: int, events: seq<Event>)
    requires Always(s) && Enabled(s, e) && Hears(s, e, t1)
    requires Possible(Apply(s, e), events) && Silent(events)
    ensures Always(After(Apply(s, e), events)) && After(Apply(s, e), events).lastHeard == t1
  {
    StepKeepsAlways(s, e);
    HearingStep(s, e, t1);
    var heard := Apply(s, e);
    RunKeepsAlways(heard, events);
    SilenceChangesNothingHeard(heard, events);
  }

  lemma PingReplaces(s: Client, i: nat, t1: int, t2: int, ok: bool)
    requires Always(s) && s.lastHeard == t1 && Enabled(s, PingFires(i, t2, ok))
    ensures var after := Apply(s, PingFires(i, t2, ok)); if t2 - t1 > 55000 then Replaced(s, after, ok) else after == s
  {
    ReopeningReplaces(s, ok);
  }

  lemma ReviveReplaces(s: Client, t1: int, t2: int, ok: bool)
    requires Always(s) && s.lastHeard == t1 && IsOpen(s) && !s.stopped
    ensures var after := Apply(s, Revive(t2, ok)); if t2 - t1 > 25000 then Replaced(s, after, ok) else after == s
  {
    ReopeningReplaces(s, ok);
  }

  /** And `revive` replaces an open socket if and only if more than 25 seconds have passed. */
  lemma ReviveReplacesTheSilent(s: Client, e: Event, t1: int, events: seq<Event>, t2: int, ok: bool)
    requires Always(s) && Enabled(s, e) && Hears(s, e, t1)
    requires Possible(Apply(s, e), events) && Silent(events)
    ensures Always(After(Apply(s, e), events))
    ensures var before := After(Apply(s, e), events);
            var after := Apply(before, Revive(t2, ok));
            !before.stopped && before.socket.Some? && before.sockets[before.socket.value].ready == Opened ==>
              if t2 - t1 > 25000 then Replaced(before, after, ok) else after == before
  {
    LastHeardThen(s, e, t1, events);
    var before := After(Apply(s, e), events);
    if !before.stopped && IsOpen(before) {
      ReviveReplaces(before, t1, t2, ok);
    }
  }

  lemma ReopeningReplaces(s: Client, ok: bool)
    requires Always(s)
    ensures Replaced(s, Reopening(s, ok), ok)
  {
    var d := Dropped(s);
    assert Backoff(0) == 1000 by {
      assert Pow2(0) == 1;
    }
  }

  /** Without an open socket `revive` makes one at once, and of a closed client it changes nothing. */
  lemma ReviveOpens(s: Client, now: int)
    requires Always(s) && (s.socket.None? || s.sockets[s.socket.value].ready != Opened)
    ensures var after := Apply(s, Revive(now, true));
            if s.stopped then after == s
            else after.sockets == s.sockets + [Socket(Connecting, true)] && after.socket == Some(|s.sockets|)
  {
  }

  /** A socket that has opened and is lost is followed by a reconnect after one second, however many
      had failed before. */
  lemma OpeningStartsAfresh(s: Client, ws: nat, now: int)
    requires Always(s) && !s.stopped && s.socket == Some(ws) && Enabled(s, SocketOpens(ws, now))
    ensures var open := Apply(s, SocketOpens(ws, now));
            && IsOpen(open) && open.intervals != {} && Enabled(open, SocketCloses(ws))
            && var lost := Apply(open, SocketCloses(ws));
            && lost.socket == None && lost.waits == [1000]
            && lost.timer.Some? && lost.timeouts == s.timeouts + {lost.timer.value}
  {
    assert Pow2(0) == 1;
    assert s.next in Apply(s, SocketOpens(ws, now)).intervals;
  }

  /** Closing ends the socket and keeps what has arrived. */
  lemma CloseEndsTheSocket(s: Client)
    requires Always(s)
    ensures var c := Apply(s, Close);
            && c.socket == None && c.stopped && c.queue == s.queue && c.flushes == s.flushes
            && c.sockets == if s.socket.Some? then s.sockets[s.socket.value := s.sockets[s.socket.value].(ready := Closing)]
                            else s.sockets
  {
  }

  /** A reconnect waits its backoff times a random factor between 0.85 and 1.15. */
  function Delay(backoff: nat, random: real): real
    requires 0.0 <= random < 1.0
  {
    backoff as real * (0.85 + random * 0.3)
  }

  /** Whatever the random numbers: in any run every reconnect since the last fresh start waits longer
      than the one before it until the backoff has reached its end, and none waits longer than 34.5
      seconds. */
  lemma DelaysGrow(events: seq<Event>, k: nat, r: real, q: real)
    requires Possible(Initial(), events) && k < |After(Initial(), events).waits|
    requires 0.0 <= r < 1.0 && 0.0 <= q < 1.0
    ensures var waits := After(Initial(), events).waits;
            && 850.0 <= Delay(waits[k], r) < 34500.0
            && (k > 0 && waits[k - 1] < 30000 ==> Delay(waits[k - 1], q) < Delay(waits[k], r))
  {
    var waits := After(Initial(), events).waits;
    RunKeepsAlways(Initial(), events);
    assert waits[k] == Backoff(k) && (k > 0 ==> waits[k - 1] == Backoff(k - 1));
    BackoffGrows(k);
    DelayBounds(waits[k], r);
    if k > 0 && waits[k - 1] < MAX_BACKOFF {
      BackoffGrows(k - 1);
      DelaysCompare(waits[k - 1], waits[k], q, r);
    }
  }

  lemma Factor(backoff: nat, random: real)
    requires 0.0 <= random < 1.0 && backoff > 0
    ensures 0.85 * backoff as real <= Delay(backoff, random) < 1.15 * backoff as real
  {
  }

  lemma DelayBounds(backoff: nat, random: real)
    requires 0.0 <= random < 1.0 && MIN_BACKOFF <= backoff <= MAX_BACKOFF
    ensures 850.0 <= Delay(backoff, random) < 34500.0
  {
    Factor(backoff, random);
  }

  lemma DelaysCompare(a: nat, b: nat, q: real, r: real)
    requires 0.0 <= q < 1.0 && 0.0 <= r < 1.0 && a > 0 && 8 * b >= 15 * a
    ensures Delay(a, q) < Delay(b, r)
  {
    Factor(a, q);
    Factor(b, r);
  }

  lemma BackoffGrows(k: nat)
    ensures MIN_BACKOFF <= Backoff(k) <= MAX_BACKOFF
    ensures k > 0 && Backoff(k - 1) < MAX_BACKOFF ==> 8 * Backoff(k) >= 15 * Backoff(k - 1)
  {
    assert k > 0 ==> Pow2(k) == 2 * Pow2(k - 1);
    if k > 0 && Backoff(k - 1) < MAX_BACKOFF {
      SmallPower(k - 1);
    }
  }

  lemma SmallPower(n: nat)
    requires Pow2(n) < 30
    ensures Pow2(n) <= 16
  {
    if n > 0 {
      assert Pow2(n) == 2 * Pow2(n - 1);
      if n > 1 { assert Pow2(n - 1) == 2 * Pow2(n - 2); }
      if n > 2 { assert Pow2(n - 2) == 2 * Pow2(n - 3); }
      if n > 3 { assert Pow2(n - 3) == 2 * Pow2(n - 4); }
    }
  }

  lemma AtMostOne(live: set<nat>, held: Option<nat>)
    requires live <= Held(held)
    ensures |live| <= 1
  {
    if h :| h in live {
      assert live == {h};
    }
  }

  /** Without such a throw: never two reconnect timers, none beside a socket, and an open socket is
      watched by a ping interval; and after a `close` with no `connect` since, the client holds no timer,
      no interval and no socket. */
  lemma CarefulRunsAreTidy(events: seq<Event>)
    requires Possible(Initial(), events) && Careful(Initial(), events)
    ensures var s := After(Initial(), events);
            && |s.timeouts| <= 1 && (s.socket.Some? ==> s.timeouts == {})
            && (s.socket.Some? ==> s.socket.value < |s.sockets| && (s.sockets[s.socket.value].ready == Opened ==> s.intervals != {}))
    ensures forall k :: 0 <= k < |events| && events[k].Close? && (forall e <- events[k + 1..] :: !e.Connect?) ==>
              var s := After(Initial(), events); s.timeouts == {} && s.intervals == {} && s.socket.None?
  {
    RunKeepsTidy(Initial(), events);
    AtMostOne(After(Initial(), events).timeouts, After(Initial(), events).timer);
    forall k | 0 <= k < |events| && events[k].Close? && (forall e <- events[k + 1..] :: !e.Connect?)
      ensures After(Initial(), events).stopped
    {
      LastCallDecides(Initial(), events, k);
    }
  }

  /** Once closed, nothing but `connect` opens a socket, whatever else happens. */
  lemma {:induction false} ClosedStaysClosed(s: Client, events: seq<Event>)
    requires Always(s) && Tidy(s) && s.stopped && Possible(s, events)
    requires forall e <- events :: !e.Connect?
    ensures |After(s, events).sockets| == |s.sockets| && Tidy(After(s, events)) && After(s, events).stopped
    decreases |events|
  {
    if events == [] {
    } else {
      assert !events[0].Connect?;
      StepKeepsAlways(s, events[0]);
      StepKeepsTidy(s, events[0]);
      ClosedStaysClosed(Apply(s, events[0]), events[1..]);
    }
  }

  /** The condition is needed: from every tidy state, a throw over an installed socket followed by
      the end of that socket leaves two timers; closing then clears one, and the other opens a
      socket of a closed client. */
  lemma ThrowingOverASocketDoublesTimers(s: Client, e: Event)
    requires Always(s) && Tidy(s) && Enabled(s, e) && ThrowsOverSocket(s, e)
    ensures var a := Apply(s, e);
            && Enabled(a, SocketCloses(s.socket.value))
            && var b := Apply(a, SocketCloses(s.socket.value));
            && |b.timeouts| == 2
            && var c := Apply(b, Close);
            && c.stopped && Enabled(c, TimerFires(s.next, true))
            && Apply(c, TimerFires(s.next, true)).socket.Some?
  {
    var a := Apply(s, e);
    assert a.timeouts == {s.next} && a.next == s.next + 1 && a.socket == s.socket && a.sockets == s.sockets && !a.stopped;
    TwoTimers(a, s.next, s.socket.value);
  }

  /** A reconnect timer beside a socket: when the socket ends there are two, and closing leaves one. */
  lemma TwoTimers(a: Client, t: nat, ws: nat)
    requires a.timeouts == {t} && a.next == t + 1 && !a.stopped && a.socket == Some(ws)
    requires Enabled(a, SocketCloses(ws))
    ensures var b := Apply(a, SocketCloses(ws));
            var c := Apply(b, Close);
            && |b.timeouts| == 2 && c.stopped
            && Enabled(c, TimerFires(t, true)) && Apply(c, TimerFires(t, true)).socket.Some?
  {
    var b := AfterClose(a, ws);
    assert b.timeouts == {t, t + 1} && b.timer == Some(t + 1);
    var c := ClosedByUser(b);
    assert c.timeouts == {t};
  }
}

/** The class. Its last fields stand for what the browser holds on its behalf. */
module WsClient {
  import opened Common
  import P = WsProtocol

  class Client {
    var socket: Option<nat>
    var attempt: nat
    var timer: Option<nat>
    var pingTimer: Option<nat>
    var queue: seq<string>
    var flushScheduled: bool
    var everOpened: bool
    var stopped: bool
    var lastHeard: int
    var sockets: seq<P.Socket>
    var timeouts: set<nat>
    var intervals: set<nat>
    var next: nat
    var flushes: nat
    ghost var received: seq<string>
    ghost var batches: seq<seq<string>>
    ghost var begun: bool
    ghost var waits: seq<nat>

    ghost function View(): P.Client
      reads this
    {
      P.Client(socket, attempt, timer, pingTimer, queue, flushScheduled, everOpened, stopped, lastHeard,
               sockets, timeouts, intervals, next, flushes, received, batches, begun, waits)
    }

    /** What every call and callback keeps. */
    ghost predicate Valid()
      reads this
    {
      P.Always(View())
    }

    constructor ()
      ensures Valid() && View() == P.Initial()
    {
      socket, attempt, timer, pingTimer, queue, flushScheduled := None, 0, None, None, [], false;
      everOpened, stopped, lastHeard := false, false, 0;
      sockets, timeouts, intervals, next, flushes := [], {}, {}, 0, 0;
      received, batches, begun, waits := [], [], false, [];
    }

    method ClearTimeout()
      modifies this`timeouts
      ensures timeouts == old(timeouts) - P.Held(timer)
    {
      if timer.Some? {
        timeouts := timeouts - {timer.value};
      }
    }

    method ClearInterval()
      modifies this`intervals
      ensures intervals == old(intervals) - P.Held(pingTimer)
    {
      if pingTimer.Some? {
        intervals := intervals - {pingTimer.value};
      }
    }

    method ClearTimers()
      modifies this
      ensures View() == P.TimersCleared(old(View()))
    {
      ClearTimeout();
      ClearInterval();
      timer, pingTimer := None, None;
    }

    method ScheduleReconnect()
      modifies this
      ensures View() == P.ReconnectScheduled(old(View()))
    {
      if stopped {
        return;
      }
      waits := waits + [P.Backoff(attempt)];
      attempt := attempt + 1;
      timer, timeouts, next := Some(next), timeouts + {next}, next + 1;
    }

    method Open(ok: bool)
      modifies this
      ensures View() == P.Opening(old(View()), ok)
    {
      ClearTimers();
      if !ok {
        ScheduleReconnect();
        return;
      }
      socket, sockets := Some(|sockets|), sockets + [P.Socket(P.Connecting, true)];
    }

    method Reopen(ok: bool)
      modifies this
      ensures View() == P.Reopening(old(View()), ok)
    {
      var dead := socket;
      socket := None;
      if dead.Some? && dead.value < |sockets| {
        sockets := sockets[dead.value := P.Socket(P.Closing, false)];
      }
      attempt, waits := 0, [];
      assert View() == P.Dropped(old(View()));
      Open(ok);
    }

    method Connect(ok: bool)
      requires Valid()
      modifies this
      ensures Valid() && View() == P.Apply(old(View()), P.Connect(ok))
    {
      P.StepKeepsAlways(View(), P.Connect(ok));
      stopped, begun := false, true;
      Open(ok);
    }

    method Close()
      requires Valid()
      modifies this
      ensures Valid() && View() == P.Apply(old(View()), P.Close)
    {
      P.StepKeepsAlways(View(), P.Close);
      stopped := true;
      ClearTimers();
      LetGo();
    }

    method LetGo()
      modifies this`socket, this`sockets
      ensures View() == P.LetGo(old(View()))
    {
      if socket.Some? && socket.value < |sockets| {
        sockets := sockets[socket.value := sockets[socket.value].(ready := P.Closing)];
      }
      socket := None;
    }

    method Revive(now: int, ok: bool)
      requires Valid()
      modifies this
      ensures Valid() && View() == P.Apply(old(View()), P.Revive(now, ok))
    {
      P.StepKeepsAlways(View(), P.Revive(now, ok));
      if stopped {
        return;
      }
      if !(socket.Some? && socket.value < |sockets| && sockets[socket.value].ready == P.Opened) {
        Restart(ok);
      } else if now - lastHeard > P.PING_INTERVAL {
        Reopen(ok);
      }
    }

    method Restart(ok: bool)
      modifies this
      ensures View() == P.Opening(old(View()).(timeouts := old(timeouts) - P.Held(old(timer)), attempt := 0, waits := []), ok)
    {
      ClearTimeout();
      attempt, waits := 0, [];
      Open(ok);
    }

    method OnOpen(ws: nat, now: int)
      requires Valid() && P.Enabled(View(), P.SocketOpens(ws, now))
      modifies this
      ensures Valid() && View() == P.Apply(old(View()), P.SocketOpens(ws, now))
    {
      P.StepKeepsAlways(View(), P.SocketOpens(ws, now));
      sockets := sockets[ws := P.Socket(P.Opened, true)];
      if socket != Some(ws) {
        return;
      }
      Greet(now);
    }

    method Greet(now: int)
      modifies this
      ensures View() == P.Greeted(old(View()), now)
    {
      everOpened, attempt, lastHeard, waits := true, 0, now, [];
      StartPing();
    }

    method StartPing()
      modifies this`pingTimer, this`intervals, this`next
      ensures View() == old(View()).(pingTimer := Some(old(next)), intervals := old(intervals) + {old(next)}, next := old(next) + 1)
    {
      pingTimer, intervals, next := Some(next), intervals + {next}, next + 1;
    }

    method OnMessage(ws: nat, now: int, data: Option<string>)
      requires Valid() && P.Enabled(View(), P.Message(ws, now, data))
      modifies this
      ensures Valid() && View() == P.Apply(old(View()), P.Message(ws, now, data))
    {
      P.StepKeepsAlways(View(), P.Message(ws, now, data));
      lastHeard := now;
      if data.None? {
        return;
      }
      queue, received := queue + [data.value], received + [data.value];
      ScheduleFlush();
    }

    method OnClose(ws: nat)
      requires Valid() && P.Enabled(View(), P.SocketCloses(ws))
      modifies this
      ensures Valid() && View() == P.Apply(old(View()), P.SocketCloses(ws))
    {
      P.StepKeepsAlways(View(), P.SocketCloses(ws));
      sockets := sockets[ws := P.Socket(P.Closed, true)];
      if socket != Some(ws) {
        return;
      }
      LoseSocket();
    }

    method LoseSocket()
      modifies this
      ensures View() == P.ReconnectScheduled(
                          old(View()).(socket := None, intervals := old(intervals) - P.Held(old(pingTimer)), pingTimer := None))
    {
      socket := None;
      ClearInterval();
      pingTimer := None;
      if !stopped {
        ScheduleReconnect();
      }
    }

    method OnTimer(t: nat, ok: bool)
      requires Valid() && P.Enabled(View(), P.TimerFires(t, ok))
      modifies this
      ensures Valid() && View() == P.Apply(old(View()), P.TimerFires(t, ok))
    {
      P.StepKeepsAlways(View(), P.TimerFires(t, ok));
      timeouts := timeouts - {t};
      Open(ok);
    }

    /** A socket silent for too long is a zombie. */
    method OnPing(i: nat, now: int, ok: bool)
      requires Valid() && P.Enabled(View(), P.PingFires(i, now, ok))
      modifies this
      ensures Valid() && View() == P.Apply(old(View()), P.PingFires(i, now, ok))
    {
      P.StepKeepsAlways(View(), P.PingFires(i, now, ok));
      if now - lastHeard > P.SILENCE_LIMIT {
        Reopen(ok);
      }
    }

    method ScheduleFlush()
      modifies this
      ensures View() == P.FlushScheduled(old(View()))
    {
      if flushScheduled {
        return;
      }
      flushScheduled, flushes := true, flushes + 1;
    }

    method Flush() returns (batch: seq<string>)
      requires Valid() && P.Enabled(View(), P.Flush)
      modifies this
      ensures Valid() && View() == P.Apply(old(View()), P.Flush) && batch == old(queue)
    {
      P.StepKeepsAlways(View(), P.Flush);
      flushScheduled, flushes := false, flushes - 1;
      batch := queue;
      if queue == [] {
        return;
      }
      queue, batches := [], batches + [batch];
    }
  }
}
