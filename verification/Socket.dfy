/** The browser's reconnecting socket: the page's own fields, and around them the
    sockets, timers and intervals it has asked the browser for. Events come in any
    order the browser allows. */
module Socket {
  import opened Wrappers

  type Id = nat
  type RoomCode = string

  datatype Ready = Connecting | Open | ClosingNow | Closed

  // A socket the page has made. Its close event comes once, and last.
  datatype Sock = Sock(ready: Ready, room: RoomCode, wasOpened: bool, closeFired: bool)

  datatype State = State(
    room: Option<RoomCode>, socket: Option<Id>, retry: nat, connected: bool,
    retryTimer: Option<Id>, heartbeat: Option<Id>,
    sockets: map<Id, Sock>,
    timers: map<Id, real>,                 // pending, with their delay in milliseconds
    intervals: map<Id, Id>,                // running, with the socket each one pings
    next: Id)

  datatype Event =
    | Opened(socket: Id)
    | PeerClosing(socket: Id)              // no event in the page, but the state changes
    | CloseFired(socket: Id, jitter: real)
    | Failed(socket: Id)
    | TimerFired(timer: Id)
    | Ticked(interval: Id)
    | Woken                                // visible again, or back online
    | Routed(path: Option<RoomCode>)

  const INITIAL: State := State(None, None, 0, false, None, None, map[], map[], map[], 0)

  predicate Live(s: State, k: Id) { k in s.sockets && (s.sockets[k].ready.Connecting? || s.sockets[k].ready.Open?) }

  predicate IsOpen(s: State, k: Id) { k in s.sockets && s.sockets[k].ready.Open? }

  /* ── The handlers, as functions of the state ─────────────────────────── */

  // socket.close(): has no effect on a socket that is closing or closed.
  function Shut(sockets: map<Id, Sock>, k: Id): map<Id, Sock>
    requires k in sockets
  {
    if sockets[k].ready.Connecting? || sockets[k].ready.Open?
    then sockets[k := sockets[k].(ready := ClosingNow)] else sockets
  }

  function Connected(s: State): State {
    if s.room.None? || (s.socket.Some? && Live(s, s.socket.value)) then s
    else s.(sockets := s.sockets[s.next := Sock(Connecting, s.room.value, false, false)], socket := Some(s.next), next := s.next + 1)
  }

  function Left(s: State): State {
    var quiet := s.(room := None,
                    timers := if s.retryTimer.Some? then s.timers - {s.retryTimer.value} else s.timers,
                    intervals := if s.heartbeat.Some? then s.intervals - {s.heartbeat.value} else s.intervals,
                    heartbeat := None, socket := None);
    if s.socket.Some? && s.socket.value in s.sockets
    then quiet.(sockets := Shut(s.sockets, s.socket.value)) else quiet
  }

  function Entered(s: State, code: RoomCode): State { Connected(s.(room := Some(code))) }

  function MinReal(a: real, b: real): real { if a <= b then a else b }

  function Pow2(n: nat): real { if n == 0 then 1.0 else 2.0 * Pow2(n - 1) }

  function Backoff(retry: nat): real
    requires retry > 0
  {
    MinReal(1000.0 * Pow2(retry - 1), 15000.0)
  }

  function Scheduled(s: State, jitter: real): State {
    s.(retry := s.retry + 1,
       timers := (if s.retryTimer.Some? then s.timers - {s.retryTimer.value} else s.timers)
                 [s.next := Backoff(s.retry + 1) + jitter * 400.0],
       retryTimer := Some(s.next), next := s.next + 1)
  }

  function Beating(s: State, k: Id): State {
    s.(intervals := (if s.heartbeat.Some? then s.intervals - {s.heartbeat.value} else s.intervals)[s.next := k],
       heartbeat := Some(s.next), next := s.next + 1)
  }

  predicate Enabled(s: State, e: Event) {
    match e
    case Opened(k) => k in s.sockets && s.sockets[k].ready.Connecting?
    case PeerClosing(k) => IsOpen(s, k)
    case CloseFired(k, jitter) => k in s.sockets && !s.sockets[k].closeFired && 0.0 <= jitter < 1.0
    case Failed(k) => k in s.sockets && !s.sockets[k].closeFired
    case TimerFired(t) => t in s.timers
    case Ticked(i) => i in s.intervals
    case Woken => true
    case Routed(_) => true
  }

  function OnOpen(s: State, k: Id): State
    requires k in s.sockets
  {
    Beating(s.(sockets := s.sockets[k := s.sockets[k].(ready := Open, wasOpened := true)], retry := 0, connected := true), k)
  }

  function OnClose(s: State, k: Id, jitter: real): State
    requires k in s.sockets
  {
    var gone := s.(sockets := s.sockets[k := s.sockets[k].(ready := Closed, closeFired := true)]);
    if s.socket != Some(k) then gone
    else
      var lost := gone.(socket := None, connected := false);
      if s.room.None? then lost else Scheduled(lost, jitter)
  }

  function OnTick(s: State, i: Id): State
    requires i in s.intervals
  {
    if IsOpen(s, s.intervals[i]) || s.heartbeat.None? then s
    else s.(intervals := s.intervals - {s.heartbeat.value}, heartbeat := None)
  }

  function OnWake(s: State): State {
    if s.room.Some? && !s.connected then Connected(s.(retry := 0)) else s
  }

  function OnRoute(s: State, path: Option<RoomCode>): State {
    if path.Some? && path == s.room then s
    else if path.Some? then Entered(Left(s), path.value) else Left(s)
  }

  function Next(s: State, e: Event): State
    requires Enabled(s, e)
  {
    match e
    case Opened(k) => OnOpen(s, k)
    case PeerClosing(k) => s.(sockets := Shut(s.sockets, k))
    case CloseFired(k, jitter) => OnClose(s, k, jitter)
    case Failed(k) => s.(sockets := Shut(s.sockets, k))
    case TimerFired(t) => Connected(s.(timers := s.timers - {t}))
    case Ticked(i) => OnTick(s, i)
    case Woken => OnWake(s)
    case Routed(path) => OnRoute(s, path)
  }

  /* ── What every state keeps ──────────────────────────────────────────── */

  // The one socket that may be connecting or open is the page's, and is for its room.
  ghost predicate OneSocket(s: State) {
    && (forall k :: Live(s, k) ==> s.socket == Some(k) && s.room == Some(s.sockets[k].room))
    && (s.socket.Some? ==>
          s.room.Some? && s.socket.value in s.sockets && !s.sockets[s.socket.value].closeFired)
    && (forall k :: Live(s, k) ==> !s.sockets[k].closeFired)
  }

  // An open room is never given up: a socket that still has its close event to come, or
  // a pending timer.
  ghost predicate NeverStranded(s: State) {
    s.room.Some? && s.socket.None? ==>
      s.retryTimer.Some? && s.retryTimer.value in s.timers && !s.connected
  }

  // Nothing is left running that the page does not know, or without an open room.
  ghost predicate NothingLeaks(s: State) {
    && (forall t :: t in s.timers ==> s.retryTimer == Some(t) && s.room.Some?)
    && (forall i :: i in s.intervals ==> s.heartbeat == Some(i) && s.room.Some?)
    && (s.heartbeat.Some? ==> s.heartbeat.value in s.intervals)
    && (forall t :: t in s.timers ==> 1000.0 <= s.timers[t] < 15400.0)
  }

  // Ids are handed out once.
  ghost predicate IdsAreNew(s: State) {
    && (forall k :: k in s.sockets ==> k < s.next)
    && (forall t :: t in s.timers ==> t < s.next)
    && (forall i :: i in s.intervals ==> i < s.next)
  }

  ghost predicate Inv(s: State) { OneSocket(s) && NeverStranded(s) && NothingLeaks(s) && IdsAreNew(s) }

  lemma StartKeeps()
    ensures Inv(INITIAL)
  {
  }

  lemma {:induction false} BackoffIsBounded(retry: nat)
    requires retry > 0
    ensures Backoff(1) == 1000.0 <= Backoff(retry) <= 15000.0
    ensures Backoff(retry) <= Backoff(retry + 1)
    ensures retry >= 5 ==> Backoff(retry) == 15000.0
    ensures retry < 5 ==> Backoff(retry + 1) == MinReal(2.0 * Backoff(retry), 15000.0)
  {
    if retry > 1 {
      BackoffIsBounded(retry - 1);
    }
  }

  lemma ConnectedKeeps(s: State)
    requires OneSocket(s) && NothingLeaks(s) && IdsAreNew(s)
    ensures Inv(Connected(s))
    ensures s.room.Some? ==> Connected(s).socket.Some? && Live(Connected(s), Connected(s).socket.value)
  {
  }

  lemma ScheduledKeeps(s: State, jitter: real)
    requires OneSocket(s) && NothingLeaks(s) && IdsAreNew(s)
    requires s.room.Some? && s.socket.None? && !s.connected && 0.0 <= jitter < 1.0
    ensures Inv(Scheduled(s, jitter))
  {
    BackoffIsBounded(s.retry + 1);
  }

  lemma LeftKeeps(s: State)
    requires Inv(s)
    ensures Inv(Left(s)) && Left(s).socket.None? && Left(s).timers == map[] && Left(s).intervals == map[]
    ensures forall k :: !Live(Left(s), k)
  {
  }

  lemma OnCloseKeeps(s: State, k: Id, jitter: real)
    requires Inv(s) && Enabled(s, CloseFired(k, jitter))
    ensures Inv(OnClose(s, k, jitter))
  {
    var gone := s.(sockets := s.sockets[k := s.sockets[k].(ready := Closed, closeFired := true)]);
    if s.socket == Some(k) {
      ScheduledKeeps(gone.(socket := None, connected := false), jitter);
    }
  }

  lemma OnOpenKeeps(s: State, k: Id)
    requires Inv(s) && Enabled(s, Opened(k))
    ensures Inv(OnOpen(s, k))
  {
    assert Live(s, k);
  }

  lemma ShutKeeps(s: State, k: Id)
    requires Inv(s) && k in s.sockets
    ensures Inv(s.(sockets := Shut(s.sockets, k)))
  {
  }

  lemma OnRouteKeeps(s: State, path: Option<RoomCode>)
    requires Inv(s)
    ensures Inv(OnRoute(s, path))
    ensures OnRoute(s, path).room == path
  {
    LeftKeeps(s);
    if path.Some? && path != s.room {
      ConnectedKeeps(Left(s).(room := path));
    }
  }

  lemma StepKeeps(s: State, e: Event)
    requires Inv(s) && Enabled(s, e)
    ensures Inv(Next(s, e))
  {
    match e
    case Opened(k) => OnOpenKeeps(s, k);
    case PeerClosing(k) => ShutKeeps(s, k);
    case CloseFired(k, jitter) => OnCloseKeeps(s, k, jitter);
    case Failed(k) => ShutKeeps(s, k);
    case TimerFired(t) => ConnectedKeeps(s.(timers := s.timers - {t}));
    case Ticked(i) =>
    case Woken => ConnectedKeeps(s.(retry := 0));
    case Routed(path) => OnRouteKeeps(s, path);
  }

  predicate Runs(s: State, events: seq<Event>)
    decreases |events|
  {
    events == [] || (Enabled(s, events[0]) && Runs(Next(s, events[0]), events[1..]))
  }

  function After(s: State, events: seq<Event>): State
    requires Runs(s, events)
    decreases |events|
  {
    if events == [] then s else After(Next(s, events[0]), events[1..])
  }

  lemma {:induction false} RunKeeps(s: State, events: seq<Event>)
    requires Inv(s) && Runs(s, events)
    ensures Inv(After(s, events))
    decreases |events|
  {
    if events != [] {
      StepKeeps(s, events[0]);
      RunKeeps(Next(s, events[0]), events[1..]);
    }
  }

  /* ── Over any order of events ────────────────────────────────────────── */

  // At most one socket is connecting or open, and it is the page's, for the room that is
  // open; so whatever message arrives is for that room.
  lemma OneSocketForTheOpenRoom(events: seq<Event>, k: Id)
    requires Runs(INITIAL, events) && Live(After(INITIAL, events), k)
    ensures var s := After(INITIAL, events);
      s.socket == Some(k) && s.room == Some(s.sockets[k].room)
  {
    StartKeeps();
    RunKeeps(INITIAL, events);
  }

  // While a room is open there is always a live socket, or the close event of the current
  // one is still to come, or a reconnect is pending within 15.4 seconds; and in the last
  // case the page knows that it is not connected.
  lemma OpenRoomIsNeverStranded(events: seq<Event>)
    requires Runs(INITIAL, events) && After(INITIAL, events).room.Some?
    ensures var s := After(INITIAL, events);
      || (s.socket.Some? && Live(s, s.socket.value))
      || (s.socket.Some? && s.socket.value in s.sockets && !s.sockets[s.socket.value].closeFired)
      || (s.retryTimer.Some? && s.retryTimer.value in s.timers
          && 1000.0 <= s.timers[s.retryTimer.value] < 15400.0 && !s.connected)
  {
    StartKeeps();
    RunKeeps(INITIAL, events);
  }

  // Without an open room nothing is live and nothing is pending.
  lemma ClosedRoomIsQuiet(events: seq<Event>)
    requires Runs(INITIAL, events) && After(INITIAL, events).room.None?
    ensures var s := After(INITIAL, events);
      s.timers == map[] && s.intervals == map[] && s.socket.None? && forall k :: !Live(s, k)
  {
    StartKeeps();
    RunKeeps(INITIAL, events);
    var s := After(INITIAL, events);
    assert s.timers.Keys == {} && s.intervals.Keys == {};
  }

  // What is still to come for an open room without a live socket: the close event of its
  // socket, and then its timer.
  function Pending(s: State, jitter: real): seq<Event> {
    if s.room.None? then []
    else if s.socket.Some? then
      if Live(s, s.socket.value) then [] else [CloseFired(s.socket.value, jitter), TimerFired(s.next)]
    else if s.retryTimer.Some? then [TimerFired(s.retryTimer.value)] else []
  }

  // After any run, when what is still to come does come, the room has a live socket.
  lemma WhatIsPendingReconnects(events: seq<Event>, jitter: real)
    requires Runs(INITIAL, events) && After(INITIAL, events).room.Some? && 0.0 <= jitter < 1.0
    ensures var s := After(INITIAL, events);
      && Runs(s, Pending(s, jitter))
      && var n := After(s, Pending(s, jitter));
         n.room == s.room && n.socket.Some? && Live(n, n.socket.value)
  {
    StartKeeps();
    RunKeeps(INITIAL, events);
    var s := After(INITIAL, events);
    if s.socket.None? {
      OneEvent(s, TimerFired(s.retryTimer.value));
    } else if !Live(s, s.socket.value) {
      var closed := CloseFired(s.socket.value, jitter);
      StepKeeps(s, closed);
      OneEvent(Next(s, closed), TimerFired(s.next));
      assert Pending(s, jitter)[1..] == [TimerFired(s.next)];
    }
  }

  lemma OneFirst(s: State, e: Event, rest: seq<Event>)
    requires Enabled(s, e) && Runs(Next(s, e), rest)
    ensures Runs(s, [e] + rest) && After(s, [e] + rest) == After(Next(s, e), rest)
  {
    assert ([e] + rest)[1..] == rest;
  }

  lemma OneEvent(s: State, e: Event)
    requires Enabled(s, e)
    ensures Runs(s, [e]) && After(s, [e]) == Next(s, e)
  {
    assert [e][1..] == [];
  }

  /* ── Backing off ─────────────────────────────────────────────────────── */

  lemma {:induction false} RunSplits(s: State, a: seq<Event>, b: seq<Event>)
    requires Runs(s, a + b)
    ensures Runs(s, a) && Runs(After(s, a), b) && After(s, a + b) == After(After(s, a), b)
    decreases |a|
  {
    if a == [] {
      assert a + b == b;
    } else {
      assert (a + b)[1..] == a[1..] + b;
      RunSplits(Next(s, a[0]), a[1..], b);
    }
  }

  // The state in which event j came.
  ghost function Before(events: seq<Event>, j: nat): State
    requires Runs(INITIAL, events) && j <= |events|
  {
    assert events[..j] + events[j..] == events;
    RunSplits(INITIAL, events[..j], events[j..]);
    After(INITIAL, events[..j])
  }

  // The page's socket closes while a room is open.
  predicate Loses(s: State, e: Event) { e.CloseFired? && s.socket == Some(e.socket) && s.room.Some? }

  // A socket opens, or waking up reconnects.
  predicate Resets(s: State, e: Event) { e.Opened? || (e.Woken? && s.room.Some? && !s.connected) }

  ghost predicate LostAt(events: seq<Event>, j: nat)
    requires Runs(INITIAL, events)
  {
    j < |events| && Loses(Before(events, j), events[j])
  }

  ghost predicate ResetAt(events: seq<Event>, j: nat)
    requires Runs(INITIAL, events)
  {
    j < |events| && Resets(Before(events, j), events[j])
  }

  ghost predicate Counted(events: seq<Event>, j: nat)
    requires Runs(INITIAL, events)
  {
    LostAt(events, j) && forall i :: j < i < |events| ==> !ResetAt(events, i)
  }

  // The losses since a socket last opened, or waking up last reconnected.
  ghost function LossesSince(events: seq<Event>): set<nat>
    requires Runs(INITIAL, events)
  {
    set j: nat | j < |events| && Counted(events, j)
  }

  lemma OneMoreEvent(events: seq<Event>, last: Event)
    requires Runs(INITIAL, events + [last])
    ensures Runs(INITIAL, events) && Enabled(After(INITIAL, events), last)
    ensures After(INITIAL, events + [last]) == Next(After(INITIAL, events), last)
    ensures Before(events + [last], |events|) == After(INITIAL, events)
  {
    RunSplits(INITIAL, events, [last]);
    assert [last][1..] == [];
    assert (events + [last])[..|events|] == events;
  }

  lemma SameBefore(events: seq<Event>, last: Event, j: nat)
    requires Runs(INITIAL, events) && Runs(INITIAL, events + [last]) && j < |events|
    ensures LostAt(events + [last], j) <==> LostAt(events, j)
    ensures ResetAt(events + [last], j) <==> ResetAt(events, j)
  {
    assert (events + [last])[..j] == events[..j];
  }

  lemma CountedBefore(events: seq<Event>, last: Event, j: nat)
    requires Runs(INITIAL, events) && Runs(INITIAL, events + [last]) && j < |events|
    ensures Counted(events + [last], j) <==> Counted(events, j) && !Resets(After(INITIAL, events), last)
  {
    OneMoreEvent(events, last);
    forall i | j <= i < |events|
      ensures (LostAt(events + [last], i) <==> LostAt(events, i)) && (ResetAt(events + [last], i) <==> ResetAt(events, i))
    {
      SameBefore(events, last, i);
    }
    assert ResetAt(events + [last], |events|) <==> Resets(After(INITIAL, events), last);
  }

  lemma CountedLast(events: seq<Event>, last: Event)
    requires Runs(INITIAL, events) && Runs(INITIAL, events + [last])
    ensures Counted(events + [last], |events|) <==> Loses(After(INITIAL, events), last)
  {
    OneMoreEvent(events, last);
  }

  lemma OneMoreLoss(events: seq<Event>, last: Event)
    requires Runs(INITIAL, events) && Runs(INITIAL, events + [last])
    ensures var s := After(INITIAL, events);
      LossesSince(events + [last]) ==
        if Resets(s, last) then {} else LossesSince(events) + (if Loses(s, last) then {|events|} else {})
  {
    CountedLast(events, last);
    forall j: nat | j < |events|
      ensures Counted(events + [last], j) <==> Counted(events, j) && !Resets(After(INITIAL, events), last)
    {
      CountedBefore(events, last, j);
    }
  }

  lemma RetryStep(s: State, e: Event)
    requires Enabled(s, e)
    ensures Next(s, e).retry == if Resets(s, e) then 0 else s.retry + (if Loses(s, e) then 1 else 0)
  {
  }

  // After any run the page has counted just these.
  lemma {:induction false} RetryCountsLosses(events: seq<Event>)
    requires Runs(INITIAL, events)
    ensures After(INITIAL, events).retry == |LossesSince(events)|
    decreases |events|
  {
    if events == [] {
      assert LossesSince(events) == {};
    } else {
      var before, last := events[..|events| - 1], events[|events| - 1];
      assert before + [last] == events;
      OneMoreEvent(before, last);
      RetryCountsLosses(before);
      OneMoreLoss(before, last);
      RetryStep(After(INITIAL, before), last);
    }
  }

  // One second after the first loss, doubling up to fifteen.
  function DelayAfter(losses: nat): real {
    match losses
    case 0 => 0.0
    case 1 => 1000.0
    case 2 => 2000.0
    case 3 => 4000.0
    case 4 => 8000.0
    case _ => 15000.0
  }

  lemma BackoffIsDelay(n: nat)
    requires n > 0
    ensures Backoff(n) == DelayAfter(n)
  {
    BackoffIsBounded(n);
    assert Pow2(1) == 2.0 && Pow2(2) == 4.0 && Pow2(3) == 8.0;
  }

  // After any run: when the page loses its socket the one timer left waits by the number of
  // losses since a socket last opened or waking up last reconnected, plus the jitter.
  lemma LossesSetTheDelay(events: seq<Event>, k: Id, jitter: real)
    requires Runs(INITIAL, events) && Enabled(After(INITIAL, events), CloseFired(k, jitter))
    requires Loses(After(INITIAL, events), CloseFired(k, jitter))
    ensures var n := Next(After(INITIAL, events), CloseFired(k, jitter));
      && n.retryTimer.Some?
      && n.timers == map[n.retryTimer.value := DelayAfter(|LossesSince(events)| + 1) + jitter * 400.0]
  {
    StartKeeps();
    RunKeeps(INITIAL, events);
    RetryCountsLosses(events);
    BackoffIsDelay(|LossesSince(events)| + 1);
    StepKeeps(After(INITIAL, events), CloseFired(k, jitter));
  }

  // So the first loss after a socket has opened is retried within 1.4 seconds, however many
  // attempts had failed before.
  lemma FirstLossIsRetriedSoon(events: seq<Event>, j: nat, k: Id, jitter: real)
    requires Runs(INITIAL, events) && Enabled(After(INITIAL, events), CloseFired(k, jitter))
    requires Loses(After(INITIAL, events), CloseFired(k, jitter))
    requires j < |events| && events[j].Opened? && forall i :: j < i < |events| ==> !LostAt(events, i)
    ensures var n := Next(After(INITIAL, events), CloseFired(k, jitter));
      n.retryTimer.Some? && n.retryTimer.value in n.timers && 1000.0 <= n.timers[n.retryTimer.value] < 1400.0
  {
    LossesSetTheDelay(events, k, jitter);
    assert ResetAt(events, j);
    assert !LostAt(events, j);
    assert LossesSince(events) == {};
  }

  /* ── The heartbeat ───────────────────────────────────────────────────── */

  // After any run: a socket that opens has the only heartbeat, and a beat that finds its
  // socket no longer open is the last.
  lemma OneHeartbeat(events: seq<Event>, e: Event)
    requires Runs(INITIAL, events) && Enabled(After(INITIAL, events), e)
    ensures var s := After(INITIAL, events);
      var n := Next(s, e);
      && (e.Opened? ==> n.heartbeat.Some? && n.intervals == map[n.heartbeat.value := e.socket])
      && (e.Ticked? ==> n == if IsOpen(s, s.intervals[e.interval]) then s else s.(intervals := map[], heartbeat := None))
  {
    StartKeeps();
    RunKeeps(INITIAL, events);
    var s := After(INITIAL, events);
    if e.Opened? {
      assert (if s.heartbeat.Some? then s.intervals - {s.heartbeat.value} else s.intervals) == map[];
    } else if e.Ticked? {
      assert s.intervals - {s.heartbeat.value} == map[];
    }
  }

  /* ── The connected flag ──────────────────────────────────────────────── */

  // The flag is set exactly while the page's socket is one that was opened.
  predicate Truthful(s: State) {
    s.connected <==> s.socket.Some? && s.socket.value in s.sockets && s.sockets[s.socket.value].wasOpened
  }

  // Leaving a room while connected; or a timer, left over from before this connection
  // was made, that replaces a socket on its way down.
  predicate Misleads(s: State, e: Event) {
    s.connected &&
    match e
    case Routed(path) => path.None? || path != s.room
    case TimerFired(_) => s.socket.Some? && !Live(s, s.socket.value)
    case _ => false
  }

  // These are exactly the events that leave the flag wrong.
  lemma TruthStep(s: State, e: Event)
    requires Inv(s) && Truthful(s) && Enabled(s, e)
    ensures Truthful(Next(s, e)) <==> !Misleads(s, e)
  {
  }

  predicate SomeMisleads(s: State, events: seq<Event>)
    requires Runs(s, events)
    decreases |events|
  {
    events != [] && (Misleads(s, events[0]) || SomeMisleads(Next(s, events[0]), events[1..]))
  }

  lemma {:induction false} RunKeepsTruth(s: State, events: seq<Event>)
    requires Inv(s) && Truthful(s) && Runs(s, events) && !SomeMisleads(s, events)
    ensures Truthful(After(s, events))
    decreases |events|
  {
    if events != [] {
      TruthStep(s, events[0]);
      StepKeeps(s, events[0]);
      RunKeepsTruth(Next(s, events[0]), events[1..]);
    }
  }

  // Over any order of events without those, the flag is right.
  lemma FlagIsTruthful(events: seq<Event>)
    requires Runs(INITIAL, events) && !SomeMisleads(INITIAL, events)
    ensures Truthful(After(INITIAL, events))
  {
    StartKeeps();
    RunKeepsTruth(INITIAL, events);
  }

  // After any run, waking up in an open room ends with a live socket if and only if there
  // was one, or the flag was down; and with no socket at all the flag is always down.
  lemma WakingReconnects(events: seq<Event>)
    requires Runs(INITIAL, events) && After(INITIAL, events).room.Some?
    ensures var s := After(INITIAL, events);
      var n := Next(s, Woken);
      && ((n.socket.Some? && Live(n, n.socket.value)) <==> ((s.socket.Some? && Live(s, s.socket.value)) || !s.connected))
      && (s.socket.None? ==> !s.connected)
  {
    StartKeeps();
    RunKeeps(INITIAL, events);
  }

  // So a flag left wrong does keep the page from reconnecting when it wakes: it enters
  // another room, the new socket fails, and until its close event comes waking does nothing.
  lemma WrongFlagDelaysReconnecting(a: RoomCode, b: RoomCode)
    requires a != b
    ensures var events := [Routed(Some(a)), Opened(0), Routed(Some(b)), Failed(2)];
      && Runs(INITIAL, events)
      && var s := After(INITIAL, events);
         && !Truthful(s) && s.room == Some(b) && s.socket.Some? && !Live(s, s.socket.value)
         && Next(s, Woken) == s
         && var n := Next(s.(connected := false), Woken); n.socket.Some? && Live(n, n.socket.value)
  {
    var s1 := Next(INITIAL, Routed(Some(a)));
    var s2 := Next(s1, Opened(0));
    var s3 := Next(s2, Routed(Some(b)));
    OneEvent(s3, Failed(2));
    OneFirst(s2, Routed(Some(b)), [Failed(2)]);
    OneFirst(s1, Opened(0), [Routed(Some(b))] + [Failed(2)]);
    OneFirst(INITIAL, Routed(Some(a)), [Opened(0)] + ([Routed(Some(b))] + [Failed(2)]));
    assert [Routed(Some(a))] + ([Opened(0)] + ([Routed(Some(b))] + [Failed(2)]))
      == [Routed(Some(a)), Opened(0), Routed(Some(b)), Failed(2)];
  }

  // A timer can mislead too: woken before it fires, the page is connected again; when that
  // connection starts to go down, the old timer replaces it and the flag stays set.
  lemma LeftoverTimerMisleads(a: RoomCode)
    ensures var events := [Routed(Some(a)), CloseFired(0, 0.0), Woken, Opened(2), Failed(2), TimerFired(1)];
      Runs(INITIAL, events) && After(INITIAL, events).room == Some(a) && !Truthful(After(INITIAL, events))
  {
    var s1 := Next(INITIAL, Routed(Some(a)));
    var s2 := Next(s1, CloseFired(0, 0.0));
    var s3 := Next(s2, Woken);
    var s4 := Next(s3, Opened(2));
    var s5 := Next(s4, Failed(2));
    OneEvent(s5, TimerFired(1));
    OneFirst(s4, Failed(2), [TimerFired(1)]);
    OneFirst(s3, Opened(2), [Failed(2)] + [TimerFired(1)]);
    OneFirst(s2, Woken, [Opened(2)] + ([Failed(2)] + [TimerFired(1)]));
    OneFirst(s1, CloseFired(0, 0.0), [Woken] + ([Opened(2)] + ([Failed(2)] + [TimerFired(1)])));
    var rest := [CloseFired(0, 0.0)] + ([Woken] + ([Opened(2)] + ([Failed(2)] + [TimerFired(1)])));
    OneFirst(INITIAL, Routed(Some(a)), rest);
    assert [Routed(Some(a))] + rest
      == [Routed(Some(a)), CloseFired(0, 0.0), Woken, Opened(2), Failed(2), TimerFired(1)];
  }

  /* ── The page ────────────────────────────────────────────────────────── */

  class Page {
    var room: Option<RoomCode>
    var socket: Option<Id>
    var retry: nat
    var connected: bool
    var retryTimer: Option<Id>
    var heartbeat: Option<Id>

    // The browser's side.
    var sockets: map<Id, Sock>
    var timers: map<Id, real>
    var intervals: map<Id, Id>
    var next: Id

    function View(): State
      reads this
    {
      State(room, socket, retry, connected, retryTimer, heartbeat, sockets, timers, intervals, next)
    }

    constructor ()
      ensures View() == INITIAL
    {
      room, socket, retry, connected, retryTimer, heartbeat := None, None, 0, false, None, None;
      sockets, timers, intervals, next := map[], map[], map[], 0;
    }

    method Connect()
      modifies this
      ensures View() == Connected(old(View()))
    {
      if room.None? {
        return;
      }
      if socket.Some? && Live(View(), socket.value) {
        return;
      }
      sockets := sockets[next := Sock(Connecting, room.value, false, false)];
      socket := Some(next);
      next := next + 1;
    }

    method CloseRoom()
      modifies this
      ensures View() == Left(old(View()))
    {
      room := None;
      if retryTimer.Some? {
        timers := timers - {retryTimer.value};
      }
      if heartbeat.Some? {
        intervals := intervals - {heartbeat.value};
        heartbeat := None;
      }
      if socket.Some? {
        var k := socket.value;
        socket := None;
        if k in sockets {
          sockets := Shut(sockets, k);
        }
      }
    }

    method OpenRoom(code: RoomCode)
      modifies this
      ensures View() == Entered(old(View()), code)
    {
      room := Some(code);
      Connect();
    }

    method Route(path: Option<RoomCode>)
      modifies this
      ensures View() == OnRoute(old(View()), path)
    {
      if path.Some? && path == room {
        return;
      }
      CloseRoom();
      if path.Some? {
        OpenRoom(path.value);
      }
    }

    method ScheduleReconnect(jitter: real)
      modifies this
      ensures View() == Scheduled(old(View()), jitter)
    {
      retry := retry + 1;
      var delay := Backoff(retry) + jitter * 400.0;
      if retryTimer.Some? {
        timers := timers - {retryTimer.value};
      }
      timers := timers[next := delay];
      retryTimer := Some(next);
      next := next + 1;
    }

    method StartHeartbeat(k: Id)
      modifies this
      ensures View() == Beating(old(View()), k)
    {
      if heartbeat.Some? {
        intervals := intervals - {heartbeat.value};
      }
      intervals := intervals[next := k];
      heartbeat := Some(next);
      next := next + 1;
    }

    // The browser changes the socket's state, and then calls the page.
    method HandleOpen(k: Id)
      requires Enabled(View(), Opened(k))
      modifies this
      ensures View() == Next(old(View()), Opened(k))
    {
      sockets := sockets[k := sockets[k].(ready := Open, wasOpened := true)];
      retry := 0;
      connected := true;
      StartHeartbeat(k);
    }

    method HandleClose(k: Id, jitter: real)
      requires Enabled(View(), CloseFired(k, jitter))
      modifies this
      ensures View() == Next(old(View()), CloseFired(k, jitter))
    {
      sockets := sockets[k := sockets[k].(ready := Closed, closeFired := true)];
      if socket != Some(k) {
        return; // another socket has taken its place
      }
      socket := None;
      connected := false;
      if room.None? {
        return;
      }
      ScheduleReconnect(jitter);
    }

    // A ping goes out only on an open socket; otherwise the beat stops itself.
    method Tick(i: Id) returns (ping: Option<Id>)
      requires Enabled(View(), Ticked(i))
      modifies this
      ensures View() == Next(old(View()), Ticked(i))
      ensures ping == if IsOpen(old(View()), old(intervals)[i]) then Some(old(intervals)[i]) else None
    {
      ping := None;
      if !IsOpen(View(), intervals[i]) {
        if heartbeat.Some? {
          intervals := intervals - {heartbeat.value};
        }
        heartbeat := None;
        return;
      }
      ping := Some(intervals[i]);
    }

    method Wake()
      modifies this
      ensures View() == Next(old(View()), Woken)
    {
      if room.Some? && !connected {
        retry := 0;
        Connect();
      }
    }
  }
}
