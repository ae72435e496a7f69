/** Presence between two instances, with time. One instance announces who is in a
    room whenever that changes and again at every heartbeat; the bus keeps order; the
    other instance trusts an announcement for a limited time and sweeps what has
    expired. The list is computed first and published later, by any of many tasks, so
    lists may be published in another order than they were computed in. */
module Presence {
  import opened Wrappers
  import opened Hub

  const HEARTBEAT: int := 30 * SECOND

  // An announcement: the list, and when it was computed. The era counts how often the
  // room had become occupied or empty at the announcer by then.
  datatype Announcement = Announcement(peers: seq<Peer>, made: int, era: nat)

  // The pair under study, and the longest an announcement may take from its list being
  // computed to its arrival.
  datatype Link = Link(room: RoomCode, announcer: InstanceId, delay: nat)

  datatype State = State(
    now: int,
    alive: bool, crashedAt: int,           // the announcing instance
    peers: seq<Peer>, era: nat,            // its clients in the room,
    since: int,                            // and when it last became occupied or empty
    lastTick: int,
    lists: seq<Announcement>,              // all it has computed, in order,
    pending: set<nat>,                     // those still to be published,
    trail: seq<nat>,                       // those published, in that order,
    delivered: nat,                        // how many of these have arrived,
    receivedAt: int,                       // and when the last one did
    remote: Remote, lastSweep: int)        // the receiving instance

  datatype Step =
    | Pass(time: nat)
    | Join(peer: Peer)
    | Leave(index: nat)
    | Compute                              // on a presence change, or a refresh
    | Tick                                 // the announcer's heartbeat
    | Publish(list: nat)
    | Deliver
    | Other(room: RoomCode, instance: InstanceId, peers: seq<Peer>)
    | Sweep                                // the receiver's heartbeat
    | Crash

  function Initial(now: int): State {
    State(now, true, now, [], 0, now, now, [], {}, [], 0, now, map[], now)
  }

  function Without(peers: seq<Peer>, index: nat): seq<Peer>
    requires index < |peers|
  {
    peers[..index] + peers[index + 1..]
  }

  predicate IdsOk(s: State) {
    && s.delivered <= |s.trail|
    && (forall i :: i in s.pending ==> i < |s.lists|)
    && (forall k :: 0 <= k < |s.trail| ==> s.trail[k] < |s.lists|)
  }

  // The k-th announcement to be published.
  function Published(s: State, k: nat): Announcement
    requires IdsOk(s) && k < |s.trail|
  {
    s.lists[s.trail[k]]
  }

  // By that time everything that is due has arrived.
  predicate Punctual(l: Link, s: State, now: int)
    requires IdsOk(s)
  {
    && (forall i :: i in s.pending ==> now <= s.lists[i].made + l.delay)
    && (forall k :: s.delivered <= k < |s.trail| ==> now <= s.lists[s.trail[k]].made + l.delay)
  }

  predicate Enabled(l: Link, s: State, step: Step) {
    IdsOk(s) &&
    match step
    case Pass(time) =>
      && (s.alive ==> s.now + time <= s.lastTick + HEARTBEAT)
      && Punctual(l, s, s.now + time)
      && s.now + time <= s.lastSweep + HEARTBEAT
    case Leave(index) => s.alive && index < |s.peers|
    case Publish(i) => i in s.pending
    case Deliver => s.delivered < |s.trail|
    case Other(room, instance, _) => room != l.room || instance != l.announcer
    case Sweep => true
    case _ => s.alive
  }

  function Computed(s: State): State {
    s.(lists := s.lists + [Announcement(s.peers, s.now, s.era)], pending := s.pending + {|s.lists|})
  }

  function Occupy(s: State, peers: seq<Peer>): State {
    if (peers == []) == (s.peers == []) then s.(peers := peers)
    else s.(peers := peers, era := s.era + 1, since := s.now)
  }

  function Next(l: Link, s: State, step: Step): State
    requires Enabled(l, s, step)
  {
    match step
    case Pass(time) => s.(now := s.now + time)
    case Join(peer) => Occupy(s, s.peers + [peer])
    case Leave(index) => Occupy(s, Without(s.peers, index))
    case Compute => Computed(s)
    case Tick => (if s.peers == [] then s else Computed(s)).(lastTick := s.now)
    case Publish(i) => s.(pending := s.pending - {i}, trail := s.trail + [i])
    case Deliver =>
      s.(delivered := s.delivered + 1, receivedAt := s.now,
         remote := SetRemote(s.remote, l.room, l.announcer, Published(s, s.delivered).peers, s.now))
    case Other(room, instance, peers) => s.(remote := SetRemote(s.remote, room, instance, peers, s.now))
    case Sweep => s.(remote := DropStale(s.remote, s.now), lastSweep := s.now)
    case Crash => s.(alive := false, crashedAt := s.now, pending := {})
  }

  predicate Runs(l: Link, s: State, steps: seq<Step>)
    decreases |steps|
  {
    steps == [] || (Enabled(l, s, steps[0]) && Runs(l, Next(l, s, steps[0]), steps[1..]))
  }

  function After(l: Link, s: State, steps: seq<Step>): State
    requires Runs(l, s, steps)
    decreases |steps|
  {
    if steps == [] then s else After(l, Next(l, s, steps[0]), steps[1..])
  }

  /* ── What every state keeps ──────────────────────────────────────────── */

  // One list and the next one computed after it.
  predicate Follows(a: Announcement, b: Announcement) {
    && a.made <= b.made && a.era <= b.era
    && (a.era == b.era && a.peers != [] ==> b.made <= a.made + HEARTBEAT)
  }

  predicate Known(s: State, a: Announcement) {
    && a.made <= s.now && a.era <= s.era
    && (a.era == s.era ==> (a.peers == [] <==> s.peers == []))
    && (!s.alive ==> a.made <= s.crashedAt)
  }

  // The most recent list was computed while the room was occupied as it is now.
  predicate Current(s: State) { s.lists != [] && s.lists[|s.lists| - 1].era == s.era }

  ghost predicate ListsInv(s: State) {
    && (forall k :: 0 <= k < |s.lists| ==> Known(s, s.lists[k]))
    && (forall j, k :: 0 <= j < |s.lists| && k == j + 1 < |s.lists| ==> Follows(s.lists[j], s.lists[k]))
  }

  ghost predicate ClockInv(l: Link, s: State) {
    && IdsOk(s) && Punctual(l, s, s.now)
    && s.lastTick <= s.now && s.lastSweep <= s.now <= s.lastSweep + HEARTBEAT
    && (s.alive ==> s.now <= s.lastTick + HEARTBEAT)
    && (!s.alive ==> s.crashedAt <= s.now)
    && (s.alive && s.peers != [] && Current(s) ==> s.lastTick <= s.lists[|s.lists| - 1].made)
  }

  // A list that is computed is pending until it is published, unless the instance crashes.
  ghost predicate NothingIsLost(s: State) {
    s.alive ==> forall i :: 0 <= i < |s.lists| ==> i in s.pending || i in s.trail
  }

  function Entry(l: Link, s: State): Option<RemoteEntry> { EntryOf(s.remote, l.room, l.announcer) }

  predicate IsListed(l: Link, s: State) { Entry(l, s).Some? && IsFresh(Entry(l, s).value, s.now) }

  function Last(s: State): Announcement
    requires IdsOk(s) && 0 < s.delivered
  {
    Published(s, s.delivered - 1)
  }

  // The entry is what was last delivered, unless it had expired and was swept.
  ghost predicate EntryInv(l: Link, s: State) {
    IdsOk(s) &&
    if s.delivered == 0 then Entry(l, s).None?
    else
      && Last(s).made <= s.receivedAt <= s.now && s.receivedAt <= Last(s).made + l.delay
      && (Last(s).peers == [] ==> Entry(l, s).None?)
      && (Last(s).peers != [] ==>
            Entry(l, s) == Some(RemoteEntry(Last(s).peers, s.receivedAt))
            || (Entry(l, s).None? && s.receivedAt < s.lastSweep - REMOTE_TTL))
      && (Entry(l, s).Some? ==> s.receivedAt >= s.lastSweep - REMOTE_TTL)
  }

  ghost predicate Inv(l: Link, s: State) {
    ListsInv(s) && ClockInv(l, s) && NothingIsLost(s) && EntryInv(l, s)
  }

  lemma StartKeeps(l: Link, now: int)
    ensures Inv(l, Initial(now))
  {
  }

  lemma PassKeeps(l: Link, s: State, time: nat)
    requires Inv(l, s) && Enabled(l, s, Pass(time))
    ensures Inv(l, Next(l, s, Pass(time)))
  {
  }

  lemma OccupyKeepsLists(l: Link, s: State, peers: seq<Peer>)
    requires Inv(l, s) && s.alive
    ensures ListsInv(Occupy(s, peers)) && NothingIsLost(Occupy(s, peers))
  {
    var t := Occupy(s, peers);
    forall k | 0 <= k < |t.lists| ensures Known(t, t.lists[k]) {
      assert Known(s, s.lists[k]);
    }
  }

  lemma OccupyKeepsClock(l: Link, s: State, peers: seq<Peer>)
    requires ListsInv(s) && ClockInv(l, s) && s.alive
    ensures ClockInv(l, Occupy(s, peers))
  {
    if s.lists != [] {
      assert Known(s, s.lists[|s.lists| - 1]);
    }
  }

  lemma OccupyKeeps(l: Link, s: State, peers: seq<Peer>)
    requires Inv(l, s) && s.alive
    ensures Inv(l, Occupy(s, peers))
  {
    OccupyKeepsLists(l, s, peers);
    OccupyKeepsClock(l, s, peers);
  }

  lemma ComputedKeepsLists(l: Link, s: State)
    requires Inv(l, s) && s.alive
    ensures ListsInv(Computed(s)) && NothingIsLost(Computed(s))
  {
    var last := Announcement(s.peers, s.now, s.era);
    if s.lists != [] {
      assert Known(s, s.lists[|s.lists| - 1]);
      assert Follows(s.lists[|s.lists| - 1], last);
    }
  }

  lemma ComputedKeeps(l: Link, s: State)
    requires Inv(l, s) && s.alive
    ensures Inv(l, Computed(s))
  {
    ComputedKeepsLists(l, s);
  }

  lemma TickKeeps(l: Link, s: State)
    requires Inv(l, s) && s.alive
    ensures Inv(l, Next(l, s, Tick))
  {
    if s.peers != [] {
      ComputedKeeps(l, s);
    }
  }

  lemma PublishLosesNothing(l: Link, s: State, i: nat)
    requires Inv(l, s) && Enabled(l, s, Publish(i))
    ensures NothingIsLost(Next(l, s, Publish(i)))
  {
    var t := Next(l, s, Publish(i));
    forall j | 0 <= j < |t.lists| && t.alive ensures j in t.pending || j in t.trail {
      assert j in s.pending || j in s.trail;
      assert t.trail[|s.trail|] == i;
    }
  }

  lemma PublishKeepsClock(l: Link, s: State, i: nat)
    requires ClockInv(l, s) && Enabled(l, s, Publish(i))
    ensures ClockInv(l, Next(l, s, Publish(i)))
  {
  }

  lemma PublishKeeps(l: Link, s: State, i: nat)
    requires Inv(l, s) && Enabled(l, s, Publish(i))
    ensures Inv(l, Next(l, s, Publish(i)))
  {
    PublishLosesNothing(l, s, i);
    PublishKeepsClock(l, s, i);
    var t := Next(l, s, Publish(i));
    assert forall k :: 0 <= k < s.delivered ==> Published(t, k) == Published(s, k);
  }

  lemma DeliverKeeps(l: Link, s: State)
    requires Inv(l, s) && Enabled(l, s, Deliver)
    ensures Inv(l, Next(l, s, Deliver))
  {
    assert Known(s, Published(s, s.delivered));
    SettingIsLocal(s.remote, l.room, l.announcer, Published(s, s.delivered).peers, s.now, l.room, l.announcer);
  }

  lemma OtherKeeps(l: Link, s: State, room: RoomCode, instance: InstanceId, peers: seq<Peer>)
    requires Inv(l, s) && Enabled(l, s, Other(room, instance, peers))
    ensures Inv(l, Next(l, s, Other(room, instance, peers)))
  {
    SettingIsLocal(s.remote, room, instance, peers, s.now, l.room, l.announcer);
  }

  lemma SweepKeeps(l: Link, s: State)
    requires Inv(l, s)
    ensures Inv(l, Next(l, s, Sweep))
  {
    DroppingKeepsTheFresh(s.remote, s.now, l.room, l.announcer);
  }

  lemma CrashKeeps(l: Link, s: State)
    requires Inv(l, s) && s.alive
    ensures Inv(l, Next(l, s, Crash))
  {
  }

  lemma StepKeeps(l: Link, s: State, step: Step)
    requires Inv(l, s) && Enabled(l, s, step)
    ensures Inv(l, Next(l, s, step))
  {
    match step
    case Pass(time) => PassKeeps(l, s, time);
    case Join(peer) => OccupyKeeps(l, s, s.peers + [peer]);
    case Leave(index) => OccupyKeeps(l, s, Without(s.peers, index));
    case Compute => ComputedKeeps(l, s);
    case Tick => TickKeeps(l, s);
    case Publish(i) => PublishKeeps(l, s, i);
    case Deliver => DeliverKeeps(l, s);
    case Other(room, instance, peers) => OtherKeeps(l, s, room, instance, peers);
    case Sweep => SweepKeeps(l, s);
    case Crash => CrashKeeps(l, s);
  }

  lemma {:induction false} RunKeeps(l: Link, s: State, steps: seq<Step>)
    requires Inv(l, s) && Runs(l, s, steps)
    ensures Inv(l, After(l, s, steps))
    decreases |steps|
  {
    if steps != [] {
      StepKeeps(l, s, steps[0]);
      RunKeeps(l, Next(l, s, steps[0]), steps[1..]);
    }
  }

  /* ── Order ───────────────────────────────────────────────────────────── */

  // Lists are published in the order in which they were computed.
  predicate InOrder(s: State) { forall j, k :: 0 <= j < k < |s.trail| ==> s.trail[j] < s.trail[k] }

  // A list is published after one that was computed later.
  predicate Stale(s: State, step: Step) {
    step.Publish? && exists k :: 0 <= k < |s.trail| && s.trail[k] >= step.list
  }

  // A stale publish is exactly what breaks the order.
  lemma OrderStep(l: Link, s: State, step: Step)
    requires InOrder(s) && Enabled(l, s, step)
    ensures InOrder(Next(l, s, step)) <==> !Stale(s, step)
  {
    var t := Next(l, s, step);
    if step.Publish? {
      assert t.trail[|s.trail|] == step.list;
      if Stale(s, step) {
        var k :| 0 <= k < |s.trail| && s.trail[k] >= step.list;
        assert t.trail[k] >= t.trail[|s.trail|];
      }
    }
  }

  predicate SomeStale(l: Link, s: State, steps: seq<Step>)
    requires Runs(l, s, steps)
    decreases |steps|
  {
    steps != [] && (Stale(s, steps[0]) || SomeStale(l, Next(l, s, steps[0]), steps[1..]))
  }

  lemma {:induction false} RunKeepsOrder(l: Link, s: State, steps: seq<Step>)
    requires InOrder(s) && Runs(l, s, steps) && !SomeStale(l, s, steps)
    ensures InOrder(After(l, s, steps))
    decreases |steps|
  {
    if steps != [] {
      OrderStep(l, s, steps[0]);
      RunKeepsOrder(l, Next(l, s, steps[0]), steps[1..]);
    }
  }

  // News of the room as it is now, since it last became occupied or empty, has arrived.
  predicate HeardOf(s: State) {
    IdsOk(s) && exists k :: 0 <= k < s.delivered && Published(s, k).era == s.era
  }

  lemma {:induction false} ErasGrow(s: State, i: nat, j: nat)
    requires ListsInv(s) && i <= j < |s.lists|
    ensures s.lists[i].era <= s.lists[j].era <= s.era && s.lists[i].made <= s.lists[j].made
  {
    assert Known(s, s.lists[j]);
    if i < j {
      ErasGrow(s, i, j - 1);
      assert Follows(s.lists[j - 1], s.lists[j]);
    }
  }

  // In order, what was delivered last is then about the room as it is now.
  lemma LastIsOfThisEra(l: Link, s: State)
    requires Inv(l, s) && InOrder(s) && HeardOf(s)
    ensures s.delivered > 0 && Last(s).era == s.era && (Last(s).peers == [] <==> s.peers == [])
  {
    var k :| 0 <= k < s.delivered && Published(s, k).era == s.era;
    ErasGrow(s, s.trail[k], s.trail[s.delivered - 1]);
    assert Known(s, Last(s));
  }

  /* ── Occupied rooms are heard of ─────────────────────────────────────── */

  // Of the lists that say the room is occupied as it is now.
  predicate OfThisEra(s: State, k: nat) { k < |s.lists| && s.lists[k].era == s.era }

  // An occupied room is announced by the next heartbeat at the latest.
  ghost predicate AnnouncedSoon(s: State) {
    s.alive && s.peers != [] ==>
      if Current(s) then exists k: nat :: OfThisEra(s, k) && s.lists[k].made <= s.since + HEARTBEAT
      else s.lastTick <= s.since
  }

  lemma ComputedSoon(l: Link, s: State)
    requires Inv(l, s) && AnnouncedSoon(s) && s.alive && s.peers != []
    ensures Current(Computed(s)) && AnnouncedSoon(Computed(s))
  {
    var t := Computed(s);
    if Current(s) {
      var k: nat :| OfThisEra(s, k) && s.lists[k].made <= s.since + HEARTBEAT;
      assert OfThisEra(t, k) && t.lists[k] == s.lists[k];
    } else {
      assert OfThisEra(t, |s.lists|) && t.lists[|s.lists|].made == s.now;
    }
  }

  lemma OccupiedSoon(l: Link, s: State, peers: seq<Peer>)
    requires Inv(l, s) && AnnouncedSoon(s) && s.alive
    ensures AnnouncedSoon(Occupy(s, peers))
  {
    var t := Occupy(s, peers);
    if t.era == s.era {
      assert forall k :: OfThisEra(s, k) ==> OfThisEra(t, k);
    } else if s.lists != [] {
      assert Known(s, s.lists[|s.lists| - 1]);
    }
  }

  lemma StepKeepsSoon(l: Link, s: State, step: Step)
    requires Inv(l, s) && AnnouncedSoon(s) && Enabled(l, s, step)
    ensures AnnouncedSoon(Next(l, s, step))
  {
    var t := Next(l, s, step);
    if step.Join? {
      OccupiedSoon(l, s, s.peers + [step.peer]);
    } else if step.Leave? {
      OccupiedSoon(l, s, Without(s.peers, step.index));
    } else if step.Compute? || step.Tick? {
      if s.peers != [] {
        ComputedSoon(l, s);
        assert forall k :: OfThisEra(Computed(s), k) ==> OfThisEra(t, k);
      }
    } else {
      assert forall k :: OfThisEra(s, k) ==> OfThisEra(t, k);
    }
  }

  lemma {:induction false} RunKeepsSoon(l: Link, s: State, steps: seq<Step>)
    requires Inv(l, s) && AnnouncedSoon(s) && Runs(l, s, steps)
    ensures AnnouncedSoon(After(l, s, steps))
    decreases |steps|
  {
    if steps != [] {
      StepKeeps(l, s, steps[0]);
      StepKeepsSoon(l, s, steps[0]);
      RunKeepsSoon(l, Next(l, s, steps[0]), steps[1..]);
    }
  }

  // What was due long enough ago has arrived.
  lemma DueHasArrived(l: Link, s: State, i: nat)
    requires Inv(l, s) && s.alive && i < |s.lists| && s.lists[i].made + l.delay < s.now
    ensures exists k :: 0 <= k < s.delivered && Published(s, k) == s.lists[i]
  {
    assert i !in s.pending;
    assert i in s.trail;
    var k :| 0 <= k < |s.trail| && s.trail[k] == i;
    assert k < s.delivered && Published(s, k) == s.lists[i];
  }

  lemma LongOccupiedIsHeardOf(l: Link, s: State)
    requires Inv(l, s) && AnnouncedSoon(s) && s.alive && s.peers != []
    requires s.now > s.since + HEARTBEAT + l.delay
    ensures HeardOf(s)
  {
    var k: nat :| OfThisEra(s, k) && s.lists[k].made <= s.since + HEARTBEAT;
    DueHasArrived(l, s, k);
  }

  // After any run, in whatever order lists are published: a live instance's room that has
  // been occupied for longer than a heartbeat and the delay has been heard of.
  lemma OccupiedRoomIsHeardOf(l: Link, now: int, steps: seq<Step>)
    requires Runs(l, Initial(now), steps)
    requires var s := After(l, Initial(now), steps);
      s.alive && s.peers != [] && s.now > s.since + HEARTBEAT + l.delay
    ensures HeardOf(After(l, Initial(now), steps))
  {
    StartKeeps(l, now);
    RunKeeps(l, Initial(now), steps);
    RunKeepsSoon(l, Initial(now), steps);
    LongOccupiedIsHeardOf(l, After(l, Initial(now), steps));
  }

  // And after any run a room is listed exactly if the list delivered last names somebody
  // and came at most 90 seconds ago.
  lemma ListedIfLastIsRecent(l: Link, now: int, steps: seq<Step>)
    requires Runs(l, Initial(now), steps)
    ensures var s := After(l, Initial(now), steps);
      IsListed(l, s) <==>
      IdsOk(s) && s.delivered > 0 && Last(s).peers != [] && s.now <= s.receivedAt + REMOTE_TTL
  {
    StartKeeps(l, now);
    RunKeeps(l, Initial(now), steps);
  }

  /* ── Live instances stay listed ──────────────────────────────────────── */

  predicate LiveAndHeardOf(s: State) { s.alive && s.peers != [] && HeardOf(s) }

  // The list computed after the one delivered last has not arrived, so it is still due.
  lemma NextListIsDue(l: Link, s: State)
    requires Inv(l, s) && InOrder(s) && s.alive && s.delivered > 0
    ensures var i := s.trail[s.delivered - 1] + 1; i < |s.lists| ==> s.lists[i].made >= s.now - l.delay
  {
    var i := s.trail[s.delivered - 1] + 1;
    if i < |s.lists| && i !in s.pending {
      assert i in s.trail;
      var k :| 0 <= k < |s.trail| && s.trail[k] == i;
      assert k >= s.delivered;
      assert s.now <= Published(s, k).made + l.delay;
    }
  }

  // What was delivered last is at most a heartbeat and a delivery old.
  lemma LastDeliveryIsRecent(l: Link, s: State)
    requires Inv(l, s) && InOrder(s) && LiveAndHeardOf(s)
    ensures s.delivered > 0 && Last(s).made >= s.now - HEARTBEAT - l.delay
  {
    LastIsOfThisEra(l, s);
    NextListIsDue(l, s);
    var i := s.trail[s.delivered - 1];
    if i + 1 < |s.lists| {
      assert Follows(s.lists[i], s.lists[i + 1]);
      ErasGrow(s, i, i + 1);
    }
  }

  lemma LiveStateIsListed(l: Link, s: State)
    requires l.delay <= 60 * SECOND && Inv(l, s) && InOrder(s) && LiveAndHeardOf(s)
    ensures s.delivered > 0 && Last(s).made >= s.now - REMOTE_TTL
    ensures Entry(l, s) == Some(RemoteEntry(Last(s).peers, s.receivedAt)) && IsListed(l, s)
  {
    LastDeliveryIsRecent(l, s);
    LastIsOfThisEra(l, s);
  }

  // After any run without a stale publish: while an instance is alive, with the room
  // occupied and heard of, its entry is there and trusted, and says who was in the room
  // at most 90 seconds ago.
  lemma LiveRoomStaysListed(l: Link, now: int, steps: seq<Step>)
    requires l.delay <= 60 * SECOND
    requires Runs(l, Initial(now), steps) && !SomeStale(l, Initial(now), steps)
    requires LiveAndHeardOf(After(l, Initial(now), steps))
    ensures var s := After(l, Initial(now), steps);
      && s.delivered > 0
      && Entry(l, s) == Some(RemoteEntry(Last(s).peers, s.receivedAt))
      && IsListed(l, s)
      && Last(s).made >= s.now - REMOTE_TTL
      && forall rooms :: multiset(Last(s).peers) <= Listed(rooms, s.remote, l.room, s.now)
  {
    StartKeeps(l, now);
    RunKeeps(l, Initial(now), steps);
    RunKeepsOrder(l, Initial(now), steps);
    var s := After(l, Initial(now), steps);
    LiveStateIsListed(l, s);
    forall rooms
      ensures multiset(Last(s).peers) <= Listed(rooms, s.remote, l.room, s.now)
    {
      ShareIsListed(EntriesIn(s.remote, l.room), l.announcer, s.now);
    }
  }

  // So an occupied room of a live instance is listed once a heartbeat and the delay have passed.
  lemma OccupiedRoomIsListed(l: Link, now: int, steps: seq<Step>)
    requires l.delay <= 60 * SECOND
    requires Runs(l, Initial(now), steps) && !SomeStale(l, Initial(now), steps)
    requires var s := After(l, Initial(now), steps);
      s.alive && s.peers != [] && s.now > s.since + HEARTBEAT + l.delay
    ensures IsListed(l, After(l, Initial(now), steps))
  {
    OccupiedRoomIsHeardOf(l, now, steps);
    LiveRoomStaysListed(l, now, steps);
  }

  // After any run without a stale publish: once the news that a room emptied has arrived,
  // nothing is kept of it.
  lemma EmptiedRoomIsForgotten(l: Link, now: int, steps: seq<Step>)
    requires Runs(l, Initial(now), steps) && !SomeStale(l, Initial(now), steps)
    requires After(l, Initial(now), steps).peers == [] && HeardOf(After(l, Initial(now), steps))
    ensures Entry(l, After(l, Initial(now), steps)).None?
  {
    StartKeeps(l, now);
    RunKeeps(l, Initial(now), steps);
    RunKeepsOrder(l, Initial(now), steps);
    EmptyStateIsUnlisted(l, After(l, Initial(now), steps));
  }

  lemma EmptyStateIsUnlisted(l: Link, s: State)
    requires Inv(l, s) && InOrder(s) && s.peers == [] && HeardOf(s)
    ensures Entry(l, s).None?
  {
    LastIsOfThisEra(l, s);
  }

  /* ── Silent instances fade ───────────────────────────────────────────── */

  // The entry and the list, once the announcer may have fallen silent.
  predicate Fading(l: Link, s: State) {
    && (Entry(l, s).Some? ==> Entry(l, s).value.seen == s.receivedAt)
    && (IsListed(l, s) ==> s.now <= s.receivedAt + REMOTE_TTL)
    && (IsListed(l, s) && !s.alive ==> s.now <= s.crashedAt + l.delay + REMOTE_TTL)
    && (Entry(l, s).Some? ==> s.now <= s.receivedAt + REMOTE_TTL + HEARTBEAT)
    && (Entry(l, s).Some? && !s.alive ==> s.now <= s.crashedAt + l.delay + REMOTE_TTL + HEARTBEAT)
    && IdsOk(s) && Punctual(l, s, s.now)
  }

  lemma EveryStateFades(l: Link, s: State)
    requires Inv(l, s)
    ensures Fading(l, s)
  {
    if s.delivered > 0 {
      assert Known(s, Last(s));
    }
  }

  // After any run, in whatever order lists are published: a silent instance is listed for
  // at most 90 seconds past the last receipt, so at most 90 and the delay past its crash,
  // and is forgotten within one more heartbeat; and nothing arrives after the delay.
  lemma CrashedInstanceFades(l: Link, now: int, steps: seq<Step>)
    requires Runs(l, Initial(now), steps)
    ensures Fading(l, After(l, Initial(now), steps))
  {
    StartKeeps(l, now);
    RunKeeps(l, Initial(now), steps);
    EveryStateFades(l, After(l, Initial(now), steps));
  }

  /* ── Both conditions are needed ──────────────────────────────────────── */

  lemma {:induction false} OneMore(l: Link, s: State, steps: seq<Step>, step: Step)
    requires Runs(l, s, steps) && Enabled(l, After(l, s, steps), step)
    ensures Runs(l, s, steps + [step])
    ensures After(l, s, steps + [step]) == Next(l, After(l, s, steps), step)
    ensures SomeStale(l, s, steps + [step]) <==> SomeStale(l, s, steps) || Stale(After(l, s, steps), step)
    decreases |steps|
  {
    if steps == [] {
      assert [step][1..] == [];
    } else {
      assert (steps + [step])[1..] == steps[1..] + [step];
      OneMore(l, Next(l, s, steps[0]), steps[1..], step);
    }
  }

  // One device, announced and heard of at time 0; nothing delivered since.
  predicate Waiting(l: Link, s: State, peer: Peer, now: int, tick: int, sweep: int) {
    && s.alive && s.now == now && s.lastTick == tick && s.lastSweep == sweep
    && s.peers == [peer] && s.era == 1
    && s.trail == [0] && s.delivered == 1 && s.receivedAt == 0
    && s.lists != [] && s.lists[0] == Announcement([peer], 0, 1)
    && Entry(l, s) == Some(RemoteEntry([peer], 0))
    && (forall i :: i in s.pending ==> i < |s.lists| && s.lists[i].made >= HEARTBEAT)
  }

  lemma WaitPass(l: Link, s: State, peer: Peer, now: nat)
    requires l.delay > 60 * SECOND && now <= 60 * SECOND && Waiting(l, s, peer, now, now, now)
    ensures Enabled(l, s, Pass(HEARTBEAT))
    ensures Waiting(l, Next(l, s, Pass(HEARTBEAT)), peer, now + HEARTBEAT, now, now)
  {
  }

  lemma WaitHides(l: Link, s: State, peer: Peer)
    requires l.delay > 60 * SECOND && Waiting(l, s, peer, REMOTE_TTL, REMOTE_TTL, REMOTE_TTL)
    ensures Enabled(l, s, Pass(1))
    ensures LiveAndHeardOf(Next(l, s, Pass(1))) && !IsListed(l, Next(l, s, Pass(1)))
  {
    assert Published(Next(l, s, Pass(1)), 0).era == s.era;
  }

  lemma WaitTick(l: Link, s: State, peer: Peer, now: int, tick: int, sweep: int)
    requires now >= HEARTBEAT && Waiting(l, s, peer, now, tick, sweep)
    ensures Enabled(l, s, Tick) && Waiting(l, Next(l, s, Tick), peer, now, now, sweep)
  {
  }

  lemma WaitSweep(l: Link, s: State, peer: Peer, now: int, tick: int, sweep: int)
    requires now <= REMOTE_TTL && Waiting(l, s, peer, now, tick, sweep)
    ensures Enabled(l, s, Sweep) && Waiting(l, Next(l, s, Sweep), peer, now, tick, now)
  {
    DroppingKeepsTheFresh(s.remote, now, l.room, l.announcer);
  }

  // Announces what the room holds now, and delivers it.
  function Told(peer: Peer): seq<Step> { [] + [Join(peer)] + [Compute] + [Publish(0)] + [Deliver] }

  lemma FirstDelivery(l: Link, peer: Peer)
    ensures Runs(l, Initial(0), Told(peer)) && !SomeStale(l, Initial(0), Told(peer))
    ensures Waiting(l, After(l, Initial(0), Told(peer)), peer, 0, 0, 0)
    ensures After(l, Initial(0), Told(peer)).pending == {} && |After(l, Initial(0), Told(peer)).lists| == 1
  {
    var s := Initial(0);
    OneMore(l, s, [], Join(peer));
    OneMore(l, s, [] + [Join(peer)], Compute);
    OneMore(l, s, [] + [Join(peer)] + [Compute], Publish(0));
    OneMore(l, s, [] + [Join(peer)] + [Compute] + [Publish(0)], Deliver);
    SettingIsLocal(map[], l.room, l.announcer, [peer], 0, l.room, l.announcer);
  }

  // Both heartbeats beat once more, and no further announcement arrives.
  lemma OneBeat(l: Link, steps: seq<Step>, peer: Peer, now: nat) returns (more: seq<Step>)
    requires l.delay > 60 * SECOND && now <= 60 * SECOND
    requires Runs(l, Initial(0), steps) && !SomeStale(l, Initial(0), steps)
    requires Waiting(l, After(l, Initial(0), steps), peer, now, now, now)
    ensures Runs(l, Initial(0), more) && !SomeStale(l, Initial(0), more)
    ensures var later := now + HEARTBEAT; Waiting(l, After(l, Initial(0), more), peer, later, later, later)
  {
    var s, later := Initial(0), now + HEARTBEAT;
    WaitPass(l, After(l, s, steps), peer, now);
    OneMore(l, s, steps, Pass(HEARTBEAT));
    more := steps + [Pass(HEARTBEAT)];
    WaitTick(l, After(l, s, more), peer, later, now, now);
    OneMore(l, s, more, Tick);
    more := more + [Tick];
    WaitSweep(l, After(l, s, more), peer, later, later, now);
    OneMore(l, s, more, Sweep);
    more := more + [Sweep];
  }

  // If announcements may take any longer than 60 seconds, a live, occupied and known room
  // can drop out of the list.
  lemma SlowerBusHidesALiveRoom(l: Link, peer: Peer) returns (steps: seq<Step>)
    requires l.delay > 60 * SECOND
    ensures Runs(l, Initial(0), steps) && !SomeStale(l, Initial(0), steps)
    ensures LiveAndHeardOf(After(l, Initial(0), steps)) && !IsListed(l, After(l, Initial(0), steps))
  {
    FirstDelivery(l, peer);
    steps := OneBeat(l, Told(peer), peer, 0);
    steps := OneBeat(l, steps, peer, HEARTBEAT);
    steps := OneBeat(l, steps, peer, 2 * HEARTBEAT);
    WaitHides(l, After(l, Initial(0), steps), peer);
    OneMore(l, Initial(0), steps, Pass(1));
    steps := steps + [Pass(1)];
  }

  // One list delivered, and two more to be published.
  predicate Poised(s: State, second: Announcement, third: Announcement) {
    && IdsOk(s) && s.delivered == |s.trail| == 1 && s.pending == {1, 2}
    && |s.lists| == 3 && s.lists[1] == second && s.lists[2] == third
    && s.era == third.era && s.peers == third.peers && s.alive && s.now == 0
  }

  // A device is announced again, leaves, and the empty room is announced.
  lemma PoiseToRevive(l: Link, peer: Peer) returns (steps: seq<Step>)
    ensures Runs(l, Initial(0), steps)
    ensures Poised(After(l, Initial(0), steps), Announcement([peer], 0, 1), Announcement([], 0, 2))
  {
    var s := Initial(0);
    FirstDelivery(l, peer);
    steps := Told(peer);
    OneMore(l, s, steps, Compute);
    steps := steps + [Compute];
    OneMore(l, s, steps, Leave(0));
    steps := steps + [Leave(0)];
    OneMore(l, s, steps, Compute);
    steps := steps + [Compute];
  }

  // A device leaves and comes back, and both are announced.
  lemma PoiseToHide(l: Link, peer: Peer) returns (steps: seq<Step>)
    ensures Runs(l, Initial(0), steps)
    ensures Poised(After(l, Initial(0), steps), Announcement([], 0, 2), Announcement([peer], 0, 3))
  {
    var s := Initial(0);
    FirstDelivery(l, peer);
    steps := Told(peer);
    OneMore(l, s, steps, Leave(0));
    steps := steps + [Leave(0)];
    OneMore(l, s, steps, Compute);
    steps := steps + [Compute];
    OneMore(l, s, steps, Join(peer));
    steps := steps + [Join(peer)];
    OneMore(l, s, steps, Compute);
    steps := steps + [Compute];
  }

  // A list computed before the last device left is published after the empty one: the
  // receiver has heard that the room is empty, and lists the device all the same.
  lemma StalePublishRevivesAnEmptyRoom(l: Link, peer: Peer) returns (steps: seq<Step>)
    ensures Runs(l, Initial(0), steps)
    ensures var s := After(l, Initial(0), steps);
      s.peers == [] && HeardOf(s) && s.pending == {} && s.delivered == |s.trail| && IsListed(l, s)
  {
    steps := PoiseToRevive(l, peer);
    steps := PublishSwapped(l, steps, Announcement([peer], 0, 1), Announcement([], 0, 2));
  }

  // The other way round, an empty list computed before a device came back is published
  // after the new one: the receiver has heard of the occupied room and lists nobody.
  lemma StalePublishHidesALiveRoom(l: Link, peer: Peer) returns (steps: seq<Step>)
    ensures Runs(l, Initial(0), steps)
    ensures var s := After(l, Initial(0), steps);
      LiveAndHeardOf(s) && s.pending == {} && s.delivered == |s.trail| && !IsListed(l, s)
  {
    steps := PoiseToHide(l, peer);
    steps := PublishSwapped(l, steps, Announcement([], 0, 2), Announcement([peer], 0, 3));
  }

  // The third list goes out before the second.
  lemma PublishSwapped(l: Link, steps: seq<Step>, second: Announcement, third: Announcement) returns (more: seq<Step>)
    requires Runs(l, Initial(0), steps) && Poised(After(l, Initial(0), steps), second, third)
    ensures Runs(l, Initial(0), more)
    ensures var n := After(l, Initial(0), more);
      && n.pending == {} && n.delivered == |n.trail| && n.peers == third.peers && n.alive && n.now == 0
      && HeardOf(n)
      && Entry(l, n) == if second.peers == [] then None else Some(RemoteEntry(second.peers, 0))
  {
    more := PublishOne(l, steps, 2);
    var t := After(l, Initial(0), more);
    assert t.trail[1] == 2 && t.lists[2] == third;
    more := PublishOne(l, more, 1);
    assert Published(After(l, Initial(0), more), 1) == third;
  }

  // Publishes one pending list, and delivers it, with nothing else on the bus.
  lemma PublishOne(l: Link, steps: seq<Step>, i: nat) returns (more: seq<Step>)
    requires Runs(l, Initial(0), steps)
    requires var t := After(l, Initial(0), steps); IdsOk(t) && t.delivered == |t.trail| && i in t.pending
    ensures Runs(l, Initial(0), more)
    ensures var t := After(l, Initial(0), steps);
      var n := After(l, Initial(0), more);
      && n == t.(trail := t.trail + [i], delivered := |t.trail| + 1, pending := t.pending - {i},
                 receivedAt := t.now, remote := n.remote)
      && Entry(l, n) == if t.lists[i].peers == [] then None else Some(RemoteEntry(t.lists[i].peers, t.now))
  {
    var s := Initial(0);
    var t := After(l, s, steps);
    OneMore(l, s, steps, Publish(i));
    more := steps + [Publish(i)];
    OneMore(l, s, more, Deliver);
    more := more + [Deliver];
    SettingIsLocal(t.remote, l.room, l.announcer, t.lists[i].peers, t.now, l.room, l.announcer);
  }

  /* ── The handlers of one instance ────────────────────────────────────── */

  // An announcement from another instance: record it, and tell the room who is in it now.
  method HandlePresence(h: Hub, room: RoomCode, origin: InstanceId, peers: seq<Peer>, now: int)
    returns (told: seq<Peer>)
    requires h.Valid()
    modifies h`remote
    ensures h.Valid() && h.remote == SetRemote(old(h.remote), room, origin, peers, now)
    ensures Sorted(told)
    ensures multiset(told) + ShareOf(EntryOf(old(h.remote), room, origin), now)
      == Listed(h.rooms, old(h.remote), room, now) + multiset(peers)
  {
    AnnouncementSwapsOneShare(h.rooms, h.remote, room, origin, peers, now);
    h.SetRemotePeers(room, origin, peers, now);
    told := h.Peers(room, now);
  }

  // One heartbeat: announce every room that has clients here, then forget the instances
  // gone quiet and tell the rooms that lost one.
  method Beat(h: Hub, now: int)
    returns (announced: map<RoomCode, seq<Peer>>, told: map<RoomCode, seq<Peer>>)
    requires h.Valid()
    modifies h`remote
    ensures h.Valid() && h.remote == DropStale(old(h.remote), now)
    ensures forall r :: r in announced <==> ClientsIn(h.rooms, r) != {}
    ensures forall r :: r in announced ==> multiset(announced[r]) == PeersOfClients(ClientsIn(h.rooms, r))
    ensures forall r :: r in told <==> LostAnEntry(old(h.remote), r, now)
    ensures forall r :: r in told ==>
      Sorted(told[r]) && multiset(told[r]) == Listed(h.rooms, h.remote, r, now)
  {
    announced, told := map[], map[];
    var occupied := h.RoomsWithLocalClients();
    for k := 0 to |occupied|
      invariant h.Valid() && h.remote == old(h.remote)
      invariant forall r :: r in announced <==> r in occupied[..k]
      invariant forall r :: r in announced ==> multiset(announced[r]) == PeersOfClients(ClientsIn(h.rooms, r))
    {
      var peers := h.LocalPeers(occupied[k]);
      announced := announced[occupied[k] := peers];
    }
    var changed := h.DropStaleRemotes(now);
    for k := 0 to |changed|
      invariant h.Valid() && h.remote == DropStale(old(h.remote), now)
      invariant forall r :: r in told <==> r in changed[..k]
      invariant forall r :: r in told ==>
        Sorted(told[r]) && multiset(told[r]) == Listed(h.rooms, h.remote, r, now)
    {
      var peers := h.Peers(changed[k], now);
      told := told[changed[k] := peers];
    }
  }
}
