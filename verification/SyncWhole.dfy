/** Whole operations.

    Here a store change and the local broadcast that follows it count as one
    step, and so do loading and relaying an item, and registering, listing and
    greeting a socket; publishing stays apart. An upload stores its files one by one
    and announces them all at the end, or takes them back without a word; and a
    change whose reply is lost is not announced either. The bus may drop notices. */
module SyncWhole {
  import opened Sync
  import opened SyncSafety
  import opened SyncConvergence

  datatype Whole =
    | Create(at: InstanceId, item: Item)
    | Delete(at: InstanceId, room: RoomCode, id: ItemId)
    | Clear(at: InstanceId, room: RoomCode)
    | Send(notice: Notice)
    | Deliver(at: InstanceId)
    | Join(client: ClientId, at: InstanceId, room: RoomCode, page: set<ItemId>)
    | JoinUnlisted(client: ClientId, at: InstanceId, room: RoomCode)   // the room cannot be listed
    | Read(client: ClientId)
    | Disconnect(client: ClientId)
    | Put(at: InstanceId, item: Item)                        // an upload stores a file,
    | Tell(notice: Notice)                                   // announces it once it has ended well,
    | Rollback(at: InstanceId, room: RoomCode, id: ItemId)   // or takes it back,
    | Abandon(notice: Notice)                                // or leaves it and ends
    | Withdraw(at: InstanceId, room: RoomCode, id: ItemId)   // a deletion whose reply is lost, or expiry
    | Wipe(at: InstanceId, room: RoomCode)                   // a clear whose reply is lost
    | Drop(notice: Notice)                                   // a notice that is not published,
    | Skip(at: InstanceId)                                   // one that is not heard,
    | Miss(at: InstanceId)                                   // and one whose item cannot be loaded

  // The next notice in the inbox names an item this listener will load and relay.
  predicate Loads(s: State, at: InstanceId) {
    && at in s.inboxes && s.inboxes[at] != []
    && var n := s.inboxes[at][0];
       n.origin != at && n.event.Created? && n.event.id in s.table
  }

  function Joining(c: ClientId, at: InstanceId, room: RoomCode, list: Act): seq<Step> {
    [Socket(c, Register(at, room)), Socket(c, list), Socket(c, Greet)]
  }

  function Expand(s: State, w: Whole): seq<Step> {
    match w
    case Create(at, item) => [Store(at, item), Announce(Notice(at, Created(item.id)))]
    case Delete(at, room, id) => [Remove(at, room, id), Announce(Notice(at, Deleted(room, id)))]
    case Clear(at, room) => [Empty(at, room), Announce(Notice(at, Cleared(room)))]
    case Send(n) => [Publish(n)]
    case Deliver(at) => if Loads(s, at) then [Take(at), Relay(at)] else [Take(at)]
    case Join(c, at, room, page) => Joining(c, at, room, List(page))
    case JoinUnlisted(c, at, room) => Joining(c, at, room, ListFails)
    case Read(c) => [Socket(c, Receive)]
    case Disconnect(c) => [Socket(c, Leave)]
    case Put(at, item) => [Store(at, item)]
    case Tell(n) => [Announce(n)]
    case Rollback(at, room, id) =>
      [Remove(at, room, id), Forget(Notice(at, Deleted(room, id))), Forget(Notice(at, Created(id)))]
    case Abandon(n) => [Forget(n)]
    case Withdraw(at, room, id) => [Remove(at, room, id), Forget(Notice(at, Deleted(room, id)))]
    case Wipe(at, room) => [Empty(at, room), Forget(Notice(at, Cleared(room)))]
    case Drop(n) => [Unsent(n)]
    case Skip(at) => [Unheard(at)]
    case Miss(at) => [LoadFails(at)]
  }

  // No operation is half done, but for uploads that still hold files to announce.
  ghost predicate Idle(s: State) {
    && (forall n :: n in s.unsaid ==> n.event.Created?) && s.relays == map[]
    && forall k :: k in s.clients ==> s.clients[k].phase.Greeted?
  }

  ghost function Second(s: State, steps: seq<Step>): (t: State)
    requires WellFormed(s) && Runs(s, steps) && |steps| >= 1
    ensures t == Next(s, steps[0]) && WellFormed(t)
  {
    StepKeepsWellFormed(s, steps[0]);
    Next(s, steps[0])
  }

  lemma OneStep(s: State, a: Step)
    requires WellFormed(s) && Runs(s, [a])
    ensures Enabled(s, a) && After(s, [a]) == Next(s, a)
    ensures SomeLate(s, [a]) <==> Late(s, a)
    ensures SomeLost(s, [a]) <==> Loses(s, a)
  {
    StepKeepsWellFormed(s, a);
    assert [a][1..] == [];
  }

  lemma TwoSteps(s: State, a: Step, b: Step)
    requires WellFormed(s) && Runs(s, [a, b])
    ensures Enabled(s, a) && WellFormed(Next(s, a)) && Enabled(Next(s, a), b)
    ensures After(s, [a, b]) == Next(Next(s, a), b)
    ensures SomeLate(s, [a, b]) <==> Late(s, a) || Late(Next(s, a), b)
    ensures SomeLost(s, [a, b]) <==> Loses(s, a) || Loses(Next(s, a), b)
  {
    StepKeepsWellFormed(s, a);
    assert [a, b][1..] == [b];
    OneStep(Next(s, a), b);
  }

  lemma ThreeSteps(s: State, a: Step, b: Step, c: Step) returns (m: State, t: State)
    requires WellFormed(s) && Runs(s, [a, b, c])
    ensures Enabled(s, a) && m == Next(s, a)
    ensures WellFormed(m) && Enabled(m, b) && t == Next(m, b)
    ensures WellFormed(t) && Enabled(t, c) && After(s, [a, b, c]) == Next(t, c)
    ensures SomeLate(s, [a, b, c]) <==> Late(s, a) || Late(m, b) || Late(t, c)
    ensures SomeLost(s, [a, b, c]) <==> Loses(s, a) || Loses(m, b) || Loses(t, c)
  {
    StepKeepsWellFormed(s, a);
    assert [a, b, c][1..] == [b, c];
    m := Next(s, a);
    TwoSteps(m, b, c);
    StepKeepsWellFormed(m, b);
    t := Next(m, b);
  }

  /* ── Operations on what is announced ─────────────────────────────────── */

  lemma ChangeStaysIdle(s: State, a: Step, n: Notice)
    requires WellFormed(s) && Idle(s) && Enabled(s, a) && (a.Store? || a.Remove? || a.Empty?)
    requires WellFormed(Next(s, a)) && Enabled(Next(s, a), Announce(n))
    requires Next(s, a).unsaid == s.unsaid + multiset{n}
    ensures Idle(Next(Next(s, a), Announce(n)))
  {
    BroadcastViews(s.clients, n.origin, RoomOf(Next(s, a), n.event), FrameFor(Next(s, a), n.event));
  }

  lemma CreateIsTimely(s: State, at: InstanceId, item: Item)
    requires WellFormed(s) && Idle(s) && Runs(s, Expand(s, Create(at, item)))
    ensures Idle(After(s, Expand(s, Create(at, item)))) && !SomeLate(s, Expand(s, Create(at, item)))
  {
    TwoSteps(s, Store(at, item), Announce(Notice(at, Created(item.id))));
    ChangeStaysIdle(s, Store(at, item), Notice(at, Created(item.id)));
  }

  lemma DeleteIsTimely(s: State, at: InstanceId, room: RoomCode, id: ItemId)
    requires WellFormed(s) && Idle(s) && Runs(s, Expand(s, Delete(at, room, id)))
    ensures Idle(After(s, Expand(s, Delete(at, room, id)))) && !SomeLate(s, Expand(s, Delete(at, room, id)))
  {
    TwoSteps(s, Remove(at, room, id), Announce(Notice(at, Deleted(room, id))));
    ChangeStaysIdle(s, Remove(at, room, id), Notice(at, Deleted(room, id)));
  }

  lemma ClearIsTimely(s: State, at: InstanceId, room: RoomCode)
    requires WellFormed(s) && Idle(s) && Runs(s, Expand(s, Clear(at, room)))
    ensures Idle(After(s, Expand(s, Clear(at, room)))) && !SomeLate(s, Expand(s, Clear(at, room)))
  {
    TwoSteps(s, Empty(at, room), Announce(Notice(at, Cleared(room))));
    ChangeStaysIdle(s, Empty(at, room), Notice(at, Cleared(room)));
  }

  // A change and its announcement; clearing empties the room before its own clients are
  // told, so they lose nothing stored.
  lemma ChangeLosesNothing(s: State, a: Step, n: Notice)
    requires WellFormed(s) && Runs(s, [a, Announce(n)])
    requires a.Store? || a.Remove? || a.Empty?
    requires n.event.Cleared? ==> a.Empty? && n.event.room == a.room
    ensures !SomeLost(s, [a, Announce(n)])
  {
    TwoSteps(s, a, Announce(n));
    OthersLoseNothing(s, a);
    AnnounceLoses(Next(s, a), n);
  }

  lemma SendIsTimely(s: State, n: Notice)
    requires WellFormed(s) && Idle(s) && Runs(s, Expand(s, Send(n)))
    ensures Idle(After(s, Expand(s, Send(n)))) && !SomeLate(s, Expand(s, Send(n)))
    ensures !SomeLost(s, Expand(s, Send(n)))
  {
    OneStep(s, Publish(n));
    OthersLoseNothing(s, Publish(n));
  }

  lemma ClientActIsTimely(s: State, c: ClientId, act: Act)
    requires WellFormed(s) && Idle(s) && Runs(s, [Socket(c, act)])
    requires act.Receive? || act.Leave?
    ensures Idle(After(s, [Socket(c, act)])) && !SomeLate(s, [Socket(c, act)])
    ensures !SomeLost(s, [Socket(c, act)])
  {
    OneStep(s, Socket(c, act));
  }

  lemma DeliveryIsTimely(s: State, at: InstanceId)
    requires WellFormed(s) && Idle(s) && Runs(s, Expand(s, Deliver(at)))
    ensures Idle(After(s, Expand(s, Deliver(at)))) && !SomeLate(s, Expand(s, Deliver(at)))
  {
    if Loads(s, at) {
      TwoSteps(s, Take(at), Relay(at));
      TakenItemIsLoaded(s, at);
    } else {
      OneStep(s, Take(at));
      PopIsKnown(s, Next(s, Take(at)), at);
    }
  }

  lemma TakenItemIsLoaded(s: State, at: InstanceId)
    requires WellFormed(s) && Idle(s) && Loads(s, at) && Enabled(s, Take(at))
    ensures var t := Next(s, Take(at)); var id := s.inboxes[at][0].event.id;
      && t.relays == map[at := s.table[id]] && t.table == s.table
      && t.unsaid == s.unsaid && t.clients == s.clients && s.table[id].id == id
  {
    PopIsKnown(s, Next(s, Take(at)), at);
  }

  lemma RegisterStage(s: State, c: ClientId, at: InstanceId, room: RoomCode) returns (t: State)
    requires WellFormed(s) && Enabled(s, Socket(c, Register(at, room)))
    ensures t == Next(s, Socket(c, Register(at, room))) && WellFormed(t)
    ensures t == s.(clients := s.clients[c := Client(at, room, Registered, map[], [])])
    ensures !Late(s, Socket(c, Register(at, room))) && !Loses(s, Socket(c, Register(at, room)))
  {
    StepKeepsWellFormed(s, Socket(c, Register(at, room)));
    t := Next(s, Socket(c, Register(at, room)));
  }

  // What the greeting will carry: the listed rows, or none if they could not be listed.
  function Shown(s: State, act: Act): map<ItemId, Item> { if act.List? then Rows(s.table, act.page) else map[] }

  lemma ListStage(s: State, c: ClientId, act: Act) returns (t: State)
    requires WellFormed(s) && Enabled(s, Socket(c, act)) && (act.List? || act.ListFails?)
    ensures t == Next(s, Socket(c, act)) && WellFormed(t)
    ensures act.List? ==> IsPage(s.table, s.clients[c].room, act.page)
    ensures t == s.(clients := s.clients[c := s.clients[c].(phase := Listed(Shown(s, act)))])
    ensures !Late(s, Socket(c, act)) && !Loses(s, Socket(c, act))
  {
    StepKeepsWellFormed(s, Socket(c, act));
    t := Next(s, Socket(c, act));
  }

  lemma ListedAfterRegister(s: State, t1: State, t: State, c: ClientId, at: InstanceId, room: RoomCode, act: Act)
    requires t1 == s.(clients := s.clients[c := Client(at, room, Registered, map[], [])])
    requires t == t1.(clients := t1.clients[c := t1.clients[c].(phase := Listed(Shown(t1, act)))])
    ensures t == s.(clients := s.clients[c := Client(at, room, Listed(Shown(s, act)), map[], [])])
  {
    assert t.clients == s.clients[c := t.clients[c]];
  }

  // A join up to the point where only the greeting is left.
  lemma JoinStages(s: State, c: ClientId, at: InstanceId, room: RoomCode, act: Act) returns (t: State)
    requires WellFormed(s) && Runs(s, Joining(c, at, room, act)) && (act.List? || act.ListFails?)
    ensures WellFormed(t) && Enabled(t, Socket(c, Greet))
    ensures act.List? ==> IsPage(s.table, room, act.page)
    ensures t == s.(clients := s.clients[c := Client(at, room, Listed(Shown(s, act)), map[], [])])
    ensures var steps := Joining(c, at, room, act);
      && After(s, steps) == Next(t, Socket(c, Greet))
      && (SomeLate(s, steps) <==> Late(t, Socket(c, Greet)))
      && (SomeLost(s, steps) <==> Loses(t, Socket(c, Greet)))
  {
    var t1, t2 := ThreeSteps(s, Socket(c, Register(at, room)), Socket(c, act), Socket(c, Greet));
    var u1 := RegisterStage(s, c, at, room);
    t := ListStage(t1, c, act);
    ListedAfterRegister(s, t1, t, c, at, room, act);
  }

  lemma GreetIsTimely(s: State, t: State, c: ClientId, at: InstanceId, room: RoomCode, act: Act)
    requires WellFormed(s) && Idle(s) && WellFormed(t) && Enabled(t, Socket(c, Greet))
    requires t == s.(clients := s.clients[c := Client(at, room, Listed(Shown(s, act)), map[], [])])
    ensures Idle(Next(t, Socket(c, Greet))) && !Late(t, Socket(c, Greet))
  {
  }

  lemma JoinIsTimely(s: State, c: ClientId, at: InstanceId, room: RoomCode, act: Act)
    requires WellFormed(s) && Idle(s) && Runs(s, Joining(c, at, room, act)) && (act.List? || act.ListFails?)
    ensures Idle(After(s, Joining(c, at, room, act))) && !SomeLate(s, Joining(c, at, room, act))
  {
    var t := JoinStages(s, c, at, room, act);
    GreetIsTimely(s, t, c, at, room, act);
  }

  // Of the operations on what is announced, none is ever late.
  lemma AnnouncedIsTimely(s: State, w: Whole)
    requires WellFormed(s) && Idle(s) && Runs(s, Expand(s, w))
    requires w.Create? || w.Delete? || w.Clear? || w.Send? || w.Deliver? || w.Read? || w.Disconnect?
    ensures Idle(After(s, Expand(s, w))) && !SomeLate(s, Expand(s, w))
    ensures !w.Deliver? ==> !SomeLost(s, Expand(s, w))
  {
    match w
    case Deliver(at) => DeliveryIsTimely(s, at);
    case Create(at, item) =>
      CreateIsTimely(s, at, item);
      ChangeLosesNothing(s, Store(at, item), Notice(at, Created(item.id)));
    case Delete(at, room, id) =>
      DeleteIsTimely(s, at, room, id);
      ChangeLosesNothing(s, Remove(at, room, id), Notice(at, Deleted(room, id)));
    case Clear(at, room) =>
      ClearIsTimely(s, at, room);
      ChangeLosesNothing(s, Empty(at, room), Notice(at, Cleared(room)));
    case Send(n) => SendIsTimely(s, n);
    case Read(c) => ClientActIsTimely(s, c, Receive);
    case Disconnect(c) => ClientActIsTimely(s, c, Leave);
  }

  /* ── Runs ────────────────────────────────────────────────────────────── */

  ghost predicate WholeRuns(s: State, ws: seq<Whole>)
    requires WellFormed(s)
    decreases |ws|
  {
    ws == [] || (Runs(s, Expand(s, ws[0])) && WholeRuns(After(s, Expand(s, ws[0])), ws[1..]))
  }

  ghost function WholeAfter(s: State, ws: seq<Whole>): (t: State)
    requires WellFormed(s) && WholeRuns(s, ws)
    ensures WellFormed(t)
    decreases |ws|
  {
    if ws == [] then s else WholeAfter(After(s, Expand(s, ws[0])), ws[1..])
  }
}
