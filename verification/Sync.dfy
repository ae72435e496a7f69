/** Room synchronisation across server instances.

    The state holds the shared item table, the browser replicas attached to each
    instance, and every notice on its way: stored but not yet announced to the
    origin's own clients, announced but not yet published, and published into
    the FIFO inbox of each listener. Each database statement, each local
    broadcast and each publish is a step of its own, because the server takes no
    lock across them. A notice may be dropped on the way: never announced, as when an
    upload takes its files back or a reply is lost, not published, not heard, or of an
    item that cannot be loaded. `SyncWhole` groups steps into the pairs a reader of the
    source would like to think of as one. */
module Sync {
  import opened Wrappers

  type ItemId = nat      // a uuid, used once
  type InstanceId = nat
  type ClientId = nat
  type RoomCode = string

  const ITEM_PAGE_SIZE := 200

  datatype Item = Item(id: ItemId, room: RoomCode, createdAt: nat, body: string)

  // item.created travels as an id only; the other two carry all they need.
  datatype Event = Created(id: ItemId) | Deleted(room: RoomCode, id: ItemId) | Cleared(room: RoomCode)
  datatype Notice = Notice(origin: InstanceId, event: Event)

  datatype Frame =
    | ItemCreated(item: Item)
    | ItemDeleted(id: ItemId)
    | RoomCleared
    | Welcome(items: map<ItemId, Item>)

  // A socket is registered with the hub, then the room is listed, then greeted.
  datatype Phase = Registered | Listed(snapshot: map<ItemId, Item>) | Greeted

  datatype Client = Client(home: InstanceId, room: RoomCode, phase: Phase,
                           items: map<ItemId, Item>, pending: seq<Frame>)

  datatype State = State(
    table: map<ItemId, Item>,
    history: map<ItemId, Item>,          // every item ever stored
    clients: map<ClientId, Client>,
    unsaid: multiset<Notice>,            // stored, origin's clients not yet told
    outbox: multiset<Notice>,            // told, not yet published
    inboxes: map<InstanceId, seq<Notice>>,
    relays: map<InstanceId, Item>)       // loaded by a listener, not yet relayed

  datatype Step =
    | Store(at: InstanceId, item: Item)
    | Remove(at: InstanceId, room: RoomCode, id: ItemId)
    | Empty(at: InstanceId, room: RoomCode)
    | Announce(notice: Notice)
    | Forget(notice: Notice)             // the request ends without announcing it
    | Publish(notice: Notice)
    | Unsent(notice: Notice)             // publishing it fails
    | Take(at: InstanceId)
    | Unheard(at: InstanceId)            // the next notice is missed, the listener being down
    | LoadFails(at: InstanceId)          // its item cannot be loaded
    | Relay(at: InstanceId)
    | Socket(client: ClientId, act: Act)

  datatype Act =
    | Register(at: InstanceId, room: RoomCode)
    | List(page: set<ItemId>)
    | ListFails
    | Greet
    | Receive
    | Leave

  /* ── The browser replica ─────────────────────────────────────────────── */

  function Apply(items: map<ItemId, Item>, frame: Frame): map<ItemId, Item> {
    match frame
    case ItemCreated(item) => items[item.id := item]
    case ItemDeleted(id) => items - {id}
    case RoomCleared => map[]
    case Welcome(snapshot) => snapshot
  }

  function Drain(items: map<ItemId, Item>, frames: seq<Frame>): map<ItemId, Item>
    decreases |frames|
  {
    if frames == [] then items else Drain(Apply(items, frames[0]), frames[1..])
  }

  // What the client will hold once it has read everything queued for it.
  function View(c: Client): map<ItemId, Item> { Drain(c.items, c.pending) }

  function Push(c: Client, frame: Frame): Client { c.(pending := c.pending + [frame]) }

  predicate Hears(c: Client, at: InstanceId, room: RoomCode) { c.home == at && c.room == room }

  function Broadcast(clients: map<ClientId, Client>, at: InstanceId, room: RoomCode, frame: Frame)
    : map<ClientId, Client>
  {
    map k | k in clients :: if Hears(clients[k], at, room) then Push(clients[k], frame) else clients[k]
  }

  lemma {:induction false} DrainAppend(items: map<ItemId, Item>, frames: seq<Frame>, frame: Frame)
    ensures Drain(items, frames + [frame]) == Apply(Drain(items, frames), frame)
    decreases |frames|
  {
    if frames == [] {
      assert [frame][1..] == [];
      assert frames + [frame] == [frame];
    } else {
      assert (frames + [frame])[1..] == frames[1..] + [frame];
      DrainAppend(Apply(items, frames[0]), frames[1..], frame);
    }
  }

  lemma BroadcastViews(clients: map<ClientId, Client>, at: InstanceId, room: RoomCode, frame: Frame)
    ensures var after := Broadcast(clients, at, room, frame);
      && after.Keys == clients.Keys
      && forall k :: k in clients ==>
         && after[k].home == clients[k].home && after[k].room == clients[k].room
         && after[k].phase == clients[k].phase
         && View(after[k]) == if Hears(clients[k], at, room) then Apply(View(clients[k]), frame)
                              else View(clients[k])
  {
    forall k | k in clients
      ensures View(Push(clients[k], frame)) == Apply(View(clients[k]), frame)
    {
      DrainAppend(clients[k].items, clients[k].pending, frame);
    }
  }

  /* ── Steps ───────────────────────────────────────────────────────────── */

  function RoomIds(table: map<ItemId, Item>, room: RoomCode): set<ItemId> {
    set id | id in table && table[id].room == room
  }

  function RoomItems(table: map<ItemId, Item>, room: RoomCode): map<ItemId, Item> {
    map id | id in table && table[id].room == room :: table[id]
  }

  function Rows(table: map<ItemId, Item>, page: set<ItemId>): map<ItemId, Item> {
    map id | id in page && id in table :: table[id]
  }

  // ORDER BY created_at DESC LIMIT 200, with ties broken either way.
  ghost predicate IsPage(table: map<ItemId, Item>, room: RoomCode, page: set<ItemId>) {
    var ids := RoomIds(table, room);
    && page <= ids
    && |page| == (if |ids| <= ITEM_PAGE_SIZE then |ids| else ITEM_PAGE_SIZE)
    && forall x, y :: x in page && y in ids - page ==> table[x].createdAt >= table[y].createdAt
  }

  ghost predicate Enabled(s: State, step: Step) {
    match step
    case Store(at, item) => at in s.inboxes && item.id !in s.history
    case Remove(at, room, id) => at in s.inboxes && id in s.table && s.table[id].room == room
    case Empty(at, room) => at in s.inboxes
    case Announce(n) => n in s.unsaid
    case Forget(n) => n in s.unsaid
    case Publish(n) => n in s.outbox
    case Unsent(n) => n in s.outbox
    case Take(at) => at in s.inboxes && s.inboxes[at] != [] && at !in s.relays
    case Unheard(at) => at in s.inboxes && s.inboxes[at] != [] && at !in s.relays
    case LoadFails(at) =>
      && at in s.inboxes && s.inboxes[at] != [] && at !in s.relays
      && s.inboxes[at][0].origin != at && s.inboxes[at][0].event.Created?
    case Relay(at) => at in s.relays
    case Socket(c, act) => (c in s.clients <==> !act.Register?) && ActEnabled(s, c, act)
  }

  ghost predicate ActEnabled(s: State, c: ClientId, act: Act)
    requires c in s.clients <==> !act.Register?
  {
    match act
    case Register(at, _) => at in s.inboxes
    case List(page) => s.clients[c].phase.Registered? && IsPage(s.table, s.clients[c].room, page)
    case ListFails => s.clients[c].phase.Registered?
    case Greet => s.clients[c].phase.Listed?
    case Receive => s.clients[c].pending != []
    case Leave => true
  }

  // What an instance's clients are told about a notice it announces or relays.
  function FrameFor(s: State, event: Event): Frame
    requires event.Created? ==> event.id in s.history
  {
    match event
    case Created(id) => ItemCreated(s.history[id])
    case Deleted(_, id) => ItemDeleted(id)
    case Cleared(_) => RoomCleared
  }

  function RoomOf(s: State, event: Event): RoomCode
    requires event.Created? ==> event.id in s.history
  {
    match event
    case Created(id) => s.history[id].room
    case Deleted(room, _) => room
    case Cleared(room) => room
  }

  function Without(s: State, n: Notice): State { s.(unsaid := s.unsaid - multiset{n}) }

  function Popped(s: State, at: InstanceId): State
    requires at in s.inboxes && s.inboxes[at] != []
  {
    s.(inboxes := s.inboxes[at := s.inboxes[at][1..]])
  }

  // The steps that drop a notice, the notice they drop, and what is left.
  predicate Dropping(step: Step) { step.Forget? || step.Unsent? || step.Unheard? || step.LoadFails? }

  ghost function DroppedNotice(s: State, step: Step): Notice
    requires Dropping(step) && Enabled(s, step)
  {
    if step.Forget? || step.Unsent? then step.notice else s.inboxes[step.at][0]
  }

  ghost function Dropped(s: State, step: Step): State
    requires Dropping(step) && Enabled(s, step)
  {
    if step.Forget? then Without(s, step.notice)
    else if step.Unsent? then s.(outbox := s.outbox - multiset{step.notice})
    else Popped(s, step.at)
  }

  function AfterTake(s: State, at: InstanceId): State
    requires at in s.inboxes && s.inboxes[at] != [] && at !in s.relays
    requires s.inboxes[at][0].event.Created? ==> s.inboxes[at][0].event.id in s.history
  {
    var n := s.inboxes[at][0];
    var popped := Popped(s, at);
    if n.origin == at then popped                      // already delivered when announced
    else if n.event.Created? then
      if n.event.id in s.table then popped.(relays := s.relays[at := s.table[n.event.id]])
      else popped                                      // gone again: nothing to relay
    else popped.(clients := Broadcast(s.clients, at, RoomOf(s, n.event), FrameFor(s, n.event)))
  }

  // The replica after one of its own steps; None once it has left.
  ghost function ActOn(s: State, c: ClientId, act: Act): Option<Client>
    requires c in s.clients <==> !act.Register?
    requires ActEnabled(s, c, act)
  {
    match act
    case Register(at, room) => Some(Client(at, room, Registered, map[], []))
    case List(page) => Some(s.clients[c].(phase := Listed(Rows(s.table, page))))
    case ListFails => Some(s.clients[c].(phase := Listed(map[])))
    case Greet => Some(Push(s.clients[c], Welcome(s.clients[c].phase.snapshot)).(phase := Greeted))
    case Receive =>
      var k := s.clients[c];
      Some(k.(items := Apply(k.items, k.pending[0]), pending := k.pending[1..]))
    case Leave => None
  }

  ghost function Next(s: State, step: Step): State
    requires WellFormed(s) && Enabled(s, step)
  {
    match step
    case Store(at, item) =>
      s.(table := s.table[item.id := item], history := s.history[item.id := item],
         unsaid := s.unsaid + multiset{Notice(at, Created(item.id))})
    case Remove(at, room, id) =>
      s.(table := s.table - {id}, unsaid := s.unsaid + multiset{Notice(at, Deleted(room, id))})
    case Empty(at, room) =>
      s.(table := s.table - RoomIds(s.table, room), unsaid := s.unsaid + multiset{Notice(at, Cleared(room))})
    case Announce(n) =>
      assert Known(s, n);
      s.(unsaid := s.unsaid - multiset{n}, outbox := s.outbox + multiset{n},
         clients := Broadcast(s.clients, n.origin, RoomOf(s, n.event), FrameFor(s, n.event)))
    case Publish(n) =>
      s.(outbox := s.outbox - multiset{n},
         inboxes := map i | i in s.inboxes :: s.inboxes[i] + [n])
    case Take(at) =>
      assert Known(s, s.inboxes[at][0]);
      AfterTake(s, at)
    case Relay(at) =>
      s.(relays := s.relays - {at},
         clients := Broadcast(s.clients, at, s.relays[at].room, ItemCreated(s.relays[at])))
    case Socket(c, act) =>
      match ActOn(s, c, act) {
        case Some(k) => s.(clients := s.clients[c := k])
        case None => s.(clients := s.clients - {c})
      }
    case _ => Dropped(s, step)
  }

  /* ── Well-formed states ──────────────────────────────────────────────── */

  ghost predicate Known(s: State, n: Notice) {
    n in s.unsaid || n in s.outbox || exists i :: i in s.inboxes && n in s.inboxes[i]
  }

  // A map that only holds items as they were stored, all of one room.
  ghost predicate Genuine(s: State, items: map<ItemId, Item>, room: RoomCode) {
    forall id :: id in items ==> id in s.history && s.history[id] == items[id] && items[id].room == room
  }

  ghost predicate NoticeOk(s: State, event: Event) {
    match event
    case Created(id) => id in s.history
    case Deleted(room, id) => id in s.history && s.history[id].room == room && id !in s.table
    case Cleared(_) => true
  }

  ghost predicate ClientOk(s: State, c: Client) {
    && c.home in s.inboxes
    && Genuine(s, View(c), c.room)
    && (c.phase.Listed? ==> Genuine(s, c.phase.snapshot, c.room))
  }

  ghost predicate WellFormed(s: State) {
    && (forall id :: id in s.history ==> s.history[id].id == id)
    && (forall id :: id in s.table ==> id in s.history && s.history[id] == s.table[id])
    && (forall n :: Known(s, n) ==> n.origin in s.inboxes && NoticeOk(s, n.event))
    && (forall i :: i in s.relays ==> i in s.inboxes && s.relays[i].id in s.history
                                      && s.history[s.relays[i].id] == s.relays[i])
    && (forall c :: c in s.clients ==> ClientOk(s, s.clients[c]))
  }

  function Init(instances: set<InstanceId>): State {
    State(map[], map[], map[], multiset{}, multiset{}, map i | i in instances :: [], map[])
  }

  lemma InitWellFormed(instances: set<InstanceId>)
    ensures WellFormed(Init(instances))
  {
  }

  lemma KnownShrinks(s: State, t: State)
    requires forall n :: n in t.unsaid ==> n in s.unsaid || n in s.outbox
    requires forall n :: n in t.outbox ==> n in s.unsaid || n in s.outbox
    requires forall i, n :: i in t.inboxes && n in t.inboxes[i] ==> Known(s, n)
    ensures forall n :: Known(t, n) ==> Known(s, n)
  {
  }

  // Only the clients (and queues) moved: everything the replicas may hold is still genuine.
  lemma BroadcastKeepsClients(s: State, t: State, at: InstanceId, room: RoomCode, frame: Frame)
    requires WellFormed(s)
    requires t.history == s.history && t.inboxes.Keys == s.inboxes.Keys
    requires t.clients == Broadcast(s.clients, at, room, frame)
    requires frame.ItemCreated? ==> frame.item.room == room && frame.item.id in s.history
                                    && s.history[frame.item.id] == frame.item
    requires !frame.Welcome?
    ensures forall c :: c in t.clients ==> ClientOk(t, t.clients[c])
  {
    BroadcastViews(s.clients, at, room, frame);
    forall c | c in t.clients
      ensures ClientOk(t, t.clients[c])
    {
      assert ClientOk(s, s.clients[c]);
      assert forall id :: id in View(t.clients[c]) ==>
        || (id in View(s.clients[c]) && View(t.clients[c])[id] == View(s.clients[c])[id])
        || (frame.ItemCreated? && View(t.clients[c])[id] == frame.item && id == frame.item.id);
    }
  }

  lemma ClientsStillOk(s: State, t: State)
    requires WellFormed(s)
    requires t.clients == s.clients && t.inboxes.Keys == s.inboxes.Keys
    requires forall id :: id in s.history ==> id in t.history && t.history[id] == s.history[id]
    ensures forall c :: c in t.clients ==> ClientOk(t, t.clients[c])
  {
    forall c | c in t.clients
      ensures ClientOk(t, t.clients[c])
    {
      assert ClientOk(s, s.clients[c]);
    }
  }

  lemma StoringKeepsWellFormed(s: State, step: Step)
    requires WellFormed(s) && Enabled(s, step)
    requires step.Store? || step.Remove? || step.Empty?
    ensures WellFormed(Next(s, step))
  {
    var t := Next(s, step);
    var n := Notice(step.at, match step
                             case Store(_, item) => Created(item.id)
                             case Remove(_, room, id) => Deleted(room, id)
                             case Empty(_, room) => Cleared(room)
                             case _ => Cleared(""));
    forall m | Known(t, m) ensures m.origin in t.inboxes && NoticeOk(t, m.event) {
      if m != n {
        assert Known(s, m);
        assert NoticeOk(s, m.event);
      }
    }
    ClientsStillOk(s, t);
  }

  lemma AnnouncingKeepsWellFormed(s: State, n: Notice)
    requires WellFormed(s) && Enabled(s, Announce(n))
    ensures WellFormed(Next(s, Announce(n)))
  {
    var t := Next(s, Announce(n));
    assert Known(s, n);
    KnownShrinks(s, t);
    BroadcastKeepsClients(s, t, n.origin, RoomOf(s, n.event), FrameFor(s, n.event));
  }

  lemma PublishingKeepsWellFormed(s: State, n: Notice)
    requires WellFormed(s) && Enabled(s, Publish(n))
    ensures WellFormed(Next(s, Publish(n)))
  {
    var t := Next(s, Publish(n));
    assert Known(s, n);
    forall i, m | i in t.inboxes && m in t.inboxes[i] ensures Known(s, m) {
      assert m in s.inboxes[i] || m == n;
    }
    KnownShrinks(s, t);
    ClientsStillOk(s, t);
  }

  // Storage untouched and no new notice: only the replicas need checking.
  lemma ReplicasDecide(s: State, t: State)
    requires WellFormed(s)
    requires t.table == s.table && t.history == s.history && t.inboxes.Keys == s.inboxes.Keys
    requires forall i :: i in t.relays ==> (i in s.relays && t.relays[i] == s.relays[i])
                                           || (i in s.inboxes && t.relays[i] in s.table.Values)
    requires forall n :: Known(t, n) ==> Known(s, n)
    requires forall c :: c in t.clients ==> ClientOk(t, t.clients[c])
    ensures WellFormed(t)
  {
    forall n | Known(t, n) ensures n.origin in t.inboxes && NoticeOk(t, n.event) {
      assert NoticeOk(s, n.event);
    }
  }

  lemma PopIsKnown(s: State, t: State, at: InstanceId)
    requires at in s.inboxes && s.inboxes[at] != []
    requires t.unsaid == s.unsaid && t.outbox == s.outbox
    requires t.inboxes == s.inboxes[at := s.inboxes[at][1..]]
    ensures forall n :: Known(t, n) ==> Known(s, n)
    ensures Known(s, s.inboxes[at][0])
  {
    forall i, m | i in t.inboxes && m in t.inboxes[i] ensures Known(s, m) {
      assert m in s.inboxes[i];
    }
    assert s.inboxes[at][0] in s.inboxes[at];
  }

  lemma TakingKeepsWellFormed(s: State, at: InstanceId)
    requires WellFormed(s) && Enabled(s, Take(at))
    ensures WellFormed(Next(s, Take(at)))
  {
    var t := Next(s, Take(at));
    var n := s.inboxes[at][0];
    PopIsKnown(s, t, at);
    assert NoticeOk(s, n.event);
    if n.origin != at && !n.event.Created? {
      BroadcastKeepsClients(s, t, at, RoomOf(s, n.event), FrameFor(s, n.event));
    } else {
      ClientsStillOk(s, t);
    }
    ReplicasDecide(s, t);
  }

  lemma DroppingKeepsWellFormed(s: State, step: Step)
    requires WellFormed(s) && Enabled(s, step) && Dropping(step)
    ensures WellFormed(Next(s, step))
  {
    var t := Next(s, step);
    if step.Unheard? || step.LoadFails? {
      PopIsKnown(s, t, step.at);
    } else {
      KnownShrinks(s, t);
    }
    ClientsStillOk(s, t);
    ReplicasDecide(s, t);
  }

  lemma RelayingKeepsWellFormed(s: State, at: InstanceId)
    requires WellFormed(s) && Enabled(s, Relay(at))
    ensures WellFormed(Next(s, Relay(at)))
  {
    var t := Next(s, Relay(at));
    KnownShrinks(s, t);
    BroadcastKeepsClients(s, t, at, s.relays[at].room, ItemCreated(s.relays[at]));
  }

  // What a client step does to the replica it touches.
  lemma ActView(s: State, c: ClientId, act: Act)
    requires c in s.clients <==> !act.Register?
    requires ActEnabled(s, c, act)
    ensures act.Register? ==> View(ActOn(s, c, act).value) == map[]
    ensures act.Greet? ==> View(ActOn(s, c, act).value) == s.clients[c].phase.snapshot
    ensures act.List? || act.ListFails? || act.Receive? ==>
      View(ActOn(s, c, act).value) == View(s.clients[c])
  {
    if act.Greet? {
      DrainAppend(s.clients[c].items, s.clients[c].pending, Welcome(s.clients[c].phase.snapshot));
    }
  }

  lemma ActKeepsClientOk(s: State, c: ClientId, act: Act)
    requires WellFormed(s) && Enabled(s, Socket(c, act)) && !act.Leave?
    ensures ClientOk(s, ActOn(s, c, act).value)
  {
    ActView(s, c, act);
    if !act.Register? {
      assert ClientOk(s, s.clients[c]);
    }
  }

  lemma ActingKeepsWellFormed(s: State, c: ClientId, act: Act)
    requires WellFormed(s) && Enabled(s, Socket(c, act))
    ensures WellFormed(Next(s, Socket(c, act)))
  {
    var t := Next(s, Socket(c, act));
    if !act.Leave? { ActKeepsClientOk(s, c, act); }
    KnownShrinks(s, t);
    forall k | k in t.clients ensures ClientOk(t, t.clients[k]) {
      assert ClientOk(s, t.clients[k]);
    }
    ReplicasDecide(s, t);
  }

  lemma StepKeepsWellFormed(s: State, step: Step)
    requires WellFormed(s) && Enabled(s, step)
    ensures WellFormed(Next(s, step))
  {
    match step
    case Announce(n) => AnnouncingKeepsWellFormed(s, n);
    case Publish(n) => PublishingKeepsWellFormed(s, n);
    case Take(at) => TakingKeepsWellFormed(s, at);
    case Relay(at) => RelayingKeepsWellFormed(s, at);
    case Socket(c, act) => ActingKeepsWellFormed(s, c, act);
    case Store(_, _) => StoringKeepsWellFormed(s, step);
    case Remove(_, _, _) => StoringKeepsWellFormed(s, step);
    case Empty(_, _) => StoringKeepsWellFormed(s, step);
    case _ => DroppingKeepsWellFormed(s, step);
  }
}
