/** The handlers of one instance and of one browser tab, as they update their
    own objects, tied to the steps of the whole system. */
module Fanout {
  import opened Sync
  import opened SyncSafety
  import opened SyncWhole

  // What the database holds when an item is looked up, and whether it answers in time.
  datatype Database = Database(table: map<ItemId, Item>, answers: bool) {
    predicate Finds(id: ItemId) { answers && id in table }
  }

  // What handling one notification does to an instance's clients.
  function Handled(clients: map<ClientId, Client>, at: InstanceId, n: Notice, db: Database)
    : map<ClientId, Client>
  {
    if n.origin == at then clients
    else match n.event
      case Created(id) =>
        if db.Finds(id) then Broadcast(clients, at, db.table[id].room, ItemCreated(db.table[id])) else clients
      case Deleted(room, id) => Broadcast(clients, at, room, ItemDeleted(id))
      case Cleared(room) => Broadcast(clients, at, room, RoomCleared)
  }

  // dbs[j] is the database while notification j is handled.
  function HandledAll(clients: map<ClientId, Client>, at: InstanceId, ns: seq<Notice>, dbs: seq<Database>)
    : map<ClientId, Client>
    requires |dbs| == |ns|
    decreases |ns|
  {
    if ns == [] then clients
    else
      var last := |ns| - 1;
      Handled(HandledAll(clients, at, ns[..last], dbs[..last]), at, ns[last], dbs[last])
  }

  /* ── What listening does to a queue ──────────────────────────────────── */

  // The listener at that instance makes the room hear the frame.
  predicate Tells(at: InstanceId, n: Notice, db: Database, room: RoomCode, frame: Frame) {
    n.origin != at &&
    match n.event
    case Created(id) => db.answers && id in db.table && db.table[id].room == room && frame == ItemCreated(db.table[id])
    case Deleted(r, id) => r == room && frame == ItemDeleted(id)
    case Cleared(r) => r == room && frame == RoomCleared
  }

  ghost predicate TellsNothing(at: InstanceId, n: Notice, db: Database, room: RoomCode) {
    forall frame :: !Tells(at, n, db, room, frame)
  }

  // heard lists, in order, exactly the notices that tell the room something, and frames what they tell.
  ghost predicate Hearings(at: InstanceId, ns: seq<Notice>, dbs: seq<Database>, room: RoomCode,
                           heard: seq<nat>, frames: seq<Frame>)
    requires |dbs| == |ns|
  {
    && |heard| == |frames|
    && (forall i :: 0 <= i < |heard| ==> heard[i] < |ns| && Tells(at, ns[heard[i]], dbs[heard[i]], room, frames[i]))
    && (forall i, j :: 0 <= i < j < |heard| ==> heard[i] < heard[j])
    && (forall j, frame :: 0 <= j < |ns| && Tells(at, ns[j], dbs[j], room, frame) ==> j in heard)
  }

  ghost predicate GrowsBy(c: Client, d: Client, at: InstanceId, ns: seq<Notice>, dbs: seq<Database>,
                          heard: seq<nat>, frames: seq<Frame>)
    requires |dbs| == |ns|
  {
    Hearings(at, ns, dbs, c.room, heard, frames) && d == c.(pending := c.pending + frames)
  }

  // A client's queue has grown by one frame for each of them, if it is this instance's client.
  ghost predicate QueueGrows(c: Client, d: Client, at: InstanceId, ns: seq<Notice>, dbs: seq<Database>)
    requires |dbs| == |ns|
  {
    if c.home != at then d == c else exists heard, frames :: GrowsBy(c, d, at, ns, dbs, heard, frames)
  }

  lemma HandlingQueues(clients: map<ClientId, Client>, at: InstanceId, n: Notice, db: Database, k: ClientId, frame: Frame)
    requires k in clients
    ensures var after := Handled(clients, at, n, db); var c := clients[k];
      && after.Keys == clients.Keys
      && (c.home == at && Tells(at, n, db, c.room, frame) ==> after[k] == c.(pending := c.pending + [frame]))
      && (c.home != at || TellsNothing(at, n, db, c.room) ==> after[k] == c)
  {
    if n.origin != at && !(n.event.Created? && !db.Finds(n.event.id)) {
      var told := match n.event
        case Created(id) => ItemCreated(db.table[id])
        case Deleted(_, id) => ItemDeleted(id)
        case Cleared(_) => RoomCleared;
      var room := match n.event
        case Created(id) => db.table[id].room
        case Deleted(r, _) => r
        case Cleared(r) => r;
      assert clients[k].room == room ==> Tells(at, n, db, clients[k].room, told);
    }
  }

  lemma {:induction false} ListeningQueues(clients: map<ClientId, Client>, at: InstanceId, ns: seq<Notice>,
                                           dbs: seq<Database>, k: ClientId)
    requires |dbs| == |ns| && k in clients
    ensures k in HandledAll(clients, at, ns, dbs)
    ensures QueueGrows(clients[k], HandledAll(clients, at, ns, dbs)[k], at, ns, dbs)
    decreases |ns|
  {
    var c := clients[k];
    if ns == [] {
      if c.home == at {
        assert GrowsBy(c, c, at, ns, dbs, [], []) by { assert c.pending + [] == c.pending; }
      }
    } else {
      var last := |ns| - 1;
      var before := HandledAll(clients, at, ns[..last], dbs[..last]);
      ListeningQueues(clients, at, ns[..last], dbs[..last], k);
      if frame :| Tells(at, ns[last], dbs[last], c.room, frame) {
        HandlingQueues(before, at, ns[last], dbs[last], k, frame);
        if c.home == at {
          var heard, frames :| GrowsBy(c, before[k], at, ns[..last], dbs[..last], heard, frames);
          OneMoreHeard(at, ns, dbs, c.room, heard, frames, frame);
          assert c.pending + frames + [frame] == c.pending + (frames + [frame]);
          assert GrowsBy(c, HandledAll(clients, at, ns, dbs)[k], at, ns, dbs, heard + [last], frames + [frame]);
        }
      } else {
        HandlingQueues(before, at, ns[last], dbs[last], k, RoomCleared);
        if c.home == at {
          var heard, frames :| GrowsBy(c, before[k], at, ns[..last], dbs[..last], heard, frames);
          NoMoreHeard(at, ns, dbs, c.room, heard, frames);
          assert GrowsBy(c, HandledAll(clients, at, ns, dbs)[k], at, ns, dbs, heard, frames);
        }
      }
    }
  }

  lemma {:induction false} HandlingKeepsKeys(clients: map<ClientId, Client>, at: InstanceId, ns: seq<Notice>,
                                             dbs: seq<Database>)
    requires |dbs| == |ns|
    ensures HandledAll(clients, at, ns, dbs).Keys == clients.Keys
    decreases |ns|
  {
    if ns != [] {
      HandlingKeepsKeys(clients, at, ns[..|ns| - 1], dbs[..|ns| - 1]);
    }
  }

  lemma OneMoreHeard(at: InstanceId, ns: seq<Notice>, dbs: seq<Database>, room: RoomCode,
                     heard: seq<nat>, frames: seq<Frame>, frame: Frame)
    requires |dbs| == |ns| > 0
    requires Hearings(at, ns[..|ns| - 1], dbs[..|ns| - 1], room, heard, frames)
    requires Tells(at, ns[|ns| - 1], dbs[|ns| - 1], room, frame)
    ensures Hearings(at, ns, dbs, room, heard + [|ns| - 1], frames + [frame])
  {
    var last: nat := |ns| - 1;
    var all := heard + [last];
    assert all[|heard|] == last;
    forall j, f | 0 <= j < |ns| && Tells(at, ns[j], dbs[j], room, f) ensures j in all {
      if j < last { assert ns[..last][j] == ns[j] && dbs[..last][j] == dbs[j] && j in heard; }
    }
  }

  lemma NoMoreHeard(at: InstanceId, ns: seq<Notice>, dbs: seq<Database>, room: RoomCode,
                    heard: seq<nat>, frames: seq<Frame>)
    requires |dbs| == |ns| > 0
    requires Hearings(at, ns[..|ns| - 1], dbs[..|ns| - 1], room, heard, frames)
    requires TellsNothing(at, ns[|ns| - 1], dbs[|ns| - 1], room)
    ensures Hearings(at, ns, dbs, room, heard, frames)
  {
    var last := |ns| - 1;
    forall j, f | 0 <= j < |ns| && Tells(at, ns[j], dbs[j], room, f) ensures j in heard {
      assert j < last && ns[..last][j] == ns[j] && dbs[..last][j] == dbs[j];
    }
  }

  class Instance {
    const id: InstanceId
    var clients: map<ClientId, Client>
    var published: seq<Notice>

    constructor (id: InstanceId)
      ensures this.id == id && clients == map[] && published == []
    {
      this.id := id;
      clients, published := map[], [];
    }

    // Everyone in the room on this instance, one after another, in no particular order.
    method BroadcastFrame(room: RoomCode, frame: Frame)
      modifies this`clients
      ensures clients == Broadcast(old(clients), id, room, frame)
    {
      var todo := clients.Keys;
      while todo != {}
        invariant todo <= clients.Keys && clients.Keys == old(clients).Keys
        invariant forall k :: k in todo ==> clients[k] == old(clients)[k]
        invariant forall k :: k in clients && k !in todo ==>
          clients[k] == Broadcast(old(clients), id, room, frame)[k]
        decreases |todo|
      {
        var k :| k in todo;
        var c := clients[k];
        if c.home == id && c.room == room {
          c := c.(pending := c.pending + [frame]);
          clients := clients[k := c];
        }
        todo := todo - {k};
      }
    }

    method FanoutItemCreated(item: Item)
      modifies this
      ensures clients == Broadcast(old(clients), id, item.room, ItemCreated(item))
      ensures published == old(published) + [Notice(id, Created(item.id))]
    {
      BroadcastFrame(item.room, ItemCreated(item));
      published := published + [Notice(id, Created(item.id))];
    }

    method FanoutItemDeleted(room: RoomCode, item: ItemId)
      modifies this
      ensures clients == Broadcast(old(clients), id, room, ItemDeleted(item))
      ensures published == old(published) + [Notice(id, Deleted(room, item))]
    {
      BroadcastFrame(room, ItemDeleted(item));
      published := published + [Notice(id, Deleted(room, item))];
    }

    method FanoutRoomCleared(room: RoomCode)
      modifies this
      ensures clients == Broadcast(old(clients), id, room, RoomCleared)
      ensures published == old(published) + [Notice(id, Cleared(room))]
    {
      BroadcastFrame(room, RoomCleared);
      published := published + [Notice(id, Cleared(room))];
    }

    // The item of a creation is looked up; any error of that, not only its absence, drops the event.
    method HandleRemoteEvent(event: Event, db: Database, ghost origin: InstanceId)
      requires origin != id
      modifies this`clients
      ensures clients == Handled(old(clients), id, Notice(origin, event), db)
    {
      match event {
        case Created(item) =>
          if !db.answers || item !in db.table {
            return;
          }
          BroadcastFrame(db.table[item].room, ItemCreated(db.table[item]));
        case Deleted(room, item) =>
          BroadcastFrame(room, ItemDeleted(item));
        case Cleared(room) =>
          BroadcastFrame(room, RoomCleared);
      }
    }

    // The listener: in order, skipping what this instance published itself.
    method ListenOnce(notifications: seq<Notice>, dbs: seq<Database>)
      requires |dbs| == |notifications|
      modifies this`clients
      ensures clients == HandledAll(old(clients), id, notifications, dbs)
      // each queue has grown by just the frames of the foreign notices its room hears, in order
      ensures clients.Keys == old(clients).Keys
      ensures forall k :: k in clients ==> QueueGrows(old(clients)[k], clients[k], id, notifications, dbs)
    {
      var i := 0;
      while i < |notifications|
        invariant 0 <= i <= |notifications|
        invariant clients == HandledAll(old(clients), id, notifications[..i], dbs[..i])
      {
        var n := notifications[i];
        assert notifications[..i + 1][..i] == notifications[..i];
        assert dbs[..i + 1][..i] == dbs[..i];
        if n.origin != id {
          HandleRemoteEvent(n.event, dbs[i], n.origin);
        }
        i := i + 1;
      }
      assert notifications[..i] == notifications && dbs[..i] == dbs;
      HandlingKeepsKeys(old(clients), id, notifications, dbs);
      forall k | k in clients ensures QueueGrows(old(clients)[k], clients[k], id, notifications, dbs) {
        ListeningQueues(old(clients), id, notifications, dbs, k);
      }
    }
  }

  class Replica {
    var items: map<ItemId, Item>

    method HandleServerMessage(frame: Frame)
      modifies this
      ensures items == Apply(old(items), frame)
    {
      match frame {
        case Welcome(snapshot) =>
          items := map[];
          var todo := snapshot.Keys;
          while todo != {}
            invariant todo <= snapshot.Keys && items.Keys == snapshot.Keys - todo
            invariant forall id :: id in items ==> items[id] == snapshot[id]
            decreases |todo|
          {
            var id :| id in todo;
            items := items[id := snapshot[id]];
            todo := todo - {id};
          }
        case ItemCreated(item) => items := items[item.id := item];
        case ItemDeleted(id) => items := items - {id};
        case RoomCleared => items := map[];
      }
    }
  }

  // A delivery that loads an item is one call of the handler,
  lemma LoadIsHandled(s: State, at: InstanceId)
    requires WellFormed(s) && Idle(s) && Runs(s, [Take(at), Relay(at)]) && Loads(s, at)
    ensures After(s, [Take(at), Relay(at)]).clients == Handled(s.clients, at, s.inboxes[at][0], Database(s.table, true))
  {
    TwoSteps(s, Take(at), Relay(at));
    TakenItemIsLoaded(s, at);
  }

  // and so is any other,
  lemma TakeIsHandled(s: State, at: InstanceId)
    requires WellFormed(s) && Idle(s) && Enabled(s, Take(at)) && !Loads(s, at)
    ensures Next(s, Take(at)).clients == Handled(s.clients, at, s.inboxes[at][0], Database(s.table, true))
  {
    PopIsKnown(s, Next(s, Take(at)), at);
  }

  // so every delivery in the system model is one call of the handler.
  lemma DeliveryIsHandled(s: State, at: InstanceId)
    requires WellFormed(s) && Idle(s) && Runs(s, Expand(s, Deliver(at)))
    ensures at in s.inboxes && s.inboxes[at] != []
    ensures After(s, Expand(s, Deliver(at))).clients == Handled(s.clients, at, s.inboxes[at][0], Database(s.table, true))
  {
    if Loads(s, at) {
      TwoSteps(s, Take(at), Relay(at));
      LoadIsHandled(s, at);
    } else {
      OneStep(s, Take(at));
      TakeIsHandled(s, at);
    }
  }

  // A delivery whose item cannot be loaded is the call that finds the database failing.
  lemma MissIsHandled(s: State, at: InstanceId)
    requires WellFormed(s) && Idle(s) && Runs(s, Expand(s, Miss(at)))
    ensures at in s.inboxes && s.inboxes[at] != []
    ensures var t := After(s, Expand(s, Miss(at)));
      && t.clients == Handled(s.clients, at, s.inboxes[at][0], Database(s.table, false))
      && t.inboxes == s.inboxes[at := s.inboxes[at][1..]] && t.relays == map[]
  {
    OneStep(s, LoadFails(at));
  }

  // What a whole operation announces: its own clients are told, one notice is on its way
  // to be published, and nothing else is.
  ghost predicate Announced(s: State, t: State, at: InstanceId, room: RoomCode, frame: Frame, n: Notice) {
    && t.clients == Broadcast(s.clients, at, room, frame)
    && t.unsaid == s.unsaid && t.outbox == s.outbox + multiset{n} && t.inboxes == s.inboxes
  }

  // Storing an item and calling FanoutItemCreated is the creation of the system model,
  lemma CreationIsFannedOut(s: State, at: InstanceId, item: Item)
    requires WellFormed(s) && Idle(s) && Runs(s, Expand(s, Create(at, item)))
    ensures var t := After(s, Expand(s, Create(at, item)));
      && t.table == s.table[item.id := item]
      && Announced(s, t, at, item.room, ItemCreated(item), Notice(at, Created(item.id)))
  {
    TwoSteps(s, Store(at, item), Announce(Notice(at, Created(item.id))));
  }

  // deleting one and calling FanoutItemDeleted is its deletion,
  lemma DeletionIsFannedOut(s: State, at: InstanceId, room: RoomCode, id: ItemId)
    requires WellFormed(s) && Idle(s) && Runs(s, Expand(s, Delete(at, room, id)))
    ensures var t := After(s, Expand(s, Delete(at, room, id)));
      && t.table == s.table - {id}
      && Announced(s, t, at, room, ItemDeleted(id), Notice(at, Deleted(room, id)))
  {
    TwoSteps(s, Remove(at, room, id), Announce(Notice(at, Deleted(room, id))));
  }

  // and emptying a room and calling FanoutRoomCleared is its clear.
  lemma ClearIsFannedOut(s: State, at: InstanceId, room: RoomCode)
    requires WellFormed(s) && Idle(s) && Runs(s, Expand(s, Clear(at, room)))
    ensures var t := After(s, Expand(s, Clear(at, room)));
      && t.table == s.table - RoomIds(s.table, room)
      && Announced(s, t, at, room, RoomCleared, Notice(at, Cleared(room)))
  {
    TwoSteps(s, Empty(at, room), Announce(Notice(at, Cleared(room))));
  }

  /* ── A socket that joins ─────────────────────────────────────────────── */

  // A client just greeted with the items it listed.
  function Newcomer(at: InstanceId, room: RoomCode, items: map<ItemId, Item>): Client {
    Client(at, room, Greeted, map[], [Welcome(items)])
  }

  lemma NewcomerView(at: InstanceId, room: RoomCode, items: map<ItemId, Item>)
    ensures View(Newcomer(at, room, items)) == items
  {
    assert [] + [Welcome(items)] == [Welcome(items)];
    DrainAppend(map[], [], Welcome(items));
  }

  lemma GreetingAddsNewcomer(s: State, t: State, c: ClientId, at: InstanceId, room: RoomCode, items: map<ItemId, Item>)
    requires WellFormed(t) && Enabled(t, Socket(c, Greet))
    requires t == s.(clients := s.clients[c := Client(at, room, Listed(items), map[], [])])
    ensures Next(t, Socket(c, Greet)) == s.(clients := s.clients[c := Newcomer(at, room, items)])
  {
    assert [] + [Welcome(items)] == [Welcome(items)];
    var clients := t.clients[c := Newcomer(at, room, items)];
    assert clients == s.clients[c := Newcomer(at, room, items)];
  }

  lemma JoinAddsNewcomer(s: State, c: ClientId, at: InstanceId, room: RoomCode, act: Act)
    requires WellFormed(s) && Runs(s, Joining(c, at, room, act)) && (act.List? || act.ListFails?)
    ensures After(s, Joining(c, at, room, act)) == s.(clients := s.clients[c := Newcomer(at, room, Shown(s, act))])
  {
    var t := JoinStages(s, c, at, room, act);
    GreetingAddsNewcomer(s, t, c, at, room, Shown(s, act));
  }

  // It is welcomed with all items of the room, or with the newest 200 if there are more.
  lemma JoinShowsTheNewest(s: State, c: ClientId, at: InstanceId, room: RoomCode, page: set<ItemId>)
    requires WellFormed(s) && Runs(s, Expand(s, Join(c, at, room, page)))
    ensures var t := After(s, Expand(s, Join(c, at, room, page)));
      && c in t.clients
      && var shown, all := View(t.clients[c]), RoomItems(s.table, room);
         && (|all| <= 200 ==> shown == all)
         && (|all| > 200 ==> |shown| == 200)
         && (forall x :: x in shown ==> x in all && shown[x] == all[x])
         && (forall x, y :: x in shown && y in all && y !in shown ==> all[x].createdAt >= all[y].createdAt)
  {
    JoinAddsNewcomer(s, c, at, room, List(page));
    NewcomerView(at, room, Rows(s.table, page));
    var u := JoinStages(s, c, at, room, List(page));
    var ids, all := RoomIds(s.table, room), RoomItems(s.table, room);
    assert all.Keys == ids && |all| == |all.Keys|;
    assert Rows(s.table, page).Keys == page && |Rows(s.table, page)| == |Rows(s.table, page).Keys|;
    if |ids| <= 200 {
      SameSize(page, ids);
    }
  }

  lemma SameSize(a: set<ItemId>, b: set<ItemId>)
    requires a <= b && |a| == |b|
    ensures a == b
  {
    assert b == a + (b - a);
  }
}
