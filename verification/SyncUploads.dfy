/** Uploads that nobody disturbs.

    While the files of an upload are stored but not yet announced, nobody knows of
    them, unless a socket joins and lists them, or their room is cleared. As long as
    neither happens, no row goes without a word otherwise, and the bus drops nothing,
    no deleted item survives. */
module SyncUploads {
  import opened Sync
  import opened SyncSafety
  import opened SyncConvergence
  import opened SyncWhole
  import opened SyncSilent
  import opened SyncRuns
  import opened Fanout

  ghost predicate Told(s: State, n: Notice) {
    n in s.outbox || exists i :: i in s.inboxes && n in s.inboxes[i]
  }

  // Published by somebody, or about to be.
  ghost predicate Underway(s: State, event: Event) { exists o: InstanceId :: Told(s, Notice(o, event)) }

  predicate ShownBy(s: State, k: ClientId, id: ItemId) { k in s.clients && id in View(s.clients[k]) }

  // The one notice of a stored item that no client has heard of.
  ghost predicate Private(s: State, n: Notice) {
    && n.event.Created? && s.unsaid[n] == 1 && n.event.id in s.table
    && (forall m :: m in s.unsaid && m.event == n.event ==> m == n)
    && (forall k :: !ShownBy(s, k, n.event.id))
    && !Underway(s, n.event)
  }

  ghost predicate UploadsArePrivate(s: State) { forall n :: n in s.unsaid ==> Private(s, n) }

  predicate Pending(s: State, id: ItemId) { exists n :: n in s.unsaid && n.event == Created(id) }

  // The operation lists, deletes or clears no item whose upload has not ended, removes
  // nothing else without a word, and the bus drops nothing.
  predicate Undisturbed(s: State, w: Whole) {
    match w
    case Join(_, _, _, page) => forall id :: id in page ==> !Pending(s, id)
    case Delete(_, _, id) => !Pending(s, id)
    case Clear(_, room) => forall id :: id in RoomIds(s.table, room) ==> !Pending(s, id)
    case Withdraw(_, _, _) => false
    case Wipe(_, _) => false
    case Drop(_) => false
    case Skip(_) => false
    case _ => true
  }

  ghost predicate UndisturbedRun(s: State, ws: seq<Whole>)
    requires WellFormed(s) && WholeRuns(s, ws)
    decreases |ws|
  {
    ws == [] || (Undisturbed(s, ws[0]) && UndisturbedRun(After(s, Expand(s, ws[0])), ws[1..]))
  }

  lemma PrivacyStays(s: State, t: State)
    requires UploadsArePrivate(s) && t.unsaid <= s.unsaid
    requires forall n :: n in t.unsaid ==> n.event.Created? && n.event.id in t.table
    requires forall n :: n in t.unsaid && Underway(t, n.event) ==> Underway(s, n.event)
    requires forall n, k :: n in t.unsaid && n.event.Created? && ShownBy(t, k, n.event.id) ==> ShownBy(s, k, n.event.id)
    ensures UploadsArePrivate(t)
  {
    forall n | n in t.unsaid ensures Private(t, n) {
      assert n in s.unsaid && Private(s, n);
    }
  }

  /* ── Operations on what is announced ─────────────────────────────────── */

  lemma BroadcastShowsNoMore(s: State, t: State, at: InstanceId, room: RoomCode, frame: Frame, k: ClientId, id: ItemId)
    requires t.clients == Broadcast(s.clients, at, room, frame) && !frame.Welcome?
    requires frame.ItemCreated? ==> frame.item.id != id
    requires ShownBy(t, k, id)
    ensures ShownBy(s, k, id)
  {
    BroadcastViews(s.clients, at, room, frame);
  }

  // Told of something else, the clients still know of no upload.
  lemma BroadcastKeepsPrivacy(s: State, t: State, at: InstanceId, room: RoomCode, frame: Frame)
    requires UploadsArePrivate(s) && t.unsaid <= s.unsaid
    requires t.clients == Broadcast(s.clients, at, room, frame) && !frame.Welcome?
    requires forall n :: n in t.unsaid ==> n.event.Created? && n.event.id in t.table
    requires forall n :: n in t.unsaid && frame.ItemCreated? ==> n.event != Created(frame.item.id)
    requires forall n :: n in t.unsaid && Underway(t, n.event) ==> Underway(s, n.event)
    ensures UploadsArePrivate(t)
  {
    forall n, k | n in t.unsaid && n.event.Created? && ShownBy(t, k, n.event.id)
      ensures ShownBy(s, k, n.event.id)
    {
      assert n.event == Created(n.event.id);
      BroadcastShowsNoMore(s, t, at, room, frame, k, n.event.id);
    }
    PrivacyStays(s, t);
  }

  lemma OneMoreUnderway(s: State, t: State, n: Notice, event: Event)
    requires t.outbox == s.outbox + multiset{n} && t.inboxes == s.inboxes && event != n.event
    ensures Underway(t, event) ==> Underway(s, event)
  {
    assert forall o: InstanceId :: Told(t, Notice(o, event)) ==> Told(s, Notice(o, event));
  }

  lemma AnnouncementKeepsPrivacy(s: State, t: State, at: InstanceId, room: RoomCode, frame: Frame, n: Notice)
    requires UploadsArePrivate(s) && Announced(s, t, at, room, frame, n) && !frame.Welcome?
    requires forall m :: m in s.unsaid ==> m.event != n.event && m.event.Created? && m.event.id in t.table
    requires frame.ItemCreated? ==> n.event == Created(frame.item.id)
    ensures UploadsArePrivate(t)
  {
    forall m | m in t.unsaid && Underway(t, m.event) ensures Underway(s, m.event) {
      OneMoreUnderway(s, t, n, m.event);
    }
    BroadcastKeepsPrivacy(s, t, at, room, frame);
  }

  lemma PendingIsStored(s: State, n: Notice)
    requires WellFormed(s) && UploadsArePrivate(s) && n in s.unsaid
    ensures n.event.Created? && n.event.id in s.table && n.event.id in s.history && Pending(s, n.event.id)
  {
    assert Private(s, n);
  }

  lemma CreateKeepsPrivacy(s: State, at: InstanceId, item: Item)
    requires WellFormed(s) && Idle(s) && UploadsArePrivate(s) && Runs(s, Expand(s, Create(at, item)))
    ensures UploadsArePrivate(After(s, Expand(s, Create(at, item))))
  {
    var t := After(s, Expand(s, Create(at, item)));
    CreationIsFannedOut(s, at, item);
    TwoSteps(s, Store(at, item), Announce(Notice(at, Created(item.id))));
    forall m | m in s.unsaid ensures m.event != Created(item.id) && m.event.Created? && m.event.id in t.table {
      PendingIsStored(s, m);
    }
    AnnouncementKeepsPrivacy(s, t, at, item.room, ItemCreated(item), Notice(at, Created(item.id)));
  }

  lemma DeleteKeepsPrivacy(s: State, at: InstanceId, room: RoomCode, id: ItemId)
    requires WellFormed(s) && Idle(s) && UploadsArePrivate(s) && Runs(s, Expand(s, Delete(at, room, id)))
    requires !Pending(s, id)
    ensures UploadsArePrivate(After(s, Expand(s, Delete(at, room, id))))
  {
    var t := After(s, Expand(s, Delete(at, room, id)));
    DeletionIsFannedOut(s, at, room, id);
    forall m | m in s.unsaid ensures m.event.Created? && m.event.id in t.table {
      PendingIsStored(s, m);
    }
    AnnouncementKeepsPrivacy(s, t, at, room, ItemDeleted(id), Notice(at, Deleted(room, id)));
  }

  lemma ClearKeepsPrivacy(s: State, at: InstanceId, room: RoomCode)
    requires WellFormed(s) && Idle(s) && UploadsArePrivate(s) && Runs(s, Expand(s, Clear(at, room)))
    requires Undisturbed(s, Clear(at, room))
    ensures UploadsArePrivate(After(s, Expand(s, Clear(at, room))))
  {
    var t := After(s, Expand(s, Clear(at, room)));
    ClearIsFannedOut(s, at, room);
    forall m | m in s.unsaid ensures m.event.Created? && m.event.id in t.table {
      PendingIsStored(s, m);
    }
    AnnouncementKeepsPrivacy(s, t, at, room, RoomCleared, Notice(at, Cleared(room)));
  }

  lemma SendKeepsPrivacy(s: State, n: Notice)
    requires WellFormed(s) && Idle(s) && UploadsArePrivate(s) && Runs(s, Expand(s, Send(n)))
    ensures UploadsArePrivate(After(s, Expand(s, Send(n))))
  {
    OneStep(s, Publish(n));
    var t := Next(s, Publish(n));
    forall m | m in t.unsaid && Underway(t, m.event) ensures Underway(s, m.event) {
      SendingIsUnderway(s, n, m.event);
    }
    forall m | m in t.unsaid ensures m.event.Created? && m.event.id in t.table {
      PendingIsStored(s, m);
    }
    PrivacyStays(s, t);
  }

  lemma SendingIsUnderway(s: State, n: Notice, event: Event)
    requires WellFormed(s) && Enabled(s, Publish(n)) && Underway(Next(s, Publish(n)), event)
    ensures Underway(s, event)
  {
    var t := Next(s, Publish(n));
    var o: InstanceId :| Told(t, Notice(o, event));
    var m := Notice(o, event);
    if m !in t.outbox {
      var i :| i in t.inboxes && m in t.inboxes[i];
      assert t.inboxes[i] == s.inboxes[i] + [n];
      assert m in s.inboxes[i] || m == n;
    }
    assert Told(s, m);
  }

  lemma PoppingIsUnderway(s: State, t: State, at: InstanceId, event: Event)
    requires at in s.inboxes && s.inboxes[at] != []
    requires t.outbox == s.outbox && t.inboxes == s.inboxes[at := s.inboxes[at][1..]]
    ensures Underway(t, event) ==> Underway(s, event)
  {
    forall o: InstanceId | Told(t, Notice(o, event)) ensures Told(s, Notice(o, event)) {
      var m := Notice(o, event);
      if m !in t.outbox {
        var i :| i in t.inboxes && m in t.inboxes[i];
        assert m in s.inboxes[i];
      }
    }
  }

  // What is left of the state after a delivery; the clients are as the handler leaves them.
  lemma DeliveryPops(s: State, at: InstanceId)
    requires WellFormed(s) && Idle(s) && Runs(s, Expand(s, Deliver(at)))
    ensures at in s.inboxes && s.inboxes[at] != []
    ensures var t := After(s, Expand(s, Deliver(at)));
      t.table == s.table && t.unsaid == s.unsaid && t.outbox == s.outbox &&
      t.inboxes == s.inboxes[at := s.inboxes[at][1..]]
  {
    if Loads(s, at) {
      TwoSteps(s, Take(at), Relay(at));
    } else {
      OneStep(s, Take(at));
    }
  }

  lemma DeliverKeepsPrivacy(s: State, at: InstanceId)
    requires WellFormed(s) && Idle(s) && UploadsArePrivate(s) && Runs(s, Expand(s, Deliver(at)))
    ensures UploadsArePrivate(After(s, Expand(s, Deliver(at))))
  {
    var t := After(s, Expand(s, Deliver(at)));
    DeliveryPops(s, at);
    DeliveryIsHandled(s, at);
    var n := s.inboxes[at][0];
    assert n in s.inboxes[at] && Told(s, Notice(n.origin, n.event));
    forall m | m in t.unsaid ensures m.event.Created? && m.event.id in t.table && m.event != n.event {
      assert Private(s, m);
    }
    forall m | m in t.unsaid && Underway(t, m.event) ensures Underway(s, m.event) {
      PoppingIsUnderway(s, t, at, m.event);
    }
    HandlingKeepsPrivacy(s, t, at, n);
  }

  lemma HandlingKeepsPrivacy(s: State, t: State, at: InstanceId, n: Notice)
    requires WellFormed(s) && UploadsArePrivate(s)
    requires t.clients == Handled(s.clients, at, n, Database(s.table, true)) && t.unsaid == s.unsaid
    requires forall m :: m in t.unsaid ==> m.event.Created? && m.event.id in t.table && m.event != n.event
    requires forall m :: m in t.unsaid && Underway(t, m.event) ==> Underway(s, m.event)
    ensures UploadsArePrivate(t)
  {
    if t.clients == s.clients {
      PrivacyStays(s, t);
    } else {
      match n.event
      case Created(id) => BroadcastKeepsPrivacy(s, t, at, s.table[id].room, ItemCreated(s.table[id]));
      case Deleted(room, id) => BroadcastKeepsPrivacy(s, t, at, room, ItemDeleted(id));
      case Cleared(room) => BroadcastKeepsPrivacy(s, t, at, room, RoomCleared);
    }
  }

  // A new or changed replica that shows no upload it did not show before.
  lemma ReplicaKeepsPrivacy(s: State, t: State, c: ClientId, d: Client)
    requires UploadsArePrivate(s) && t == s.(clients := s.clients[c := d])
    requires forall n :: n in s.unsaid && n.event.Created? && n.event.id in View(d) ==> ShownBy(s, c, n.event.id)
    ensures UploadsArePrivate(t)
  {
    forall n, k | n in t.unsaid && n.event.Created? && ShownBy(t, k, n.event.id) ensures ShownBy(s, k, n.event.id) {
      assert k == c ==> n.event.id in View(d);
    }
    PrivacyOfSame(s, t);
  }

  // Only the clients differ.
  lemma PrivacyOfSame(s: State, t: State)
    requires UploadsArePrivate(s) && t == s.(clients := t.clients)
    requires forall n, k :: n in t.unsaid && n.event.Created? && ShownBy(t, k, n.event.id) ==> ShownBy(s, k, n.event.id)
    ensures UploadsArePrivate(t)
  {
    forall n | n in t.unsaid ensures Private(t, n) {
      assert Private(s, n);
      assert Underway(t, n.event) <==> Underway(s, n.event);
    }
  }

  lemma JoinKeepsPrivacy(s: State, c: ClientId, at: InstanceId, room: RoomCode, act: Act)
    requires WellFormed(s) && UploadsArePrivate(s)
    requires Runs(s, Joining(c, at, room, act)) && (act.List? || act.ListFails?)
    requires act.List? ==> forall id :: id in act.page ==> !Pending(s, id)
    ensures UploadsArePrivate(After(s, Joining(c, at, room, act)))
  {
    var d := Newcomer(at, room, Shown(s, act));
    JoinAddsNewcomer(s, c, at, room, act);
    NewcomerView(at, room, Shown(s, act));
    forall n | n in s.unsaid && n.event.Created? ensures n.event.id !in View(d) {
      PendingIsStored(s, n);
    }
    ReplicaKeepsPrivacy(s, After(s, Joining(c, at, room, act)), c, d);
  }

  lemma ReadKeepsPrivacy(s: State, c: ClientId)
    requires WellFormed(s) && UploadsArePrivate(s) && Runs(s, [Socket(c, Receive)])
    ensures UploadsArePrivate(After(s, [Socket(c, Receive)]))
  {
    OneStep(s, Socket(c, Receive));
    ActView(s, c, Receive);
    ReplicaKeepsPrivacy(s, Next(s, Socket(c, Receive)), c, ActOn(s, c, Receive).value);
  }

  lemma LeaveKeepsPrivacy(s: State, c: ClientId)
    requires WellFormed(s) && UploadsArePrivate(s) && Runs(s, [Socket(c, Leave)])
    ensures UploadsArePrivate(After(s, [Socket(c, Leave)]))
  {
    OneStep(s, Socket(c, Leave));
    PrivacyOfSame(s, Next(s, Socket(c, Leave)));
  }

  /* ── Uploads ─────────────────────────────────────────────────────────── */

  lemma PutKeepsPrivacy(s: State, at: InstanceId, item: Item)
    requires WellFormed(s) && Idle(s) && UploadsArePrivate(s) && Runs(s, Expand(s, Put(at, item)))
    ensures UploadsArePrivate(After(s, Expand(s, Put(at, item))))
  {
    OneStep(s, Store(at, item));
    var t := Next(s, Store(at, item));
    forall n | n in t.unsaid ensures Private(t, n) {
      assert Underway(t, n.event) <==> Underway(s, n.event);
      if n == Notice(at, Created(item.id)) {
        NewIsPrivate(s, t, at, item);
      } else {
        assert Private(s, n);
        PendingIsStored(s, n);
        assert forall k :: ShownBy(t, k, n.event.id) <==> ShownBy(s, k, n.event.id);
      }
    }
  }

  // Nobody can have heard of an id that was never used.
  lemma NewIsUnheardOf(s: State, id: ItemId)
    requires WellFormed(s) && id !in s.history
    ensures !Pending(s, id) && !Underway(s, Created(id)) && forall k :: !ShownBy(s, k, id)
  {
    forall o: InstanceId ensures !Known(s, Notice(o, Created(id))) {
      assert Known(s, Notice(o, Created(id))) ==> NoticeOk(s, Created(id));
    }
    assert forall n :: n in s.unsaid && n.event == Created(id) ==> n == Notice(n.origin, Created(id));
    assert forall o: InstanceId :: Told(s, Notice(o, Created(id))) ==> Known(s, Notice(o, Created(id)));
    forall k ensures !ShownBy(s, k, id) {
      assert k in s.clients ==> ClientOk(s, s.clients[k]);
    }
  }

  lemma NewIsPrivate(s: State, t: State, at: InstanceId, item: Item)
    requires WellFormed(s) && Enabled(s, Store(at, item)) && t == Next(s, Store(at, item))
    ensures Private(t, Notice(at, Created(item.id)))
  {
    var n := Notice(at, Created(item.id));
    NewIsUnheardOf(s, item.id);
    assert Underway(t, n.event) <==> Underway(s, n.event);
    assert forall k :: ShownBy(t, k, item.id) <==> ShownBy(s, k, item.id);
    assert n !in s.unsaid;
  }

  // One notice fewer, and its item told of or gone: the other uploads are as private as before.
  lemma OthersDiffer(s: State, n: Notice, m: Notice)
    requires UploadsArePrivate(s) && n in s.unsaid && m in s.unsaid - multiset{n}
    ensures m in s.unsaid && m.event.Created? && m.event.id in s.table && m.event != n.event
  {
    assert Private(s, n) && Private(s, m);
  }

  lemma TellKeepsPrivacy(s: State, n: Notice)
    requires WellFormed(s) && Idle(s) && UploadsArePrivate(s) && Runs(s, Expand(s, Tell(n)))
    ensures UploadsArePrivate(After(s, Expand(s, Tell(n))))
    ensures !Late(s, Announce(n))
  {
    TellStep(s, n);
    PendingIsStored(s, n);
    var t := Next(s, Announce(n));
    var item := s.history[n.event.id];
    forall m | m in t.unsaid
      ensures m.event.Created? && m.event.id in t.table && m.event != n.event
      ensures Underway(t, m.event) ==> Underway(s, m.event)
    {
      OthersDiffer(s, n, m);
      OneMoreUnderway(s, t, n, m.event);
    }
    BroadcastKeepsPrivacy(s, t, n.origin, item.room, ItemCreated(item));
  }

  lemma DroppingKeepsPrivacy(s: State, t: State, n: Notice)
    requires UploadsArePrivate(s) && n in s.unsaid && n.event.Created?
    requires t == Without(s.(table := t.table), n) && t.table.Keys >= s.table.Keys - {n.event.id}
    ensures UploadsArePrivate(t)
  {
    forall m | m in t.unsaid ensures Private(t, m) {
      OthersDiffer(s, n, m);
      assert Private(s, m);
      assert Underway(t, m.event) <==> Underway(s, m.event);
      assert forall k :: ShownBy(t, k, m.event.id) <==> ShownBy(s, k, m.event.id);
      assert m.event.id in s.table.Keys - {n.event.id};
    }
  }

  lemma PrivateIsNotHeld(s: State, n: Notice)
    requires UploadsArePrivate(s) && n in s.unsaid && n.event.Created?
    ensures !Held(s, {n.event.id})
  {
    assert Private(s, n);
    forall k | k in s.clients ensures n.event.id !in View(s.clients[k]) {
      assert !ShownBy(s, k, n.event.id);
    }
  }

  lemma RollbackKeepsPrivacy(s: State, at: InstanceId, room: RoomCode, id: ItemId)
    requires WellFormed(s) && Idle(s) && UploadsArePrivate(s) && Runs(s, Expand(s, Rollback(at, room, id)))
    ensures UploadsArePrivate(After(s, Expand(s, Rollback(at, room, id)))) && !Held(s, {id})
  {
    RollbackStep(s, at, room, id);
    DroppingKeepsPrivacy(s, After(s, Expand(s, Rollback(at, room, id))), Notice(at, Created(id)));
    PrivateIsNotHeld(s, Notice(at, Created(id)));
  }

  lemma AbandonKeepsPrivacy(s: State, n: Notice)
    requires WellFormed(s) && Idle(s) && UploadsArePrivate(s) && Runs(s, Expand(s, Abandon(n)))
    ensures UploadsArePrivate(After(s, Expand(s, Abandon(n))))
  {
    DropStep(s, Forget(n));
    DroppingKeepsPrivacy(s, Without(s, n), n);
  }

  lemma MissKeepsPrivacy(s: State, at: InstanceId)
    requires WellFormed(s) && Idle(s) && UploadsArePrivate(s) && Runs(s, Expand(s, Miss(at)))
    ensures UploadsArePrivate(After(s, Expand(s, Miss(at))))
  {
    DropStep(s, LoadFails(at));
    var t := Popped(s, at);
    forall m | m in t.unsaid
      ensures m.event.Created? && m.event.id in t.table && (Underway(t, m.event) ==> Underway(s, m.event))
    {
      PendingIsStored(s, m);
      PoppingIsUnderway(s, t, at, m.event);
    }
    PrivacyStays(s, t);
  }

  /* ── The step and run theorems ───────────────────────────────────────── */

  lemma UndisturbedStep(s: State, w: Whole)
    requires WellFormed(s) && Idle(s) && UploadsArePrivate(s) && Runs(s, Expand(s, w)) && Undisturbed(s, w)
    ensures UploadsArePrivate(After(s, Expand(s, w))) && !WholeLate(s, w)
  {
    match w
    case Create(at, item) => CreateKeepsPrivacy(s, at, item);
    case Delete(at, room, id) => DeleteKeepsPrivacy(s, at, room, id);
    case Clear(at, room) => ClearKeepsPrivacy(s, at, room);
    case Send(n) => SendKeepsPrivacy(s, n);
    case Deliver(at) => DeliverKeepsPrivacy(s, at);
    case Join(c, at, room, page) => JoinKeepsPrivacy(s, c, at, room, List(page));
    case JoinUnlisted(c, at, room) => JoinKeepsPrivacy(s, c, at, room, ListFails);
    case Read(c) => ReadKeepsPrivacy(s, c);
    case Disconnect(c) => LeaveKeepsPrivacy(s, c);
    case Put(at, item) => PutKeepsPrivacy(s, at, item);
    case Tell(n) => TellKeepsPrivacy(s, n);
    case Rollback(at, room, id) => RollbackKeepsPrivacy(s, at, room, id);
    case Abandon(n) => AbandonKeepsPrivacy(s, n);
    case Miss(at) => MissKeepsPrivacy(s, at);
  }

  lemma {:induction false} UndisturbedRunIsTimely(s: State, ws: seq<Whole>)
    requires WellFormed(s) && Idle(s) && UploadsArePrivate(s) && WholeRuns(s, ws) && UndisturbedRun(s, ws)
    ensures !SomeWholeLate(s, ws)
    decreases |ws|
  {
    if ws != [] {
      UndisturbedStep(s, ws[0]);
      WholeKeepsIdle(s, ws[0]);
      UndisturbedRunIsTimely(After(s, Expand(s, ws[0])), ws[1..]);
    }
  }

  // If no join lists a file between its insert and the end of its upload, and nobody
  // deletes or clears it there, then no deleted item survives: uploads may fail and be
  // rolled back, or be left behind.
  lemma UndisturbedUploadsLeaveNothing(instances: set<InstanceId>, ws: seq<Whole>)
    requires WellFormed(Init(instances)) && WholeRuns(Init(instances), ws) && UndisturbedRun(Init(instances), ws)
    ensures var t := WholeAfter(Init(instances), ws); Safe(t) && (Quiet(t) ==> ShowsOnlyStored(t))
  {
    UndisturbedRunIsTimely(Init(instances), ws);
    NoDeletedItemSurvives(instances, ws);
  }
}
