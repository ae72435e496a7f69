/** Every stored item reaches every client of its room.

    Each stored item is on a greeted client's replica, or its creation is still on
    its way to that client's instance. A room.cleared that overtakes a newer item, a
    greeting whose list is short, and the drop of the one notice that would bring it are
    the only ways to lose one. */
module SyncConvergence {
  import opened Sync
  import opened SyncSafety

  ghost predicate CreationDue(s: State, i: InstanceId, id: ItemId) {
    Due(s, i, Created(id)) || (i in s.relays && s.relays[i].id == id)
  }

  // k has been greeted and id is a stored item of its room.
  predicate Owed(s: State, k: ClientId, id: ItemId) {
    && k in s.clients && s.clients[k].phase.Greeted?
    && id in s.table && s.table[id].room == s.clients[k].room
  }

  ghost predicate Served(s: State, k: ClientId, id: ItemId)
    requires k in s.clients
  {
    id in View(s.clients[k]) || CreationDue(s, s.clients[k].home, id)
  }

  ghost predicate ReplicaComplete(s: State, k: ClientId) {
    forall id :: Owed(s, k, id) ==> Served(s, k, id)
  }

  ghost predicate Complete(s: State) {
    forall k :: ReplicaComplete(s, k)
  }

  // The instance's clients are told that the room is empty.
  ghost predicate Clears(s: State, step: Step, at: InstanceId, room: RoomCode)
    requires Enabled(s, step)
  {
    || step == Announce(Notice(at, Cleared(room)))
    || (step == Take(at) && s.inboxes[at][0].event == Cleared(room) && s.inboxes[at][0].origin != at)
  }

  ghost predicate Overtaken(s: State, at: InstanceId, room: RoomCode) {
    && (exists k :: k in s.clients && Hears(s.clients[k], at, room) && s.clients[k].phase.Greeted?)
    && exists id :: id in s.table && s.table[id].room == room && !CreationDue(s, at, id)
  }

  // Some greeted client lacks the stored item, and with the notices of t will not get it.
  ghost predicate Awaited(s: State, t: State, id: ItemId) {
    exists k :: Owed(s, k, id) && id !in View(s.clients[k]) && !CreationDue(t, s.clients[k].home, id)
  }

  // Some stored item is neither listed for the client nor on its way to it.
  ghost predicate GreetsShort(s: State, k: ClientId)
    requires k in s.clients && s.clients[k].phase.Listed?
  {
    var c := s.clients[k];
    exists id :: id in s.table && s.table[id].room == c.room
                 && id !in c.phase.snapshot && !CreationDue(s, c.home, id)
  }

  // The step takes a stored item off a replica, greets without it, or drops the one notice
  // that would bring it, for good.
  ghost predicate Loses(s: State, step: Step)
    requires Enabled(s, step)
  {
    || (exists at, room :: Clears(s, step, at, room) && Overtaken(s, at, room))
    || (step.Socket? && step.act.Greet? && GreetsShort(s, step.client))
    || (Dropping(step) && DroppedNotice(s, step).event.Created? &&
        Awaited(s, Dropped(s, step), DroppedNotice(s, step).event.id))
  }

  // Case by case.
  lemma AnnounceLoses(s: State, n: Notice)
    requires Enabled(s, Announce(n))
    ensures Loses(s, Announce(n)) <==> n.event.Cleared? && Overtaken(s, n.origin, n.event.room)
  {
    if n.event.Cleared? {
      assert Clears(s, Announce(n), n.origin, n.event.room);
    }
  }

  lemma TakeLoses(s: State, at: InstanceId)
    requires Enabled(s, Take(at))
    ensures var n := s.inboxes[at][0];
      Loses(s, Take(at)) <==> n.origin != at && n.event.Cleared? && Overtaken(s, at, n.event.room)
  {
    var n := s.inboxes[at][0];
    if n.event.Cleared? && n.origin != at {
      assert Clears(s, Take(at), at, n.event.room);
    }
  }

  lemma OthersLoseNothing(s: State, step: Step)
    requires Enabled(s, step)
    requires step.Store? || step.Remove? || step.Empty? || step.Publish? || step.Relay?
    ensures !Loses(s, step)
  {
  }

  // The listener that takes a creation off its inbox now holds the loaded item.
  lemma TakenCreationIsLoaded(s: State, i: InstanceId, o: InstanceId, id: ItemId)
    requires WellFormed(s) && Enabled(s, Take(i)) && id in s.table
    requires s.inboxes[i][0] == Notice(o, Created(id)) && o != i
    ensures CreationDue(Next(s, Take(i)), i, id)
  {
    PopIsKnown(s, Next(s, Take(i)), i);
    assert Next(s, Take(i)).relays == s.relays[i := s.table[id]];
  }

  lemma CreationDueStays(s: State, step: Step, i: InstanceId, id: ItemId)
    requires WellFormed(s) && Enabled(s, step) && i in s.inboxes
    requires CreationDue(s, i, id) && id in s.table && !Dropping(step)
    requires step != Announce(Notice(i, Created(id)))
    requires step != Relay(i)
    ensures CreationDue(Next(s, step), i, id)
  {
    if Due(s, i, Created(id)) {
      var o: InstanceId :| Heading(s, i, Notice(o, Created(id)));
      var n := Notice(o, Created(id));
      if Spent(s, step, i, n) {
        TakenCreationIsLoaded(s, i, o, id);
      } else {
        HeadingStays(s, step, i, n);
      }
    } else {
      LoadedStays(s, step, i);
    }
  }

  lemma LoadedStays(s: State, step: Step, i: InstanceId)
    requires WellFormed(s) && Enabled(s, step) && i in s.relays && step != Relay(i)
    ensures i in Next(s, step).relays && Next(s, step).relays[i] == s.relays[i]
  {
  }

  // A creation no longer due at i after a step is on every greeted replica that heard it.
  lemma StoredStays(s: State, step: Step, k: ClientId, id: ItemId)
    requires WellFormed(s) && Enabled(s, step) && ReplicaComplete(s, k)
    requires step.Store? || step.Remove? || step.Empty? || step.Publish?
    requires Owed(Next(s, step), k, id)
    ensures Served(Next(s, step), k, id)
  {
    var c := s.clients[k];
    assert id in s.table ==> Owed(s, k, id);
    assert ClientOk(s, c);
    if id in s.table {
      if id !in View(c) { CreationDueStays(s, step, c.home, id); }
    } else {
      assert Heading(Next(s, step), c.home, Notice(step.at, Created(id)));
    }
  }

  lemma AnnounceComplete(s: State, n: Notice, k: ClientId, id: ItemId)
    requires WellFormed(s) && Enabled(s, Announce(n)) && ReplicaComplete(s, k)
    requires !Loses(s, Announce(n))
    requires Owed(Next(s, Announce(n)), k, id)
    ensures Served(Next(s, Announce(n)), k, id)
  {
    var c := s.clients[k];
    assert Owed(s, k, id);
    var step := Announce(n);
    assert Known(s, n);
    assert NoticeOk(s, n.event);
    assert ClientOk(s, c);
    BroadcastViews(s.clients, n.origin, RoomOf(s, n.event), FrameFor(s, n.event));
    if n.event.Cleared? && Hears(c, n.origin, n.event.room) {
      assert Clears(s, step, n.origin, n.event.room);
      assert CreationDue(s, c.home, id);
    }
    if n != Notice(c.home, Created(id)) && CreationDue(s, c.home, id) {
      CreationDueStays(s, step, c.home, id);
    }
  }

  lemma TakeComplete(s: State, at: InstanceId, k: ClientId, id: ItemId)
    requires WellFormed(s) && Enabled(s, Take(at)) && ReplicaComplete(s, k)
    requires !Loses(s, Take(at))
    requires Owed(Next(s, Take(at)), k, id)
    ensures Served(Next(s, Take(at)), k, id)
  {
    var n := s.inboxes[at][0];
    PopIsKnown(s, Next(s, Take(at)), at);
    assert NoticeOk(s, n.event);
    if n.origin != at && !n.event.Created? {
      TakeRemovalComplete(s, at, k, id);
    } else {
      assert Owed(s, k, id) && ClientOk(s, s.clients[k]);
      if CreationDue(s, s.clients[k].home, id) {
        CreationDueStays(s, Take(at), s.clients[k].home, id);
      }
    }
  }

  lemma TakeRemovalComplete(s: State, at: InstanceId, k: ClientId, id: ItemId)
    requires WellFormed(s) && Enabled(s, Take(at)) && ReplicaComplete(s, k)
    requires !Loses(s, Take(at))
    requires s.inboxes[at][0].origin != at && !s.inboxes[at][0].event.Created?
    requires NoticeOk(s, s.inboxes[at][0].event)
    requires Owed(Next(s, Take(at)), k, id)
    ensures Served(Next(s, Take(at)), k, id)
  {
    var n := s.inboxes[at][0];
    BroadcastViews(s.clients, at, RoomOf(s, n.event), FrameFor(s, n.event));
    var c := s.clients[k];
    assert Owed(s, k, id) && ClientOk(s, c);
    if n.event.Cleared? && Hears(c, at, n.event.room) {
      assert Clears(s, Take(at), at, n.event.room);
      assert CreationDue(s, c.home, id);
    }
    if CreationDue(s, c.home, id) {
      CreationDueStays(s, Take(at), c.home, id);
    }
  }

  lemma RelayComplete(s: State, at: InstanceId, k: ClientId, id: ItemId)
    requires WellFormed(s) && Enabled(s, Relay(at)) && ReplicaComplete(s, k)
    requires Owed(Next(s, Relay(at)), k, id)
    ensures Served(Next(s, Relay(at)), k, id)
  {
    var c := s.clients[k];
    assert Owed(s, k, id);
    var t := Next(s, Relay(at));
    BroadcastViews(s.clients, at, s.relays[at].room, ItemCreated(s.relays[at]));
    if Due(s, c.home, Created(id)) {
      DueStays(s, Relay(at), c.home, Created(id));
    }
  }

  lemma ActComplete(s: State, m: ClientId, act: Act, k: ClientId, id: ItemId)
    requires WellFormed(s) && Enabled(s, Socket(m, act)) && ReplicaComplete(s, k)
    requires !Loses(s, Socket(m, act))
    requires Owed(Next(s, Socket(m, act)), k, id)
    ensures Served(Next(s, Socket(m, act)), k, id)
  {
    var c := Next(s, Socket(m, act)).clients[k];
    assert !act.Greet? || m != k ==> Owed(s, k, id);
    if m == k {
      ActView(s, m, act);
      ActKeepsClientOk(s, m, act);
    } else {
      assert ClientOk(s, s.clients[k]);
    }
    if CreationDue(s, c.home, id) {
      CreationDueStays(s, Socket(m, act), c.home, id);
    }
  }

  // Only notices of one event are dropped.
  ghost predicate Drops(s: State, t: State, event: Event) {
    && t.clients == s.clients && t.table == s.table && t.relays == s.relays
    && forall i: InstanceId, n: Notice :: n.event != event && Heading(s, i, n) ==> Heading(t, i, n)
  }

  lemma PoppingDrops(s: State, at: InstanceId)
    requires at in s.inboxes && s.inboxes[at] != []
    ensures Drops(s, Popped(s, at), s.inboxes[at][0].event)
  {
    assert s.inboxes[at] == [s.inboxes[at][0]] + s.inboxes[at][1..];
  }

  lemma DroppingDrops(s: State, step: Step)
    requires WellFormed(s) && Enabled(s, step) && Dropping(step)
    ensures Drops(s, Next(s, step), DroppedNotice(s, step).event)
  {
    if step.Unheard? || step.LoadFails? {
      PoppingDrops(s, step.at);
    }
  }

  lemma DropComplete(s: State, t: State, event: Event, k: ClientId, id: ItemId)
    requires Drops(s, t, event) && ReplicaComplete(s, k) && Owed(t, k, id)
    requires event.Created? ==> !Awaited(s, t, event.id)
    ensures Served(t, k, id)
  {
    assert Owed(s, k, id);
    var i := s.clients[k].home;
    if id !in View(s.clients[k]) && event != Created(id) && Due(s, i, Created(id)) {
      var o: InstanceId :| Heading(s, i, Notice(o, Created(id)));
      assert Heading(t, i, Notice(o, Created(id)));
    }
  }

  lemma DropLoses(s: State, t: State, id: ItemId)
    requires t.clients == s.clients && t.table == s.table && Awaited(s, t, id)
    ensures !Complete(t)
  {
    var k :| Owed(s, k, id) && id !in View(s.clients[k]) && !CreationDue(t, s.clients[k].home, id);
    LostForGood(t, k, id);
  }

  lemma ItemReaches(s: State, step: Step, k: ClientId, id: ItemId)
    requires WellFormed(s) && Enabled(s, step) && !Loses(s, step) && ReplicaComplete(s, k)
    requires Owed(Next(s, step), k, id)
    ensures Served(Next(s, step), k, id)
  {
    if step.Announce? {
      AnnounceComplete(s, step.notice, k, id);
    } else if step.Take? {
      TakeComplete(s, step.at, k, id);
    } else if step.Relay? {
      RelayComplete(s, step.at, k, id);
    } else if step.Socket? {
      ActComplete(s, step.client, step.act, k, id);
    } else if Dropping(step) {
      DroppingDrops(s, step);
      DropComplete(s, Next(s, step), DroppedNotice(s, step).event, k, id);
    } else {
      StoredStays(s, step, k, id);
    }
  }

  lemma CarefulStepStaysComplete(s: State, step: Step)
    requires WellFormed(s) && Complete(s) && Enabled(s, step) && !Loses(s, step)
    ensures Complete(Next(s, step))
  {
    var t := Next(s, step);
    forall k, id | Owed(t, k, id)
      ensures Served(t, k, id)
    {
      assert ReplicaComplete(s, k);
      ItemReaches(s, step, k, id);
    }
  }

  lemma NoNoticeAppears(s: State, step: Step, i: InstanceId, n: Notice)
    requires WellFormed(s) && Enabled(s, step) && (step.Announce? || step.Socket?)
    requires n.event.Created? && !Heading(s, i, n)
    requires step.Announce? ==> step.notice.event.Cleared?
    ensures !Heading(Next(s, step), i, n)
  {
  }

  lemma TakingAddsNoNotice(s: State, at: InstanceId, i: InstanceId, n: Notice)
    requires WellFormed(s) && Enabled(s, Take(at)) && !Heading(s, i, n)
    ensures !Heading(Next(s, Take(at)), i, n)
  {
    assert s.inboxes[at] == [s.inboxes[at][0]] + s.inboxes[at][1..];
    assert Next(s, Take(at)).inboxes == s.inboxes[at := s.inboxes[at][1..]];
  }

  lemma NoCreationAppears(s: State, step: Step, i: InstanceId, id: ItemId)
    requires WellFormed(s) && Enabled(s, step)
    requires step.Announce? || step.Take? || step.Socket?
    requires step.Announce? ==> step.notice.event.Cleared?
    requires step.Take? ==> s.inboxes[step.at][0].event.Cleared?
    requires !CreationDue(s, i, id)
    ensures !CreationDue(Next(s, step), i, id)
  {
    forall o: InstanceId ensures !Heading(Next(s, step), i, Notice(o, Created(id))) {
      assert !Heading(s, i, Notice(o, Created(id)));
      if step.Take? {
        TakingAddsNoNotice(s, step.at, i, Notice(o, Created(id)));
      } else {
        NoNoticeAppears(s, step, i, Notice(o, Created(id)));
      }
    }
  }

  lemma ClearIsCleared(s: State, step: Step, at: InstanceId, room: RoomCode)
    requires Enabled(s, step) && Clears(s, step, at, room)
    ensures step.Announce? || step.Take?
    ensures step.Announce? ==> step.notice.event.Cleared?
    ensures step.Take? ==> s.inboxes[step.at][0].event.Cleared?
  {
  }

  lemma ClearBroadcasts(s: State, step: Step, at: InstanceId, room: RoomCode)
    requires WellFormed(s) && Enabled(s, step) && Clears(s, step, at, room)
    ensures Next(s, step).clients == Broadcast(s.clients, at, room, RoomCleared)
    ensures Next(s, step).table == s.table
  {
    if step.Take? { PopIsKnown(s, Next(s, step), at); }
  }

  lemma ClearLoses(s: State, step: Step, at: InstanceId, room: RoomCode)
    requires WellFormed(s) && Enabled(s, step) && Clears(s, step, at, room) && Overtaken(s, at, room)
    ensures !Complete(Next(s, step))
  {
    ClearBroadcasts(s, step, at, room);
    ClearIsCleared(s, step, at, room);
    var id :| id in s.table && s.table[id].room == room && !CreationDue(s, at, id);
    NoCreationAppears(s, step, at, id);
    ClearedForGood(s, Next(s, step), at, room, id);
  }

  lemma ClearedForGood(s: State, t: State, at: InstanceId, room: RoomCode, id: ItemId)
    requires t.clients == Broadcast(s.clients, at, room, RoomCleared) && t.table == s.table
    requires exists k :: k in s.clients && Hears(s.clients[k], at, room) && s.clients[k].phase.Greeted?
    requires id in s.table && s.table[id].room == room && !CreationDue(t, at, id)
    ensures !Complete(t)
  {
    var k :| k in s.clients && Hears(s.clients[k], at, room) && s.clients[k].phase.Greeted?;
    BroadcastViews(s.clients, at, room, RoomCleared);
    LostForGood(t, k, id);
  }

  lemma LostForGood(t: State, k: ClientId, id: ItemId)
    requires Owed(t, k, id) && !Served(t, k, id)
    ensures !Complete(t)
  {
    assert !ReplicaComplete(t, k);
  }

  lemma ShortGreetingLoses(s: State, k: ClientId)
    requires WellFormed(s) && Enabled(s, Socket(k, Greet)) && GreetsShort(s, k)
    ensures !Complete(Next(s, Socket(k, Greet)))
  {
    var c := s.clients[k];
    var id :| id in s.table && s.table[id].room == c.room
              && id !in c.phase.snapshot && !CreationDue(s, c.home, id);
    ActView(s, k, Greet);
    NoCreationAppears(s, Socket(k, Greet), c.home, id);
    LostForGood(Next(s, Socket(k, Greet)), k, id);
  }

  // Losing an item this way is exactly what breaks convergence.
  lemma ConvergenceStep(s: State, step: Step)
    requires WellFormed(s) && Complete(s) && Enabled(s, step)
    ensures WellFormed(Next(s, step))
    ensures Complete(Next(s, step)) <==> !Loses(s, step)
  {
    StepKeepsWellFormed(s, step);
    if !Loses(s, step) {
      CarefulStepStaysComplete(s, step);
    } else if at, room :| Clears(s, step, at, room) && Overtaken(s, at, room) {
      ClearLoses(s, step, at, room);
    } else if Dropping(step) {
      DropLoses(s, Next(s, step), DroppedNotice(s, step).event.id);
    } else {
      ShortGreetingLoses(s, step.client);
    }
  }

  ghost predicate SomeLost(s: State, steps: seq<Step>)
    requires WellFormed(s) && Runs(s, steps)
    decreases |steps|
  {
    steps != [] &&
    (Loses(s, steps[0]) ||
     (StepKeepsWellFormed(s, steps[0]); SomeLost(Next(s, steps[0]), steps[1..])))
  }

  lemma {:induction false} RunIsComplete(s: State, steps: seq<Step>)
    requires WellFormed(s) && Complete(s) && Runs(s, steps)
    requires !SomeLost(s, steps)
    ensures Complete(After(s, steps))
    decreases |steps|
  {
    if steps != [] {
      ConvergenceStep(s, steps[0]);
      RunIsComplete(Next(s, steps[0]), steps[1..]);
    }
  }

  // Once everything is delivered, each client shows every stored item of its room,
  lemma QuietClientsShowTheTable(s: State, k: ClientId, id: ItemId)
    requires WellFormed(s) && Complete(s) && Quiet(s) && k in s.clients
    requires id in RoomItems(s.table, s.clients[k].room)
    ensures id in s.clients[k].items && s.clients[k].items[id] == s.table[id]
  {
    var c := s.clients[k];
    assert ReplicaComplete(s, k) && View(c) == c.items && ClientOk(s, c);
    assert Owed(s, k, id);
    assert forall o: InstanceId :: !Heading(s, c.home, Notice(o, Created(id)));
  }

  // and, where safety was kept as well, exactly these.
  lemma QuietClientsEqualTheTable(s: State, k: ClientId)
    requires WellFormed(s) && Safe(s) && Complete(s) && Quiet(s) && k in s.clients
    ensures s.clients[k].items == RoomItems(s.table, s.clients[k].room)
  {
    QuietClientsHoldOnlyStoredItems(s, k);
    forall id | id in RoomItems(s.table, s.clients[k].room)
      ensures id in s.clients[k].items && s.clients[k].items[id] == s.table[id]
    {
      QuietClientsShowTheTable(s, k, id);
    }
  }
}
