/** Runs of whole operations.

    Deleted items never survive unless an upload's file is announced after it was
    deleted, rows that some replica holds are removed without a word, or the bus drops
    word of a removal. And runs without room.clear converge as long as nothing stored
    goes unannounced, the bus drops nothing, no load or listing fails, and a join never
    meets more items than one page holds. */
module SyncRuns {
  import opened Sync
  import opened SyncSafety
  import opened SyncConvergence
  import opened SyncWhole
  import opened SyncSilent

  // What a whole operation can still get wrong: announce an upload's file after it was
  // deleted, or remove without a word what a replica holds.
  ghost predicate WholeLate(s: State, w: Whole)
    requires WellFormed(s) && Runs(s, Expand(s, w))
  {
    match w
    case Tell(n) => (assert Expand(s, w) == [Announce(n)]; Late(s, Announce(n)))
    case Rollback(_, _, id) => Held(s, {id})
    case Withdraw(_, _, id) => Held(s, {id})
    case Wipe(_, room) => Held(s, RoomIds(s.table, room))
    case Drop(n) => OneStep(s, Unsent(n)); Needed(s, Dropped(s, Unsent(n)))
    case Skip(at) => OneStep(s, Unheard(at)); Needed(s, Dropped(s, Unheard(at)))
    case _ => false
  }

  // A whole operation leaves nothing half done,
  lemma WholeKeepsIdle(s: State, w: Whole)
    requires WellFormed(s) && Idle(s) && Runs(s, Expand(s, w))
    ensures Idle(After(s, Expand(s, w)))
  {
    match w
    case Put(at, item) => PutIsTimely(s, at, item);
    case Tell(n) => TellStep(s, n);
    case Abandon(n) => DropStep(s, Forget(n));
    case Drop(n) => DropStep(s, Unsent(n));
    case Skip(at) => DropStep(s, Unheard(at));
    case Miss(at) => DropStep(s, LoadFails(at));
    case Rollback(at, room, id) => RollbackStep(s, at, room, id);
    case Withdraw(at, room, id) => WithdrawStep(s, at, room, id);
    case Wipe(at, room) => WipeStep(s, at, room);
    case Join(c, at, room, page) => JoinIsTimely(s, c, at, room, List(page));
    case JoinUnlisted(c, at, room) => JoinIsTimely(s, c, at, room, ListFails);
    case _ => AnnouncedIsTimely(s, w);
  }

  // contains a late step in those cases only,
  lemma WholeIsTimely(s: State, w: Whole)
    requires WellFormed(s) && Idle(s) && Safe(s) && Runs(s, Expand(s, w))
    ensures SomeLate(s, Expand(s, w)) <==> WholeLate(s, w)
  {
    match w
    case Put(at, item) => PutIsTimely(s, at, item);
    case Tell(n) => TellStep(s, n);
    case Abandon(n) => CreationDropIsTimely(s, Forget(n));
    case Drop(n) => DropStep(s, Unsent(n));
    case Skip(at) => DropStep(s, Unheard(at));
    case Miss(at) => CreationDropIsTimely(s, LoadFails(at));
    case Rollback(at, room, id) => RollbackIsLate(s, at, room, id);
    case Withdraw(at, room, id) => WithdrawIsLate(s, at, room, id);
    case Wipe(at, room) => WipeIsLate(s, at, room);
    case Join(c, at, room, page) => JoinIsTimely(s, c, at, room, List(page));
    case JoinUnlisted(c, at, room) => JoinIsTimely(s, c, at, room, ListFails);
    case _ => AnnouncedIsTimely(s, w);
  }

  // and, seen from its two ends, breaks safety exactly then.
  lemma WholeSafetyStep(s: State, w: Whole)
    requires WellFormed(s) && Idle(s) && Safe(s) && Runs(s, Expand(s, w))
    ensures Idle(After(s, Expand(s, w)))
    ensures Safe(After(s, Expand(s, w))) <==> !WholeLate(s, w)
  {
    WholeKeepsIdle(s, w);
    WholeIsTimely(s, w);
    if !WholeLate(s, w) {
      RunIsSafe(s, Expand(s, w));
    } else {
      LateWholeBreaksSafety(s, w);
    }
  }

  lemma LateWholeBreaksSafety(s: State, w: Whole)
    requires WellFormed(s) && Idle(s) && Safe(s) && Runs(s, Expand(s, w)) && WholeLate(s, w)
    ensures !Safe(After(s, Expand(s, w)))
  {
    WholeIsTimely(s, w);
    match w
    case Tell(n) =>
      TellStep(s, n);
      LateStepBreaksSafety(s, Announce(n));
    case Rollback(at, room, id) => RollbackIsLate(s, at, room, id);
    case Withdraw(at, room, id) => WithdrawIsLate(s, at, room, id);
    case Wipe(at, room) => WipeIsLate(s, at, room);
    case Drop(n) => LateDropBreaks(s, Unsent(n));
    case Skip(at) => LateDropBreaks(s, Unheard(at));
  }

  lemma LateDropBreaks(s: State, step: Step)
    requires WellFormed(s) && Idle(s) && Runs(s, [step]) && Dropping(step) && SomeLate(s, [step])
    ensures !Safe(After(s, [step]))
  {
    DropStep(s, step);
    LateDropBreaksSafety(s, Dropped(s, step));
  }

  ghost predicate SomeWholeLate(s: State, ws: seq<Whole>)
    requires WellFormed(s) && WholeRuns(s, ws)
    decreases |ws|
  {
    ws != [] && (WholeLate(s, ws[0]) || SomeWholeLate(After(s, Expand(s, ws[0])), ws[1..]))
  }

  lemma {:induction false} WholeRunIsIdle(s: State, ws: seq<Whole>)
    requires WellFormed(s) && Idle(s) && WholeRuns(s, ws)
    ensures Idle(WholeAfter(s, ws))
    decreases |ws|
  {
    if ws != [] {
      WholeKeepsIdle(s, ws[0]);
      WholeRunIsIdle(After(s, Expand(s, ws[0])), ws[1..]);
    }
  }

  lemma {:induction false} WholeRunIsSafe(s: State, ws: seq<Whole>)
    requires WellFormed(s) && Idle(s) && Safe(s) && WholeRuns(s, ws)
    requires !SomeWholeLate(s, ws)
    ensures Safe(WholeAfter(s, ws))
    decreases |ws|
  {
    if ws != [] {
      WholeKeepsIdle(s, ws[0]);
      WholeSafetyStep(s, ws[0]);
      WholeRunIsSafe(After(s, Expand(s, ws[0])), ws[1..]);
    }
  }

  // Each client shows stored items of its own room and nothing else.
  predicate ShowsOnlyStored(t: State) {
    forall k :: k in t.clients ==>
      forall id :: id in t.clients[k].items ==>
        id in t.table && t.table[id] == t.clients[k].items[id] && t.table[id].room == t.clients[k].room
  }

  // No deleted item survives: after every run from the start without a late operation,
  // every id on a client is accounted for, and once quiet it is stored.
  lemma NoDeletedItemSurvives(instances: set<InstanceId>, ws: seq<Whole>)
    requires WellFormed(Init(instances)) && WholeRuns(Init(instances), ws)
    requires !SomeWholeLate(Init(instances), ws)
    ensures var t := WholeAfter(Init(instances), ws); Safe(t) && (Quiet(t) ==> ShowsOnlyStored(t))
  {
    var s := Init(instances);
    WholeRunIsSafe(s, ws);
    var t := WholeAfter(s, ws);
    if Quiet(t) {
      forall k | k in t.clients
        ensures forall id :: id in t.clients[k].items ==>
          id in t.table && t.table[id] == t.clients[k].items[id] && t.table[id].room == t.clients[k].room
      {
        QuietClientsHoldOnlyStoredItems(t, k);
      }
    }
  }

  /* ── Convergence ─────────────────────────────────────────────────────── */

  ghost predicate LeavesOut(s: State, at: InstanceId, room: RoomCode, page: set<ItemId>) {
    exists id :: id in RoomIds(s.table, room) - page && !CreationDue(s, at, id)
  }

  ghost predicate AwaitsNext(s: State, at: InstanceId) {
    at in s.inboxes && s.inboxes[at] != [] && s.inboxes[at][0].event.Created? &&
    Awaited(s, Popped(s, at), s.inboxes[at][0].event.id)
  }

  // What a whole operation can still lose: a foreign clear that a newer item has
  // overtaken, a join whose page leaves stored items out, and the one notice that
  // would bring an item some client still lacks.
  ghost predicate WholeLoses(s: State, w: Whole) {
    match w
    case Deliver(at) =>
      at in s.inboxes && s.inboxes[at] != [] && s.inboxes[at][0].origin != at &&
      s.inboxes[at][0].event.Cleared? && Overtaken(s, at, s.inboxes[at][0].event.room)
    case Join(_, at, room, page) => LeavesOut(s, at, room, page)
    case JoinUnlisted(_, at, room) => LeavesOut(s, at, room, {})
    case Abandon(n) => n.event.Created? && Awaited(s, Without(s, n), n.event.id)
    case Drop(n) => n.event.Created? && Awaited(s, s.(outbox := s.outbox - multiset{n}), n.event.id)
    case Skip(at) => AwaitsNext(s, at)
    case Miss(at) => AwaitsNext(s, at)
    case _ => false
  }

  lemma DeliveryLoss(s: State, at: InstanceId)
    requires WellFormed(s) && Idle(s) && Runs(s, Expand(s, Deliver(at)))
    ensures SomeLost(s, Expand(s, Deliver(at))) <==> WholeLoses(s, Deliver(at))
  {
    if Loads(s, at) {
      TwoSteps(s, Take(at), Relay(at));
      OthersLoseNothing(Next(s, Take(at)), Relay(at));
    } else {
      OneStep(s, Take(at));
    }
    TakeLoses(s, at);
  }

  lemma JoinLoss(s: State, c: ClientId, at: InstanceId, room: RoomCode, act: Act)
    requires WellFormed(s) && Idle(s) && Runs(s, Joining(c, at, room, act)) && (act.List? || act.ListFails?)
    ensures SomeLost(s, Joining(c, at, room, act)) <==>
      LeavesOut(s, at, room, if act.List? then act.page else {})
  {
    var t := JoinStages(s, c, at, room, act);
    forall id ensures CreationDue(t, at, id) <==> CreationDue(s, at, id) {
      SameNoticesSameDue(s, t, at, id);
    }
    GreetLoss(t, c);
    assert forall id :: id in RoomIds(s.table, room) ==>
      (id in Shown(s, act) <==> id in (if act.List? then act.page else {}));
  }

  lemma GreetLoss(t: State, c: ClientId)
    requires Enabled(t, Socket(c, Greet))
    ensures var k := t.clients[c];
      Loses(t, Socket(c, Greet)) <==>
      exists id :: id in RoomIds(t.table, k.room) - k.phase.snapshot.Keys && !CreationDue(t, k.home, id)
  {
    var k := t.clients[c];
    assert forall id :: id in RoomIds(t.table, k.room) - k.phase.snapshot.Keys <==>
      id in t.table && t.table[id].room == k.room && id !in k.phase.snapshot;
  }

  lemma SameNoticesSameDue(s: State, t: State, i: InstanceId, id: ItemId)
    requires t.unsaid == s.unsaid && t.outbox == s.outbox && t.inboxes == s.inboxes && t.relays == s.relays
    ensures CreationDue(t, i, id) <==> CreationDue(s, i, id)
  {
    assert forall o: InstanceId :: Heading(t, i, Notice(o, Created(id))) <==> Heading(s, i, Notice(o, Created(id)));
  }

  lemma WholeLoss(s: State, w: Whole)
    requires WellFormed(s) && Idle(s) && Runs(s, Expand(s, w))
    ensures SomeLost(s, Expand(s, w)) <==> WholeLoses(s, w)
  {
    match w
    case Put(at, item) => PutIsTimely(s, at, item);
    case Tell(n) => TellStep(s, n);
    case Abandon(n) => DropStep(s, Forget(n));
    case Drop(n) => DropStep(s, Unsent(n));
    case Skip(at) => DropStep(s, Unheard(at));
    case Miss(at) => DropStep(s, LoadFails(at));
    case Rollback(at, room, id) => RollbackLosesNothing(s, at, room, id);
    case Withdraw(at, room, id) => WithdrawStep(s, at, room, id);
    case Wipe(at, room) => WipeStep(s, at, room);
    case Deliver(at) => DeliveryLoss(s, at);
    case Join(c, at, room, page) => JoinLoss(s, c, at, room, List(page));
    case JoinUnlisted(c, at, room) => JoinLoss(s, c, at, room, ListFails);
    case _ => AnnouncedIsTimely(s, w);
  }

  ghost predicate WholeRunLoses(s: State, ws: seq<Whole>)
    requires WellFormed(s) && WholeRuns(s, ws)
    decreases |ws|
  {
    ws != [] && (WholeLoses(s, ws[0]) || WholeRunLoses(After(s, Expand(s, ws[0])), ws[1..]))
  }

  lemma {:induction false} WholeRunIsComplete(s: State, ws: seq<Whole>)
    requires WellFormed(s) && Idle(s) && Complete(s) && WholeRuns(s, ws)
    requires !WholeRunLoses(s, ws)
    ensures Complete(WholeAfter(s, ws))
    decreases |ws|
  {
    if ws != [] {
      WholeLoss(s, ws[0]);
      WholeKeepsIdle(s, ws[0]);
      RunIsComplete(s, Expand(s, ws[0]));
      WholeRunIsComplete(After(s, Expand(s, ws[0])), ws[1..]);
    }
  }

  /* ── The promise as the design states it ─────────────────────────────── */

  predicate NoClear(ws: seq<Whole>) { forall j :: 0 <= j < |ws| ==> !ws[j].Clear? }

  // Nothing stored goes unannounced, the bus loses nothing, and no load or listing fails.
  predicate NothingDropped(ws: seq<Whole>) {
    forall j :: 0 <= j < |ws| ==>
      !ws[j].Abandon? && !ws[j].Drop? && !ws[j].Skip? && !ws[j].Miss? && !ws[j].JoinUnlisted?
  }

  ghost predicate NoClearUnderway(s: State) { forall n :: Known(s, n) ==> !n.event.Cleared? }

  // Every join meets at most one page of stored items.
  ghost predicate JoinsFitOnePage(s: State, ws: seq<Whole>)
    requires WellFormed(s) && WholeRuns(s, ws)
    decreases |ws|
  {
    ws == [] ||
    ((ws[0].Join? ==> |RoomIds(s.table, ws[0].room)| <= ITEM_PAGE_SIZE) &&
     JoinsFitOnePage(After(s, Expand(s, ws[0])), ws[1..]))
  }

  lemma SubsetOfSameSize<T>(a: set<T>, b: set<T>)
    requires a <= b && |a| == |b|
    ensures a == b
  {
    assert b == a + (b - a);
  }

  lemma PublishStartsNoClear(s: State, n: Notice)
    requires WellFormed(s) && Enabled(s, Publish(n)) && NoClearUnderway(s)
    ensures NoClearUnderway(Next(s, Publish(n)))
  {
    var t := Next(s, Publish(n));
    assert Known(s, n);
    forall m | Known(t, m) ensures !m.event.Cleared? {
      if i :| i in t.inboxes && m in t.inboxes[i] {
        assert m in s.inboxes[i] || m == n;
        assert Known(s, m);
      } else {
        assert Known(s, m);
      }
    }
  }

  lemma AnnounceStartsNoClear(s: State, n: Notice)
    requires WellFormed(s) && Enabled(s, Announce(n)) && NoClearUnderway(s)
    ensures NoClearUnderway(Next(s, Announce(n)))
  {
    var t := Next(s, Announce(n));
    assert Known(s, n);
    forall m | Known(t, m) ensures !m.event.Cleared? {
      assert Known(s, m);
    }
  }

  lemma StoreStartsNoClear(s: State, step: Step)
    requires WellFormed(s) && Enabled(s, step) && NoClearUnderway(s) && (step.Store? || step.Remove?)
    ensures NoClearUnderway(Next(s, step))
  {
    var t := Next(s, step);
    forall m | Known(t, m) ensures !m.event.Cleared? {
      assert Known(s, m) || !m.event.Cleared?;
    }
  }

  lemma DroppingStartsNoClear(s: State, step: Step)
    requires WellFormed(s) && Enabled(s, step) && NoClearUnderway(s) && Dropping(step)
    ensures NoClearUnderway(Next(s, step))
  {
    if step.Unheard? || step.LoadFails? {
      PopIsKnown(s, Next(s, step), step.at);
    } else {
      KnownShrinks(s, Next(s, step));
    }
  }

  lemma StepStartsNoClear(s: State, step: Step)
    requires WellFormed(s) && Enabled(s, step) && NoClearUnderway(s) && !step.Empty?
    ensures NoClearUnderway(Next(s, step))
  {
    if step.Publish? {
      PublishStartsNoClear(s, step.notice);
    } else if step.Take? {
      PopIsKnown(s, Next(s, step), step.at);
    } else if Dropping(step) {
      DroppingStartsNoClear(s, step);
    } else if step.Announce? {
      AnnounceStartsNoClear(s, step.notice);
    } else if step.Store? || step.Remove? {
      StoreStartsNoClear(s, step);
    } else {
      assert forall n :: Known(Next(s, step), n) <==> Known(s, n);
    }
  }

  lemma {:induction false} RunStartsNoClear(s: State, steps: seq<Step>)
    requires WellFormed(s) && Runs(s, steps) && NoClearUnderway(s)
    requires forall j :: 0 <= j < |steps| ==> !steps[j].Empty?
    ensures NoClearUnderway(After(s, steps))
    decreases |steps|
  {
    if steps != [] {
      StepStartsNoClear(s, steps[0]);
      StepKeepsWellFormed(s, steps[0]);
      RunStartsNoClear(Next(s, steps[0]), steps[1..]);
    }
  }

  lemma PlainStepLosesNothing(s: State, w: Whole)
    requires WellFormed(s) && Idle(s) && NoClearUnderway(s) && Runs(s, Expand(s, w))
    requires w.Join? ==> |RoomIds(s.table, w.room)| <= ITEM_PAGE_SIZE
    requires !w.Abandon? && !w.Drop? && !w.Skip? && !w.Miss? && !w.JoinUnlisted?
    ensures !WholeLoses(s, w)
  {
    match w
    case Deliver(at) =>
      if at in s.inboxes && s.inboxes[at] != [] { assert Known(s, s.inboxes[at][0]); }
    case Join(c, at, room, page) =>
      var t := JoinStages(s, c, at, room, List(page));
      SubsetOfSameSize(page, RoomIds(s.table, room));
    case _ =>
  }

  lemma WholeStartsNoClear(s: State, w: Whole)
    requires WellFormed(s) && Idle(s) && NoClearUnderway(s) && Runs(s, Expand(s, w)) && !w.Clear?
    ensures NoClearUnderway(After(s, Expand(s, w)))
  {
    if w.Wipe? {
      WipeStep(s, w.at, w.room);
      KnownShrinks(s, After(s, Expand(s, w)));
    } else {
      OnlyClearsEmpty(s, w);
      RunStartsNoClear(s, Expand(s, w));
    }
  }

  lemma OnlyClearsEmpty(s: State, w: Whole)
    requires !w.Clear? && !w.Wipe?
    ensures forall j :: 0 <= j < |Expand(s, w)| ==> !Expand(s, w)[j].Empty?
  {
  }

  lemma {:induction false} PlainRunLosesNothing(s: State, ws: seq<Whole>)
    requires WellFormed(s) && Idle(s) && NoClearUnderway(s) && WholeRuns(s, ws)
    requires NoClear(ws) && NothingDropped(ws) && JoinsFitOnePage(s, ws)
    ensures !WholeRunLoses(s, ws)
    decreases |ws|
  {
    if ws != [] {
      PlainStepLosesNothing(s, ws[0]);
      WholeStartsNoClear(s, ws[0]);
      WholeKeepsIdle(s, ws[0]);
      PlainRunLosesNothing(After(s, Expand(s, ws[0])), ws[1..]);
    }
  }

  // Each client shows every stored item of its room.
  predicate ShowsAllStored(t: State) {
    forall k :: k in t.clients ==>
      forall id :: id in RoomItems(t.table, t.clients[k].room) ==>
        id in t.clients[k].items && t.clients[k].items[id] == t.table[id]
  }

  // Each client shows exactly its room's items.
  predicate ShowsExactlyStored(t: State) {
    forall k :: k in t.clients ==> t.clients[k].items == RoomItems(t.table, t.clients[k].room)
  }

  lemma QuietRoomsAreExact(t: State)
    requires WellFormed(t) && Safe(t) && Complete(t) && Quiet(t)
    ensures ShowsExactlyStored(t)
  {
    forall k | k in t.clients ensures t.clients[k].items == RoomItems(t.table, t.clients[k].room) {
      QuietClientsEqualTheTable(t, k);
    }
  }

  lemma QuietRoomsShowAllStored(t: State)
    requires WellFormed(t) && Complete(t) && Quiet(t)
    ensures ShowsAllStored(t)
  {
    forall k | k in t.clients
      ensures forall id :: id in RoomItems(t.table, t.clients[k].room) ==>
        id in t.clients[k].items && t.clients[k].items[id] == t.table[id]
    {
      forall id | id in RoomItems(t.table, t.clients[k].room)
        ensures id in t.clients[k].items && t.clients[k].items[id] == t.table[id]
      {
        QuietClientsShowTheTable(t, k, id);
      }
    }
  }

  // Convergence: without room.clear, while nothing is dropped and joins fit one page, every
  // stored item is on every client of its room or still on its way there; once quiet, all
  // of them are shown, and nothing else is unless an operation was late.
  lemma RoomsConverge(instances: set<InstanceId>, ws: seq<Whole>)
    requires WellFormed(Init(instances)) && WholeRuns(Init(instances), ws)
    requires NoClear(ws) && NothingDropped(ws) && JoinsFitOnePage(Init(instances), ws)
    ensures var t := WholeAfter(Init(instances), ws);
      && Complete(t)
      && (Quiet(t) ==> ShowsAllStored(t))
      && (Quiet(t) && !SomeWholeLate(Init(instances), ws) ==> ShowsExactlyStored(t))
  {
    var s := Init(instances);
    PlainRunLosesNothing(s, ws);
    WholeRunIsComplete(s, ws);
    var t := WholeAfter(s, ws);
    if Quiet(t) {
      QuietRoomsShowAllStored(t);
      if !SomeWholeLate(s, ws) {
        WholeRunIsSafe(s, ws);
        QuietRoomsAreExact(t);
      }
    }
  }
}
