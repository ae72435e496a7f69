/** Changes that are never announced, and uploads on their way to being announced.

    A removal without a word is late exactly if some replica holds what was removed
    and no earlier removal of it is still due there; and so is any other drop of a
    removal that some replica needs. */
module SyncSilent {
  import opened Sync
  import opened SyncSafety
  import opened SyncConvergence
  import opened SyncWhole

  // Some replica holds one of these, and no removal of it is on its way there.
  ghost predicate Held(s: State, ids: set<ItemId>) {
    exists k, id :: k in s.clients && id in View(s.clients[k]) && id in ids &&
      !Due(s, s.clients[k].home, Deleted(s.clients[k].room, id)) && !Due(s, s.clients[k].home, Cleared(s.clients[k].room))
  }

  // Rows went without a word: their removal was needed exactly if one of them was held.
  lemma SilentRemoval(s: State, t: State, ids: set<ItemId>, n: Notice)
    requires Safe(s) && t.clients == s.clients && t.table == s.table - ids
    requires t.unsaid == s.unsaid + multiset{n} && t.outbox == s.outbox && t.inboxes == s.inboxes
    ensures Needed(t, Without(t, n)) <==> Held(s, ids)
  {
    if Needed(t, Without(t, n)) {
      var k, id :| k in t.clients && id in View(t.clients[k]) &&
        !Accounted(Without(t, n), t.clients[k].home, t.clients[k].room, id);
      NoWordLeft(s, t, ids, n, k, id);
    }
    if Held(s, ids) {
      var k, id :| k in s.clients && id in View(s.clients[k]) && id in ids &&
        !Due(s, s.clients[k].home, Deleted(s.clients[k].room, id)) && !Due(s, s.clients[k].home, Cleared(s.clients[k].room));
      NoWordLeft(s, t, ids, n, k, id);
    }
  }

  lemma NoWordLeft(s: State, t: State, ids: set<ItemId>, n: Notice, k: ClientId, id: ItemId)
    requires Safe(s) && t.clients == s.clients && t.table == s.table - ids
    requires t.unsaid == s.unsaid + multiset{n} && t.outbox == s.outbox && t.inboxes == s.inboxes
    requires k in s.clients && id in View(s.clients[k])
    ensures var c := s.clients[k];
      !Accounted(Without(t, n), c.home, c.room, id) <==>
      id in ids && !Due(s, c.home, Deleted(c.room, id)) && !Due(s, c.home, Cleared(c.room))
  {
    assert ReplicaSafe(s, k);
    assert Without(t, n).unsaid == s.unsaid;
    SameNotices(s, Without(t, n), s.clients[k].home, Deleted(s.clients[k].room, id));
    SameNotices(s, Without(t, n), s.clients[k].home, Cleared(s.clients[k].room));
  }

  lemma SameNotices(s: State, t: State, i: InstanceId, event: Event)
    requires t.unsaid == s.unsaid && t.outbox == s.outbox && t.inboxes == s.inboxes
    ensures Due(t, i, event) <==> Due(s, i, event)
  {
    assert forall o: InstanceId :: Heading(t, i, Notice(o, event)) <==> Heading(s, i, Notice(o, event));
  }

  // Dropping a creation leaves every removal on its way.
  lemma CreationIsNotNeeded(s: State, t: State, event: Event)
    requires Safe(s) && Drops(s, t, event) && event.Created?
    ensures !Needed(s, t)
  {
    forall k, id | k in s.clients && id in View(s.clients[k])
      ensures Accounted(t, s.clients[k].home, s.clients[k].room, id)
    {
      assert ReplicaSafe(s, k);
      RemovalStaysDue(s, t, event, s.clients[k].home, Deleted(s.clients[k].room, id));
      RemovalStaysDue(s, t, event, s.clients[k].home, Cleared(s.clients[k].room));
    }
  }

  lemma RemovalStaysDue(s: State, t: State, dropped: Event, i: InstanceId, event: Event)
    requires Drops(s, t, dropped) && event != dropped
    ensures Due(s, i, event) ==> Due(t, i, event)
  {
    if Due(s, i, event) {
      var o: InstanceId :| Heading(s, i, Notice(o, event));
      assert Heading(t, i, Notice(o, event));
    }
  }

  /* ── Uploads, and notices dropped on their way ───────────────────────── */

  lemma PutIsTimely(s: State, at: InstanceId, item: Item)
    requires WellFormed(s) && Idle(s) && Runs(s, Expand(s, Put(at, item)))
    ensures Idle(After(s, Expand(s, Put(at, item))))
    ensures !SomeLate(s, Expand(s, Put(at, item))) && !SomeLost(s, Expand(s, Put(at, item)))
  {
    OneStep(s, Store(at, item));
    OthersLoseNothing(s, Store(at, item));
  }

  lemma TellStep(s: State, n: Notice)
    requires WellFormed(s) && Idle(s) && Runs(s, Expand(s, Tell(n)))
    ensures Enabled(s, Announce(n)) && n.event.Created?
    ensures After(s, Expand(s, Tell(n))) == Next(s, Announce(n)) && Idle(After(s, Expand(s, Tell(n))))
    ensures SomeLate(s, Expand(s, Tell(n))) <==> Late(s, Announce(n))
    ensures !SomeLost(s, Expand(s, Tell(n)))
  {
    OneStep(s, Announce(n));
    AnnounceLoses(s, n);
  }

  // A notice dropped, by whichever step.
  lemma DropStep(s: State, step: Step)
    requires WellFormed(s) && Idle(s) && Runs(s, [step]) && Dropping(step)
    ensures Enabled(s, step) && After(s, [step]) == Dropped(s, step) && Idle(After(s, [step]))
    ensures SomeLate(s, [step]) <==> Needed(s, Dropped(s, step))
    ensures var n := DroppedNotice(s, step);
      SomeLost(s, [step]) <==> n.event.Created? && Awaited(s, Dropped(s, step), n.event.id)
  {
    OneStep(s, step);
  }

  // Dropping a creation is never late.
  lemma CreationDropIsTimely(s: State, step: Step)
    requires WellFormed(s) && Idle(s) && Safe(s) && Runs(s, [step]) && Dropping(step)
    ensures Enabled(s, step)
    ensures DroppedNotice(s, step).event.Created? ==> !SomeLate(s, [step])
  {
    DropStep(s, step);
    DroppingDrops(s, step);
    if DroppedNotice(s, step).event.Created? {
      CreationIsNotNeeded(s, Dropped(s, step), DroppedNotice(s, step).event);
    }
  }

  /* ── Removals without a word ─────────────────────────────────────────── */

  // Rows removed, and the word of it dropped: the store is all that changes.
  lemma DroppedWord(s: State, a: Step, n: Notice, ids: set<ItemId>)
    requires WellFormed(s) && Enabled(s, a) && WellFormed(Next(s, a)) && Enabled(Next(s, a), Forget(n))
    requires Next(s, a) == s.(table := s.table - ids, unsaid := s.unsaid + multiset{n})
    requires !n.event.Created? && (a.Remove? || a.Empty?)
    ensures Next(Next(s, a), Forget(n)) == s.(table := s.table - ids)
    ensures !Loses(s, a) && !Loses(Next(s, a), Forget(n))
  {
    assert s.unsaid + multiset{n} - multiset{n} == s.unsaid;
    OthersLoseNothing(s, a);
  }

  lemma WithdrawStep(s: State, at: InstanceId, room: RoomCode, id: ItemId)
    requires WellFormed(s) && Runs(s, Expand(s, Withdraw(at, room, id)))
    ensures Enabled(s, Remove(at, room, id))
    ensures After(s, Expand(s, Withdraw(at, room, id))) == s.(table := s.table - {id})
    ensures !SomeLost(s, Expand(s, Withdraw(at, room, id)))
  {
    var n := Notice(at, Deleted(room, id));
    TwoSteps(s, Remove(at, room, id), Forget(n));
    DroppedWord(s, Remove(at, room, id), n, {id});
  }

  // The removal is in t, and word of it is now dropped.
  lemma DroppedWordIsLate(s: State, t: State, n: Notice, ids: set<ItemId>)
    requires Safe(s) && WellFormed(t) && Enabled(t, Forget(n))
    requires t == s.(table := s.table - ids, unsaid := s.unsaid + multiset{n})
    ensures Late(t, Forget(n)) <==> Held(s, ids)
    ensures Held(s, ids) ==> !Safe(Next(t, Forget(n)))
  {
    SilentRemoval(s, t, ids, n);
    if Late(t, Forget(n)) {
      LateStepBreaksSafety(t, Forget(n));
    }
  }

  lemma WithdrawIsLate(s: State, at: InstanceId, room: RoomCode, id: ItemId)
    requires WellFormed(s) && Safe(s) && Runs(s, Expand(s, Withdraw(at, room, id)))
    ensures SomeLate(s, Expand(s, Withdraw(at, room, id))) <==> Held(s, {id})
    ensures Held(s, {id}) ==> !Safe(After(s, Expand(s, Withdraw(at, room, id))))
  {
    var n := Notice(at, Deleted(room, id));
    TwoSteps(s, Remove(at, room, id), Forget(n));
    DroppedWordIsLate(s, Next(s, Remove(at, room, id)), n, {id});
  }

  lemma WipeStep(s: State, at: InstanceId, room: RoomCode)
    requires WellFormed(s) && Runs(s, Expand(s, Wipe(at, room)))
    ensures Enabled(s, Empty(at, room))
    ensures After(s, Expand(s, Wipe(at, room))) == s.(table := s.table - RoomIds(s.table, room))
    ensures !SomeLost(s, Expand(s, Wipe(at, room)))
  {
    var n := Notice(at, Cleared(room));
    TwoSteps(s, Empty(at, room), Forget(n));
    DroppedWord(s, Empty(at, room), n, RoomIds(s.table, room));
  }

  lemma WipeIsLate(s: State, at: InstanceId, room: RoomCode)
    requires WellFormed(s) && Safe(s) && Runs(s, Expand(s, Wipe(at, room)))
    ensures SomeLate(s, Expand(s, Wipe(at, room))) <==> Held(s, RoomIds(s.table, room))
    ensures Held(s, RoomIds(s.table, room)) ==> !Safe(After(s, Expand(s, Wipe(at, room))))
  {
    var n := Notice(at, Cleared(room));
    TwoSteps(s, Empty(at, room), Forget(n));
    DroppedWordIsLate(s, Next(s, Empty(at, room)), n, RoomIds(s.table, room));
  }

  lemma {:induction false} AllButTheLast(s: State, steps: seq<Step>, last: Step)
    requires WellFormed(s) && Runs(s, steps + [last])
    ensures Runs(s, steps) && Enabled(After(s, steps), last)
    ensures After(s, steps + [last]) == Next(After(s, steps), last)
    ensures SomeLate(s, steps + [last]) <==> SomeLate(s, steps) || Late(After(s, steps), last)
    ensures SomeLost(s, steps + [last]) <==> SomeLost(s, steps) || Loses(After(s, steps), last)
    decreases |steps|
  {
    if steps == [] {
      assert [] + [last] == [last];
      OneStep(s, last);
    } else {
      StepKeepsWellFormed(s, steps[0]);
      assert (steps + [last])[1..] == steps[1..] + [last];
      AllButTheLast(Next(s, steps[0]), steps[1..], last);
    }
  }

  // Taking an upload's file back is a removal without a word, and then nothing to announce.
  lemma RollbackUnfolds(s: State, at: InstanceId, room: RoomCode, id: ItemId)
    ensures Expand(s, Rollback(at, room, id)) ==
      Expand(s, Withdraw(at, room, id)) + [Forget(Notice(at, Created(id)))]
  {
  }

  lemma RollbackStep(s: State, at: InstanceId, room: RoomCode, id: ItemId)
    requires WellFormed(s) && Runs(s, Expand(s, Rollback(at, room, id)))
    ensures Enabled(s, Remove(at, room, id)) && Notice(at, Created(id)) in s.unsaid
    ensures After(s, Expand(s, Rollback(at, room, id))) == Without(s.(table := s.table - {id}), Notice(at, Created(id)))
  {
    RollbackUnfolds(s, at, room, id);
    AllButTheLast(s, Expand(s, Withdraw(at, room, id)), Forget(Notice(at, Created(id))));
    WithdrawStep(s, at, room, id);
  }

  // The item is gone before its notice is dropped.
  lemma RollbackLosesNothing(s: State, at: InstanceId, room: RoomCode, id: ItemId)
    requires WellFormed(s) && Runs(s, Expand(s, Rollback(at, room, id)))
    ensures !SomeLost(s, Expand(s, Rollback(at, room, id)))
  {
    RollbackUnfolds(s, at, room, id);
    AllButTheLast(s, Expand(s, Withdraw(at, room, id)), Forget(Notice(at, Created(id))));
    WithdrawStep(s, at, room, id);
  }

  lemma RollbackIsLate(s: State, at: InstanceId, room: RoomCode, id: ItemId)
    requires WellFormed(s) && Safe(s) && Runs(s, Expand(s, Rollback(at, room, id)))
    ensures SomeLate(s, Expand(s, Rollback(at, room, id))) <==> Held(s, {id})
    ensures Held(s, {id}) ==> !Safe(After(s, Expand(s, Rollback(at, room, id))))
  {
    RollbackUnfolds(s, at, room, id);
    AllButTheLast(s, Expand(s, Withdraw(at, room, id)), Forget(Notice(at, Created(id))));
    WithdrawIsLate(s, at, room, id);
    var m, born := After(s, Expand(s, Withdraw(at, room, id))), Notice(at, Created(id));
    if Held(s, {id}) {
      DroppingRepairsNothing(m, born);
    } else {
      RunIsSafe(s, Expand(s, Withdraw(at, room, id)));
      DroppingDrops(m, Forget(born));
      CreationIsNotNeeded(m, Without(m, born), born.event);
    }
  }

  // What nothing accounts for, nothing accounts for with a notice less.
  lemma DroppingRepairsNothing(s: State, n: Notice)
    requires !Safe(s)
    ensures !Safe(Without(s, n))
  {
    var k :| !ReplicaSafe(s, k);
    var c := s.clients[k];
    var id :| id in View(c) && !Accounted(s, c.home, c.room, id);
    NothingNewDue(s, Without(s, n), c.home, c.room, id);
    assert !ReplicaSafe(Without(s, n), k);
  }
}
