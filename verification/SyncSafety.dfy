/** No deleted item survives on a client.

    Every id a replica holds, or is about to hold, is stored, or its removal is
    still on its way to that replica's instance. `Late` is the only way to break
    this: an item told to clients whose removal has already gone past them, or the drop
    of a removal that some replica still needed. */
module SyncSafety {
  import opened Sync

  // The notice will still reach instance i's own clients.
  ghost predicate Heading(s: State, i: InstanceId, n: Notice) {
    || n in s.unsaid
    || (n.origin != i && (n in s.outbox || (i in s.inboxes && n in s.inboxes[i])))
  }

  ghost predicate Due(s: State, i: InstanceId, event: Event) {
    exists o: InstanceId :: Heading(s, i, Notice(o, event))
  }

  ghost predicate Accounted(s: State, i: InstanceId, room: RoomCode, id: ItemId) {
    id in s.table || Due(s, i, Deleted(room, id)) || Due(s, i, Cleared(room))
  }

  ghost predicate ReplicaSafe(s: State, k: ClientId) {
    k in s.clients ==>
      forall id :: id in View(s.clients[k]) ==> Accounted(s, s.clients[k].home, s.clients[k].room, id)
  }

  ghost predicate Safe(s: State) {
    forall k :: ReplicaSafe(s, k)
  }

  ghost predicate HasListener(s: State, i: InstanceId, room: RoomCode) {
    exists k :: k in s.clients && Hears(s.clients[k], i, room)
  }

  // Some replica holds an item that nothing in t accounts for.
  ghost predicate Needed(s: State, t: State) {
    exists k, id :: k in s.clients && id in View(s.clients[k]) &&
      !Accounted(t, s.clients[k].home, s.clients[k].room, id)
  }

  // The step tells clients of an item that is neither stored nor about to be retracted
  // there, or drops the one notice that would retract it.
  ghost predicate Late(s: State, step: Step)
    requires WellFormed(s) && Enabled(s, step)
  {
    match step
    case Announce(n) =>
      n.event.Created? &&
      (assert Known(s, n);
       var item := s.history[n.event.id];
       HasListener(s, n.origin, item.room) && !Accounted(s, n.origin, item.room, item.id))
    case Relay(at) =>
      var item := s.relays[at];
      HasListener(s, at, item.room) && !Accounted(s, at, item.room, item.id)
    case Socket(k, act) =>
      act.Greet? &&
      var c := s.clients[k];
      exists id :: id in c.phase.snapshot && !Accounted(s, c.home, c.room, id)
    case _ => Dropping(step) && Needed(s, Dropped(s, step))
  }

  // The one delivery in which instance i's clients learn of the notice.
  ghost predicate Spent(s: State, step: Step, i: InstanceId, n: Notice)
    requires Enabled(s, step)
  {
    || (step == Announce(n) && n.origin == i)
    || (step == Take(i) && s.inboxes[i][0] == n && n.origin != i)
  }

  lemma HeadingStaysPublish(s: State, m: Notice, i: InstanceId, n: Notice)
    requires WellFormed(s) && Enabled(s, Publish(m)) && i in s.inboxes
    requires Heading(s, i, n)
    ensures Heading(Next(s, Publish(m)), i, n)
  {
    assert Next(s, Publish(m)).inboxes[i] == s.inboxes[i] + [m];
  }

  lemma HeadingStaysTake(s: State, at: InstanceId, i: InstanceId, n: Notice)
    requires WellFormed(s) && Enabled(s, Take(at)) && i in s.inboxes
    requires Heading(s, i, n) && !Spent(s, Take(at), i, n)
    ensures Heading(Next(s, Take(at)), i, n)
  {
    var t := Next(s, Take(at));
    assert t.inboxes == s.inboxes[at := s.inboxes[at][1..]];
    assert s.inboxes[at] == [s.inboxes[at][0]] + s.inboxes[at][1..];
  }

  lemma HeadingStays(s: State, step: Step, i: InstanceId, n: Notice)
    requires WellFormed(s) && Enabled(s, step) && i in s.inboxes
    requires Heading(s, i, n) && !Spent(s, step, i, n) && !Dropping(step)
    ensures Heading(Next(s, step), i, n)
  {
    match step
    case Publish(m) => HeadingStaysPublish(s, m, i, n);
    case Take(at) => HeadingStaysTake(s, at, i, n);
    case _ =>
  }

  lemma DueStays(s: State, step: Step, i: InstanceId, event: Event)
    requires WellFormed(s) && Enabled(s, step) && i in s.inboxes
    requires Due(s, i, event) && !Dropping(step)
    requires forall o: InstanceId :: !Spent(s, step, i, Notice(o, event))
    ensures Due(Next(s, step), i, event)
  {
    var o: InstanceId :| Heading(s, i, Notice(o, event));
    HeadingStays(s, step, i, Notice(o, event));
  }

  // Removing an item from the table puts its removal on the way to every instance.
  lemma AccountedStays(s: State, step: Step, i: InstanceId, room: RoomCode, id: ItemId)
    requires WellFormed(s) && Enabled(s, step) && i in s.inboxes
    requires Accounted(s, i, room, id) && !Dropping(step)
    requires id in s.history && s.history[id].room == room
    requires forall o: InstanceId :: !Spent(s, step, i, Notice(o, Deleted(room, id)))
    requires forall o: InstanceId :: !Spent(s, step, i, Notice(o, Cleared(room)))
    ensures Accounted(Next(s, step), i, room, id)
  {
    var t := Next(s, step);
    if Due(s, i, Deleted(room, id)) {
      DueStays(s, step, i, Deleted(room, id));
    } else if Due(s, i, Cleared(room)) {
      DueStays(s, step, i, Cleared(room));
    } else if id !in t.table {
      match step
      case Remove(at, _, _) => assert Heading(t, i, Notice(at, Deleted(room, id)));
      case Empty(at, _) => assert Heading(t, i, Notice(at, Cleared(room)));
    }
  }

  // A broadcast leaves nothing unaccounted for: the ids it adds are accounted for in s,
  // and the removals it delivers take the ids they were accounting for off the replica.
  lemma BroadcastAccounted(s: State, step: Step, i: InstanceId, room: RoomCode, frame: Frame, k: ClientId, id: ItemId)
    requires WellFormed(s) && ReplicaSafe(s, k) && Enabled(s, step) && !step.Socket? && i in s.inboxes
    requires Next(s, step).clients == Broadcast(s.clients, i, room, frame)
    requires k in s.clients && id in View(Next(s, step).clients[k]) && !Dropping(step)
    requires !frame.Welcome?
    requires frame.ItemCreated? && Hears(s.clients[k], i, room) ==>
               && Accounted(s, i, room, frame.item.id)
               && frame.item.id in s.history && s.history[frame.item.id].room == room
    requires forall o: InstanceId, j: InstanceId, r: RoomCode ::
               Spent(s, step, j, Notice(o, Cleared(r))) ==> j == i && frame == RoomCleared && r == room
    requires forall o: InstanceId, j: InstanceId, r: RoomCode, x: ItemId ::
               Spent(s, step, j, Notice(o, Deleted(r, x))) ==> j == i && frame == ItemDeleted(x) && r == room
    ensures var c := Next(s, step).clients[k]; Accounted(Next(s, step), c.home, c.room, id)
  {
    BroadcastViews(s.clients, i, room, frame);
    var c := s.clients[k];
    assert ClientOk(s, c) && ReplicaSafe(s, k);
    AccountedStays(s, step, c.home, c.room, id);
  }

  lemma AnnounceAccounted(s: State, n: Notice, k: ClientId, id: ItemId)
    requires WellFormed(s) && Safe(s) && Enabled(s, Announce(n)) && !Late(s, Announce(n))
    requires k in s.clients && id in View(Next(s, Announce(n)).clients[k])
    ensures var c := Next(s, Announce(n)).clients[k]; Accounted(Next(s, Announce(n)), c.home, c.room, id)
  {
    assert Known(s, n);
    assert NoticeOk(s, n.event);
    BroadcastAccounted(s, Announce(n), n.origin, RoomOf(s, n.event), FrameFor(s, n.event), k, id);
  }

  lemma TakeAccounted(s: State, at: InstanceId, k: ClientId, id: ItemId)
    requires WellFormed(s) && Safe(s) && Enabled(s, Take(at))
    requires k in s.clients && id in View(Next(s, Take(at)).clients[k])
    ensures var c := Next(s, Take(at)).clients[k]; Accounted(Next(s, Take(at)), c.home, c.room, id)
  {
    var t := Next(s, Take(at));
    var n := s.inboxes[at][0];
    PopIsKnown(s, t, at);
    assert NoticeOk(s, n.event);
    if n.origin != at && !n.event.Created? {
      BroadcastAccounted(s, Take(at), at, RoomOf(s, n.event), FrameFor(s, n.event), k, id);
    } else {
      var c := s.clients[k];
      assert ClientOk(s, c) && ReplicaSafe(s, k);
      AccountedStays(s, Take(at), c.home, c.room, id);
    }
  }

  lemma RelayAccounted(s: State, at: InstanceId, k: ClientId, id: ItemId)
    requires WellFormed(s) && Safe(s) && Enabled(s, Relay(at)) && !Late(s, Relay(at))
    requires k in s.clients && id in View(Next(s, Relay(at)).clients[k])
    ensures var c := Next(s, Relay(at)).clients[k]; Accounted(Next(s, Relay(at)), c.home, c.room, id)
  {
    BroadcastAccounted(s, Relay(at), at, s.relays[at].room, ItemCreated(s.relays[at]), k, id);
  }

  lemma ActAccounted(s: State, m: ClientId, act: Act, k: ClientId, id: ItemId)
    requires WellFormed(s) && Safe(s) && Enabled(s, Socket(m, act)) && !Late(s, Socket(m, act))
    requires k in Next(s, Socket(m, act)).clients && id in View(Next(s, Socket(m, act)).clients[k])
    ensures var c := Next(s, Socket(m, act)).clients[k]; Accounted(Next(s, Socket(m, act)), c.home, c.room, id)
  {
    var c := Next(s, Socket(m, act)).clients[k];
    assert ReplicaSafe(s, k);
    if m == k {
      ActView(s, m, act);
      ActKeepsClientOk(s, m, act);
    } else {
      assert ClientOk(s, s.clients[k]);
    }
    assert Accounted(s, c.home, c.room, id);
    AccountedStays(s, Socket(m, act), c.home, c.room, id);
  }

  lemma QueueAccounted(s: State, step: Step, k: ClientId, id: ItemId)
    requires WellFormed(s) && Safe(s) && Enabled(s, step)
    requires step.Store? || step.Remove? || step.Empty? || step.Publish?
    requires k in Next(s, step).clients && id in View(Next(s, step).clients[k])
    ensures var c := Next(s, step).clients[k]; Accounted(Next(s, step), c.home, c.room, id)
  {
    var c := s.clients[k];
    assert Next(s, step).clients == s.clients;
    assert ClientOk(s, c) && ReplicaSafe(s, k);
    AccountedStays(s, step, c.home, c.room, id);
  }

  lemma DropAccounted(s: State, step: Step, k: ClientId, id: ItemId)
    requires WellFormed(s) && Enabled(s, step) && Dropping(step) && !Late(s, step)
    requires k in s.clients && id in View(s.clients[k])
    ensures var c := s.clients[k]; Accounted(Next(s, step), c.home, c.room, id)
  {
  }

  // Nothing a step leaves on a replica is unaccounted for, unless the step was late.
  lemma TimelyStepKeepsSafety(s: State, step: Step)
    requires WellFormed(s) && Safe(s) && Enabled(s, step) && !Late(s, step)
    ensures Safe(Next(s, step))
  {
    var t := Next(s, step);
    forall k ensures ReplicaSafe(t, k) {
      if k in t.clients {
        forall id | id in View(t.clients[k])
          ensures Accounted(t, t.clients[k].home, t.clients[k].room, id)
        {
          match step
          case Announce(n) => AnnounceAccounted(s, n, k, id);
          case Take(at) => TakeAccounted(s, at, k, id);
          case Relay(at) => RelayAccounted(s, at, k, id);
          case Socket(m, act) => ActAccounted(s, m, act, k, id);
          case _ =>
            if Dropping(step) { DropAccounted(s, step, k, id); } else { QueueAccounted(s, step, k, id); }
        }
      }
    }
  }

  // A late step always leaves somebody with an item nobody will take back.
  lemma LateStepBreaksSafety(s: State, step: Step)
    requires WellFormed(s) && Enabled(s, step) && Late(s, step)
    ensures !Safe(Next(s, step))
  {
    if Dropping(step) {
      LateDropBreaksSafety(s, Dropped(s, step));
    } else {
      match step
      case Announce(n) =>
        assert Known(s, n);
        LateBroadcast(s, Next(s, step), n.origin, s.history[n.event.id]);
      case Relay(at) =>
        LateBroadcast(s, Next(s, step), at, s.relays[at]);
      case Socket(k, act) =>
        LateGreetingBreaksSafety(s, k);
    }
  }

  lemma LateDropBreaksSafety(s: State, t: State)
    requires t.clients == s.clients && Needed(s, t)
    ensures !Safe(t)
  {
    var k, id :| k in s.clients && id in View(s.clients[k]) &&
      !Accounted(t, s.clients[k].home, s.clients[k].room, id);
    assert !ReplicaSafe(t, k);
  }

  lemma LateGreetingBreaksSafety(s: State, k: ClientId)
    requires WellFormed(s) && Enabled(s, Socket(k, Greet)) && Late(s, Socket(k, Greet))
    ensures !Safe(Next(s, Socket(k, Greet)))
  {
    ActView(s, k, Greet);
    var t, c := Next(s, Socket(k, Greet)), s.clients[k];
    var id :| id in c.phase.snapshot && !Accounted(s, c.home, c.room, id);
    assert id in View(t.clients[k]);
    NothingNewDue(s, t, c.home, c.room, id);
    assert !ReplicaSafe(t, k);
  }

  lemma NothingNewDue(s: State, t: State, i: InstanceId, room: RoomCode, id: ItemId)
    requires !Accounted(s, i, room, id)
    requires t.table == s.table && t.inboxes == s.inboxes
    requires forall n :: n in t.unsaid ==> n in s.unsaid
    requires forall n :: n in t.outbox ==> n in s.outbox || n.event.Created?
    ensures !Accounted(t, i, room, id)
  {
    forall o: InstanceId
      ensures !Heading(t, i, Notice(o, Deleted(room, id))) && !Heading(t, i, Notice(o, Cleared(room)))
    {
      assert !Heading(s, i, Notice(o, Deleted(room, id)));
      assert !Heading(s, i, Notice(o, Cleared(room)));
    }
  }

  lemma LateBroadcast(s: State, t: State, i: InstanceId, item: Item)
    requires HasListener(s, i, item.room) && !Accounted(s, i, item.room, item.id)
    requires t.table == s.table && t.inboxes == s.inboxes
    requires forall n :: n in t.unsaid ==> n in s.unsaid
    requires forall n :: n in t.outbox ==> n in s.outbox || n.event.Created?
    requires t.clients == Broadcast(s.clients, i, item.room, ItemCreated(item))
    ensures !Safe(t)
  {
    BroadcastViews(s.clients, i, item.room, ItemCreated(item));
    var k :| k in s.clients && Hears(s.clients[k], i, item.room);
    NothingNewDue(s, t, i, item.room, item.id);
    assert item.id in View(t.clients[k]);
    assert !ReplicaSafe(t, k);
  }

  /* ── The step and run theorems ───────────────────────────────────────── */

  // Lateness is exactly what breaks safety.
  lemma SafetyStep(s: State, step: Step)
    requires WellFormed(s) && Safe(s) && Enabled(s, step)
    ensures WellFormed(Next(s, step))
    ensures Safe(Next(s, step)) <==> !Late(s, step)
  {
    StepKeepsWellFormed(s, step);
    if Late(s, step) {
      LateStepBreaksSafety(s, step);
    } else {
      TimelyStepKeepsSafety(s, step);
    }
  }

  // steps can be taken one after another from s.
  ghost predicate Runs(s: State, steps: seq<Step>)
    requires WellFormed(s)
    decreases |steps|
  {
    steps == [] || (Enabled(s, steps[0]) &&
                    (StepKeepsWellFormed(s, steps[0]); Runs(Next(s, steps[0]), steps[1..])))
  }

  ghost function After(s: State, steps: seq<Step>): (t: State)
    requires WellFormed(s) && Runs(s, steps)
    ensures WellFormed(t)
    decreases |steps|
  {
    if steps == [] then s
    else (StepKeepsWellFormed(s, steps[0]); After(Next(s, steps[0]), steps[1..]))
  }

  ghost predicate SomeLate(s: State, steps: seq<Step>)
    requires WellFormed(s) && Runs(s, steps)
    decreases |steps|
  {
    steps != [] &&
    (Late(s, steps[0]) ||
     (StepKeepsWellFormed(s, steps[0]); SomeLate(Next(s, steps[0]), steps[1..])))
  }

  lemma {:induction false} RunIsSafe(s: State, steps: seq<Step>)
    requires WellFormed(s) && Safe(s) && Runs(s, steps)
    requires !SomeLate(s, steps)
    ensures Safe(After(s, steps))
    decreases |steps|
  {
    if steps != [] {
      SafetyStep(s, steps[0]);
      RunIsSafe(Next(s, steps[0]), steps[1..]);
    }
  }

  // Every message has been delivered and read.
  ghost predicate Quiet(s: State) {
    && s.unsaid == multiset{} && s.outbox == multiset{} && s.relays == map[]
    && (forall i :: i in s.inboxes ==> s.inboxes[i] == [])
    && (forall k :: k in s.clients ==> s.clients[k].phase.Greeted? && s.clients[k].pending == [])
  }

  // Once quiet, clients hold nothing but stored items of their own room, unchanged.
  lemma QuietClientsHoldOnlyStoredItems(s: State, k: ClientId)
    requires WellFormed(s) && Safe(s) && Quiet(s) && k in s.clients
    ensures forall id :: id in s.clients[k].items ==>
      id in s.table && s.table[id] == s.clients[k].items[id] && s.table[id].room == s.clients[k].room
  {
    assert View(s.clients[k]) == s.clients[k].items;
    assert ClientOk(s, s.clients[k]) && ReplicaSafe(s, k);
  }

  // An item still shown by a client is accounted for, or its removal is in the client's own queue.
  predicate Retracts(frame: Frame, id: ItemId) {
    match frame
    case ItemCreated(_) => false
    case ItemDeleted(x) => x == id
    case RoomCleared => true
    case Welcome(items) => id !in items
  }

  lemma {:induction false} OnlyARetractionRemoves(items: map<ItemId, Item>, frames: seq<Frame>, id: ItemId)
    requires id in items && id !in Drain(items, frames)
    ensures exists j :: 0 <= j < |frames| && Retracts(frames[j], id)
    decreases |frames|
  {
    if id in Apply(items, frames[0]) {
      OnlyARetractionRemoves(Apply(items, frames[0]), frames[1..], id);
      var j :| 0 <= j < |frames[1..]| && Retracts(frames[1..][j], id);
      assert Retracts(frames[j + 1], id);
    } else {
      assert Retracts(frames[0], id);
    }
  }

  lemma ShownItemsAreAccounted(s: State, k: ClientId, id: ItemId)
    requires WellFormed(s) && Safe(s) && k in s.clients && id in s.clients[k].items
    ensures var c := s.clients[k];
      || Accounted(s, c.home, c.room, id)
      || exists j :: 0 <= j < |c.pending| && Retracts(c.pending[j], id)
  {
    var c := s.clients[k];
    assert ReplicaSafe(s, k);
    if id !in View(c) {
      OnlyARetractionRemoves(c.items, c.pending, id);
    }
  }
}
