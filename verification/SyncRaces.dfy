/** Runs in which the server's unlocked pairs do come apart.

    For each way a step can be late, a run from the start that reaches it. By the step
    theorem each of these ends with a replica that nothing on its way will put right. */
module SyncRaces {
  import opened Sync
  import opened SyncSafety

  const ROOM := "kfrb-mp3x"
  const NOTE := Item(9, ROOM, 1, "hello")

  const BORN := Created(9)
  const GONE := Deleted(ROOM, 9)

  // Some run from the start ends in s.
  ghost predicate Reachable(instances: set<InstanceId>, s: State) {
    exists steps :: RunsTo(Init(instances), steps, s)
  }

  ghost predicate RunsTo(s: State, steps: seq<Step>, t: State) {
    WellFormed(s) && Runs(s, steps) && After(s, steps) == t
  }

  lemma {:induction false} RunsOneMore(s: State, steps: seq<Step>, t: State, step: Step)
    requires RunsTo(s, steps, t) && Enabled(t, step)
    ensures WellFormed(t) && RunsTo(s, steps + [step], Next(t, step))
    decreases |steps|
  {
    StepKeepsWellFormed(t, step);
    if steps == [] {
      assert [step][1..] == [];
      assert steps + [step] == [step];
    } else {
      StepKeepsWellFormed(s, steps[0]);
      assert (steps + [step])[1..] == steps[1..] + [step];
      RunsOneMore(Next(s, steps[0]), steps[1..], t, step);
    }
  }

  lemma Starts(instances: set<InstanceId>)
    ensures Reachable(instances, Init(instances))
  {
    InitWellFormed(instances);
    assert RunsTo(Init(instances), [], Init(instances));
  }

  lemma ReachableIsWellFormed(instances: set<InstanceId>, s: State)
    requires Reachable(instances, s)
    ensures WellFormed(s)
  {
    var steps :| RunsTo(Init(instances), steps, s);
  }

  lemma Reach(instances: set<InstanceId>, s: State, step: Step, t: State)
    requires Reachable(instances, s) && WellFormed(s) && Enabled(s, step) && t == Next(s, step)
    ensures Reachable(instances, t)
  {
    var steps :| RunsTo(Init(instances), steps, s);
    RunsOneMore(Init(instances), steps, s, step);
  }

  lemma ReachStored(instances: set<InstanceId>, s: State, at: InstanceId, item: Item, t: State)
    requires Reachable(instances, s) && at in s.inboxes && item.id !in s.history
    requires t == s.(table := s.table[item.id := item], history := s.history[item.id := item],
                     unsaid := s.unsaid + multiset{Notice(at, Created(item.id))})
    ensures Reachable(instances, t)
  {
    ReachableIsWellFormed(instances, s);
    Reach(instances, s, Store(at, item), t);
  }

  lemma ReachRemoved(instances: set<InstanceId>, s: State, at: InstanceId, room: RoomCode, id: ItemId, t: State)
    requires Reachable(instances, s) && at in s.inboxes && id in s.table && s.table[id].room == room
    requires t == s.(table := s.table - {id}, unsaid := s.unsaid + multiset{Notice(at, Deleted(room, id))})
    ensures Reachable(instances, t)
  {
    ReachableIsWellFormed(instances, s);
    Reach(instances, s, Remove(at, room, id), t);
  }

  lemma ReachPublished(instances: set<InstanceId>, s: State, n: Notice, t: State)
    requires Reachable(instances, s) && s.outbox == multiset{n} && s.inboxes == map[0 := [], 1 := []]
    requires t == s.(outbox := multiset{}, inboxes := map[0 := [n], 1 := [n]])
    ensures Reachable(instances, t)
  {
    ReachableIsWellFormed(instances, s);
    QueuedForBoth(s.inboxes, n);
    Reach(instances, s, Publish(n), t);
  }

  lemma QueuedForBoth(inboxes: map<InstanceId, seq<Notice>>, n: Notice)
    requires inboxes == map[0 := [], 1 := []]
    ensures (map i | i in inboxes :: inboxes[i] + [n]) == map[0 := [n], 1 := [n]]
  {
    assert [] + [n] == [n];
  }

  // The clients are told what n says.
  lemma ReachAnnounced(instances: set<InstanceId>, s: State, n: Notice, c: Client, d: Client, t: State)
    requires Reachable(instances, s) && n in s.unsaid && s.clients == map[7 := c]
    requires n.event.Created? ==> n.event.id in s.history
    requires d == if Hears(c, n.origin, RoomOf(s, n.event)) then Push(c, FrameFor(s, n.event)) else c
    requires t == s.(unsaid := s.unsaid - multiset{n}, outbox := s.outbox + multiset{n}, clients := map[7 := d])
    ensures Reachable(instances, t)
  {
    ReachableIsWellFormed(instances, s);
    assert Broadcast(s.clients, n.origin, RoomOf(s, n.event), FrameFor(s, n.event)) == map[7 := d];
    Reach(instances, s, Announce(n), t);
  }

  lemma ReachAct(instances: set<InstanceId>, s: State, act: Act, c: Client, t: State)
    requires Reachable(instances, s) && Enabled(s, Socket(7, act)) && !act.Leave?
    requires s.clients.Keys <= {7}
    requires c == ActOn(s, 7, act).value
    requires t == s.(clients := map[7 := c])
    ensures Reachable(instances, t)
  {
    ReachableIsWellFormed(instances, s);
    assert s.clients[7 := c] == map[7 := c];
    Reach(instances, s, Socket(7, act), t);
  }

  const STORED := map[9 := NOTE]

  // A client has registered at instance 0; nothing else has happened.
  const LISTENER := Client(0, ROOM, Registered, map[], [])
  function Listening(instances: set<InstanceId>): State { Init(instances).(clients := map[7 := LISTENER]) }

  lemma ReachListening(instances: set<InstanceId>)
    requires 0 in instances
    ensures Reachable(instances, Listening(instances))
  {
    Starts(instances);
    ReachAct(instances, Init(instances), Register(0, ROOM), LISTENER, Listening(instances));
  }

  /* ── A creation announced after its deletion ─────────────────────────── */

  function DeletedFirst(): State {
    Listening({0}).(history := STORED, unsaid := multiset{Notice(0, BORN)}, outbox := multiset{Notice(0, GONE)},
                    clients := map[7 := LISTENER.(pending := [ItemDeleted(9)])])
  }

  lemma ReachDeletedFirst()
    ensures Reachable({0}, DeletedFirst())
  {
    var born, gone := Notice(0, BORN), Notice(0, GONE);
    ReachListening({0});
    var s := Listening({0});
    var s1 := s.(table := STORED, history := STORED, unsaid := multiset{born});
    ReachStored({0}, s, 0, NOTE, s1);
    var s2 := s.(history := STORED, unsaid := multiset{born, gone});
    ReachRemoved({0}, s1, 0, ROOM, 9, s2);
    ReachAnnounced({0}, s2, gone, LISTENER, LISTENER.(pending := [ItemDeleted(9)]), DeletedFirst());
  }

  lemma CreationCanBeAnnouncedLate()
    ensures exists s, n :: Reachable({0}, s) && WellFormed(s) && Enabled(s, Announce(n)) && Late(s, Announce(n))
  {
    ReachDeletedFirst();
    assert Hears(DeletedFirst().clients[7], 0, ROOM);
    assert Late(DeletedFirst(), Announce(Notice(0, BORN)));
  }

  /* ── A greeting queued after a deletion its list had missed ──────────── */

  function ListedBeforeDeletion(): State {
    DeletedFirst().(clients := map[7 := LISTENER.(phase := Listed(STORED), pending := [ItemDeleted(9)])])
  }

  lemma OneNotePage()
    ensures IsPage(STORED, ROOM, {9}) && Rows(STORED, {9}) == STORED
  {
    assert RoomIds(STORED, ROOM) == {9};
  }

  const LISTING := LISTENER.(phase := Listed(STORED))
  function ListedNote(): State {
    Listening({0}).(table := STORED, history := STORED, unsaid := multiset{Notice(0, BORN)}, clients := map[7 := LISTING])
  }

  lemma ReachListedNote()
    ensures Reachable({0}, ListedNote())
  {
    ReachListening({0});
    var s := ListedNote().(clients := map[7 := LISTENER]);
    ReachStored({0}, Listening({0}), 0, NOTE, s);
    OneNotePage();
    ReachAct({0}, s, List({9}), LISTING, ListedNote());
  }

  function RemovedNote(): State {
    ListedNote().(table := map[], unsaid := multiset{Notice(0, BORN), Notice(0, GONE)})
  }

  lemma ReachRemovedNote()
    ensures Reachable({0}, RemovedNote())
  {
    ReachListedNote();
    ReachRemoved({0}, ListedNote(), 0, ROOM, 9, RemovedNote());
  }

  lemma ListingIsTold()
    ensures Push(LISTING, ItemDeleted(9)) == LISTING.(pending := [ItemDeleted(9)])
  {
  }

  lemma ReachListedBeforeDeletion()
    ensures Reachable({0}, ListedBeforeDeletion())
  {
    ReachRemovedNote();
    ListingIsTold();
    ReachAnnounced({0}, RemovedNote(), Notice(0, GONE), LISTING,
                   LISTING.(pending := [ItemDeleted(9)]), ListedBeforeDeletion());
  }

  lemma GreetingIsLate()
    requires WellFormed(ListedBeforeDeletion())
    ensures Enabled(ListedBeforeDeletion(), Socket(7, Greet)) && Late(ListedBeforeDeletion(), Socket(7, Greet))
  {
    var s := ListedBeforeDeletion();
    assert 9 in s.clients[7].phase.snapshot && !Accounted(s, 0, ROOM, 9);
  }

  lemma GreetingCanBeLate()
    ensures exists s, c :: Reachable({0}, s) && WellFormed(s) && Enabled(s, Socket(c, Greet)) && Late(s, Socket(c, Greet))
  {
    ReachListedBeforeDeletion();
    ReachableIsWellFormed({0}, ListedBeforeDeletion());
    GreetingIsLate();
  }

  /* ── A relay of an item deleted while it was loaded ──────────────────── */

  function Loaded(): State {
    Listening({0, 1}).(table := STORED, history := STORED, relays := map[0 := NOTE],
                       inboxes := map[0 := [], 1 := [Notice(1, BORN)]])
  }

  lemma ReachAnnouncedNote()
    ensures var t := Listening({0, 1}).(table := STORED, history := STORED, outbox := multiset{Notice(1, BORN)});
      Reachable({0, 1}, t)
  {
    var born := Notice(1, BORN);
    ReachListening({0, 1});
    var s := Listening({0, 1});
    var s1 := s.(table := STORED, history := STORED, unsaid := multiset{born});
    ReachStored({0, 1}, s, 1, NOTE, s1);
    ReachAnnounced({0, 1}, s1, born, LISTENER, LISTENER,
                   s.(table := STORED, history := STORED, outbox := multiset{born}));
  }

  lemma ReachLoaded()
    ensures Reachable({0, 1}, Loaded())
  {
    var born := Notice(1, BORN);
    ReachAnnouncedNote();
    var s := Listening({0, 1}).(table := STORED, history := STORED, outbox := multiset{born});
    var t := Listening({0, 1}).(table := STORED, history := STORED, inboxes := map[0 := [born], 1 := [born]]);
    assert s.inboxes == map[0 := [], 1 := []];
    ReachPublished({0, 1}, s, born, t);
    ReachLoad(t, born);
  }

  lemma ReachLoad(s: State, born: Notice)
    requires born == Notice(1, BORN) && Reachable({0, 1}, s)
    requires s == Listening({0, 1}).(table := STORED, history := STORED, inboxes := map[0 := [born], 1 := [born]])
    ensures Reachable({0, 1}, Loaded())
  {
    assert [born][1..] == [];
    assert s.inboxes[0 := []] == map[0 := [], 1 := [born]];
    assert s.relays[0 := NOTE] == map[0 := NOTE];
    ReachableIsWellFormed({0, 1}, s);
    Reach({0, 1}, s, Take(0), Loaded());
  }

  function DeletedWhileLoaded(): State {
    Loaded().(table := map[], outbox := multiset{Notice(0, GONE)},
              clients := map[7 := LISTENER.(pending := [ItemDeleted(9)])])
  }

  lemma ReachRemovedWhileLoaded()
    ensures var t := Loaded().(table := map[], unsaid := multiset{Notice(0, GONE)});
      Reachable({0, 1}, t)
  {
    ReachLoaded();
    ReachRemoved({0, 1}, Loaded(), 0, ROOM, 9, Loaded().(table := map[], unsaid := multiset{Notice(0, GONE)}));
  }

  lemma ReachDeletedWhileLoaded()
    ensures Reachable({0, 1}, DeletedWhileLoaded())
  {
    var gone := Notice(0, GONE);
    ReachRemovedWhileLoaded();
    var s := Loaded().(table := map[], unsaid := multiset{gone});
    ReachAnnounced({0, 1}, s, gone, LISTENER, LISTENER.(pending := [ItemDeleted(9)]), DeletedWhileLoaded());
  }

  lemma RelayIsLate()
    requires WellFormed(DeletedWhileLoaded())
    ensures Enabled(DeletedWhileLoaded(), Relay(0)) && Late(DeletedWhileLoaded(), Relay(0))
  {
    assert Hears(DeletedWhileLoaded().clients[7], 0, ROOM);
  }

  lemma RelayCanBeLate()
    ensures exists s, at :: Reachable({0, 1}, s) && WellFormed(s) && Enabled(s, Relay(at)) && Late(s, Relay(at))
  {
    ReachDeletedWhileLoaded();
    ReachableIsWellFormed({0, 1}, DeletedWhileLoaded());
    RelayIsLate();
  }
}
