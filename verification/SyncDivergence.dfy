/** Runs of whole operations that end wrong.

    The theorems about whole operations name what can still go wrong: a clear that
    overtakes a newer item, an item that is never announced, one announced after it was
    cleared, and a file taken back after a client has listed it. Here is a run for each,
    every operation unbroken and every join on one page. */
module SyncDivergence {
  import opened Sync
  import opened SyncSafety
  import opened SyncWhole
  import opened SyncRuns
  import opened SyncRaces

  const WIPING := Notice(1, Cleared(ROOM))
  const BEARING := Notice(0, Created(9))
  const START := Init({0, 1})

  ghost predicate LeadsTo(s: State, ws: seq<Whole>, t: State) {
    WellFormed(s) && WholeRuns(s, ws) && JoinsFitOnePage(s, ws) && WholeAfter(s, ws) == t
  }

  ghost predicate StepsTo(s: State, step: Step, t: State) {
    WellFormed(s) && Enabled(s, step) && Next(s, step) == t && WellFormed(t)
  }

  lemma OneStepRun(s: State, a: Step, t: State)
    requires StepsTo(s, a, t)
    ensures RunsTo(s, [a], t)
  {
    assert [a][1..] == [];
  }

  lemma OneStepMore(s: State, a: Step, m: State, rest: seq<Step>, t: State)
    requires StepsTo(s, a, m) && RunsTo(m, rest, t)
    ensures RunsTo(s, [a] + rest, t)
  {
    assert ([a] + rest)[1..] == rest;
  }

  // One more operation, from what has been reached.
  lemma {:induction false} More(s: State, ws: seq<Whole>, t: State, w: Whole, u: State)
    requires LeadsTo(s, ws, t) && (WellFormed(t) ==> RunsTo(t, Expand(t, w), u))
    requires w.Join? ==> |RoomIds(t.table, w.room)| <= ITEM_PAGE_SIZE
    ensures LeadsTo(s, ws + [w], u)
    decreases |ws|
  {
    if ws == [] {
      assert [w][1..] == [] && ws + [w] == [w];
    } else {
      assert (ws + [w])[1..] == ws[1..] + [w];
      More(After(s, Expand(s, ws[0])), ws[1..], t, w, u);
    }
  }

  lemma TwoStepRun(s: State, a: Step, m: State, b: Step, t: State)
    requires StepsTo(s, a, m) && StepsTo(m, b, t)
    ensures RunsTo(s, [a, b], t)
  {
    OneStepRun(m, b, t);
    OneStepMore(s, a, m, [b], t);
    assert [a] + [b] == [a, b];
  }

  lemma ThreeStepRun(s: State, a: Step, m: State, b: Step, m2: State, c: Step, t: State)
    requires StepsTo(s, a, m) && StepsTo(m, b, m2) && StepsTo(m2, c, t)
    ensures RunsTo(s, [a, b, c], t)
  {
    TwoStepRun(m, b, m2, c, t);
    OneStepMore(s, a, m, [b, c], t);
    assert [a] + [b, c] == [a, b, c];
  }

  /* ── States with one client, at instance 0 of two ────────────────────── */

  function Sit(table: map<ItemId, Item>, unsaid: multiset<Notice>, outbox: multiset<Notice>,
               in0: seq<Notice>, in1: seq<Notice>, c: Client): State
  {
    State(table, table, map[7 := c], unsaid, outbox, map[0 := in0, 1 := in1], map[])
  }

  function Tab(phase: Phase, items: map<ItemId, Item>, pending: seq<Frame>): Client {
    Client(0, ROOM, phase, items, pending)
  }

  lemma Acts(s: State, act: Act, c: Client, t: State)
    requires WellFormed(s) && Enabled(s, Socket(7, act)) && !act.Leave? && s.clients.Keys <= {7}
    requires ActOn(s, 7, act).value == c && t == s.(clients := map[7 := c])
    ensures StepsTo(s, Socket(7, act), t)
  {
    StepKeepsWellFormed(s, Socket(7, act));
    assert s.clients[7 := c] == map[7 := c];
  }

  lemma Announces(s: State, n: Notice, c: Client, d: Client, t: State)
    requires WellFormed(s) && s.unsaid == multiset{n} && s.outbox == multiset{} && s.clients == map[7 := c]
    requires n.event.Created? ==> n.event.id in s.history
    requires d == if Hears(c, n.origin, RoomOf(s, n.event)) then Push(c, FrameFor(s, n.event)) else c
    requires t == s.(unsaid := multiset{}, outbox := multiset{n}, clients := map[7 := d])
    ensures StepsTo(s, Announce(n), t)
  {
    StepKeepsWellFormed(s, Announce(n));
    assert Broadcast(s.clients, n.origin, RoomOf(s, n.event), FrameFor(s, n.event)) == t.clients;
  }

  type Inboxes = map<InstanceId, seq<Notice>>

  lemma SetOne(a: seq<Notice>, b: seq<Notice>, c: seq<Notice>)
    ensures var both: Inboxes := map[0 := a, 1 := b];
      both[0 := c] == map[0 := c, 1 := b] && both[1 := c] == map[0 := a, 1 := c]
  {
  }

  lemma Sends(s: State, n: Notice, t: State)
    requires s.outbox == multiset{n} && s.inboxes == map[0 := [], 1 := []]
    requires t == s.(outbox := multiset{}, inboxes := map[0 := [n], 1 := [n]])
    ensures WellFormed(s) ==> RunsTo(s, Expand(s, Send(n)), t)
  {
    if WellFormed(s) {
      StepKeepsWellFormed(s, Publish(n));
      QueuedForBoth(s.inboxes, n);
      OneStepRun(s, Publish(n), t);
    }
  }

  lemma SkipsOwn(s: State, at: InstanceId, n: Notice, t: State)
    requires at in s.inboxes && s.inboxes[at] == [n] && s.relays == map[] && n.origin == at
    requires t == s.(inboxes := s.inboxes[at := []])
    ensures WellFormed(s) ==> RunsTo(s, Expand(s, Deliver(at)), t)
  {
    if WellFormed(s) {
      StepKeepsWellFormed(s, Take(at));
      assert [n][1..] == [];
      OneStepRun(s, Take(at), t);
    }
  }

  lemma DeliversClear(s: State, c: Client, t: State)
    requires 0 in s.inboxes && s.inboxes[0] == [WIPING] && s.relays == map[]
    requires s.clients == map[7 := c] && Hears(c, 0, ROOM)
    requires t == s.(inboxes := s.inboxes[0 := []], clients := map[7 := Push(c, RoomCleared)])
    ensures WellFormed(s) ==> RunsTo(s, Expand(s, Deliver(0)), t)
  {
    if WellFormed(s) {
      StepKeepsWellFormed(s, Take(0));
      assert [WIPING][1..] == [];
      assert Broadcast(s.clients, 0, ROOM, RoomCleared) == t.clients;
      OneStepRun(s, Take(0), t);
    }
  }

  lemma LoadsNote(s: State, t: State)
    requires WellFormed(s) && 1 in s.inboxes && s.inboxes[1] == [BEARING] && s.relays == map[] && s.table == STORED
    requires t == s.(inboxes := s.inboxes[1 := []], relays := map[1 := NOTE])
    ensures StepsTo(s, Take(1), t)
  {
    StepKeepsWellFormed(s, Take(1));
    assert [BEARING][1..] == [] && s.relays[1 := NOTE] == t.relays;
  }

  lemma RelaysToNobody(s: State, c: Client, t: State)
    requires WellFormed(s) && s.relays == map[1 := NOTE] && s.clients == map[7 := c] && c.home == 0
    requires t == s.(relays := map[])
    ensures StepsTo(s, Relay(1), t)
  {
    StepKeepsWellFormed(s, Relay(1));
    assert Broadcast(s.clients, 1, ROOM, ItemCreated(NOTE)) == s.clients;
    assert s.relays - {1} == map[];
  }

  lemma DeliversToNobody(s: State, c: Client, m: State, t: State)
    requires 1 in s.inboxes && s.inboxes[1] == [BEARING] && s.relays == map[] && s.table == STORED
    requires s.clients == map[7 := c] && c.home == 0
    requires m == s.(inboxes := s.inboxes[1 := []], relays := map[1 := NOTE])
    requires t == s.(inboxes := s.inboxes[1 := []])
    ensures WellFormed(s) ==> RunsTo(s, Expand(s, Deliver(1)), t)
  {
    if WellFormed(s) {
      LoadsNote(s, m);
      RelaysToNobody(m, c, t);
      TwoStepRun(s, Take(1), m, Relay(1), t);
    }
  }

  lemma EmptiesRoom(s: State, c: Client, m: State, t: State)
    requires s.table == map[] && s.unsaid == multiset{} && s.outbox == multiset{}
    requires 1 in s.inboxes && s.clients == map[7 := c] && c.home == 0
    requires m == s.(unsaid := multiset{WIPING}) && t == s.(outbox := multiset{WIPING})
    ensures WellFormed(s) ==> RunsTo(s, Expand(s, Clear(1, ROOM)), t)
  {
    if WellFormed(s) {
      StepKeepsWellFormed(s, Empty(1, ROOM));
      assert s.table - RoomIds(s.table, ROOM) == s.table;
      Announces(m, WIPING, c, c, t);
      TwoStepRun(s, Empty(1, ROOM), m, Announce(WIPING), t);
    }
  }

  lemma StoresNote(s: State, c: Client, m: State, t: State)
    requires s.table == map[] == s.history && s.unsaid == multiset{} && s.outbox == multiset{}
    requires 0 in s.inboxes && s.clients == map[7 := c] && Hears(c, 0, ROOM)
    requires m == s.(table := STORED, history := STORED, unsaid := multiset{BEARING})
    requires t == s.(table := STORED, history := STORED, outbox := multiset{BEARING},
                     clients := map[7 := Push(c, ItemCreated(NOTE))])
    ensures WellFormed(s) ==> RunsTo(s, Expand(s, Create(0, NOTE)), t)
  {
    if WellFormed(s) {
      StepKeepsWellFormed(s, Store(0, NOTE));
      assert StepsTo(s, Store(0, NOTE), m);
      Announces(m, BEARING, c, Push(c, ItemCreated(NOTE)), t);
      TwoStepRun(s, Store(0, NOTE), m, Announce(BEARING), t);
    }
  }

  lemma ReadsOne(s: State, items: map<ItemId, Item>, frame: Frame, rest: seq<Frame>, t: State)
    requires s.clients == map[7 := Tab(Greeted, items, [frame] + rest)]
    requires t == s.(clients := map[7 := Tab(Greeted, Apply(items, frame), rest)])
    ensures WellFormed(s) ==> RunsTo(s, Expand(s, Read(7)), t)
  {
    if WellFormed(s) {
      assert ([frame] + rest)[1..] == rest;
      Acts(s, Receive, Tab(Greeted, Apply(items, frame), rest), t);
      OneStepRun(s, Socket(7, Receive), t);
    }
  }

  /* ── The run, operation by operation ─────────────────────────────────── */

  // The room empty, and everything quiet but for what is given.
  function Before(outbox: multiset<Notice>, in0: seq<Notice>, in1: seq<Notice>, c: Client): State {
    Sit(map[], multiset{}, outbox, in0, in1, c)
  }

  // The same once the item is stored.
  function Later(outbox: multiset<Notice>, in0: seq<Notice>, in1: seq<Notice>, c: Client): State {
    Sit(STORED, multiset{}, outbox, in0, in1, c)
  }

  function Welcomed(items: map<ItemId, Item>): Client { Tab(Greeted, map[], [Welcome(items)]) }

  const WELCOMED := Welcomed(map[])

  // Client 7 joins at instance 0, where nobody else is.
  lemma JoinSteps(s: State, page: set<ItemId>, items: map<ItemId, Item>)
    requires WellFormed(s) && 0 in s.inboxes && s.clients == map[]
    requires IsPage(s.table, ROOM, page) && Rows(s.table, page) == items
    ensures RunsTo(s, Expand(s, Join(7, 0, ROOM, page)), s.(clients := map[7 := Welcomed(items)]))
  {
    var r, l, g := Socket(7, Register(0, ROOM)), Socket(7, List(page)), Socket(7, Greet);
    var s1 := s.(clients := map[7 := Tab(Registered, map[], [])]);
    var s2 := s.(clients := map[7 := Tab(Listed(items), map[], [])]);
    var s3 := s.(clients := map[7 := Welcomed(items)]);
    Acts(s, Register(0, ROOM), Tab(Registered, map[], []), s1);
    Acts(s1, List(page), Tab(Listed(items), map[], []), s2);
    Greets(s2, items, s3);
    ThreeStepRun(s, r, s1, l, s2, g, s3);
  }

  lemma Greets(s: State, items: map<ItemId, Item>, t: State)
    requires WellFormed(s) && s.clients == map[7 := Tab(Listed(items), map[], [])]
    requires t == s.(clients := map[7 := Welcomed(items)])
    ensures StepsTo(s, Socket(7, Greet), t)
  {
    assert [] + [Welcome(items)] == [Welcome(items)];
    Acts(s, Greet, Welcomed(items), t);
  }

  // Client 7 joins the empty room.
  lemma Joins()
    ensures LeadsTo(START, [Join(7, 0, ROOM, {})], Before(multiset{}, [], [], WELCOMED))
  {
    InitWellFormed({0, 1});
    assert START.inboxes == map[0 := [], 1 := []];
    assert RoomIds(map[], ROOM) == {} && Rows(map[], {}) == map[];
    JoinSteps(START, {}, map[]);
    More(START, [], START, Join(7, 0, ROOM, {}), Before(multiset{}, [], [], WELCOMED));
    assert [] + [Join(7, 0, ROOM, {})] == [Join(7, 0, ROOM, {})];
  }

  // Instance 1 clears the room, and sends word of it.
  lemma Clears() returns (ws: seq<Whole>)
    ensures LeadsTo(START, ws, Before(multiset{}, [WIPING], [WIPING], WELCOMED))
  {
    Joins();
    ws := [Join(7, 0, ROOM, {})];
    var s := Before(multiset{}, [], [], WELCOMED);
    var t := Before(multiset{WIPING}, [], [], WELCOMED);
    EmptiesRoom(s, WELCOMED, s.(unsaid := multiset{WIPING}), t);
    More(START, ws, s, Clear(1, ROOM), t);
    ws := ws + [Clear(1, ROOM)];
    var u := Before(multiset{}, [WIPING], [WIPING], WELCOMED);
    Sends(t, WIPING, u);
    More(START, ws, t, Send(WIPING), u);
    ws := ws + [Send(WIPING)];
  }

  const TOLD := Push(WELCOMED, ItemCreated(NOTE))
  const WIPED_OUT := Push(TOLD, RoomCleared)

  // An item is created at instance 0, while the clear is on its way there; then the clear
  // arrives, and wipes the item from the client.
  lemma Overtakes() returns (ws: seq<Whole>)
    ensures LeadsTo(START, ws, Later(multiset{BEARING}, [], [WIPING], WIPED_OUT))
  {
    ws := Clears();
    var s := Before(multiset{}, [WIPING], [WIPING], WELCOMED);
    var t := Later(multiset{BEARING}, [WIPING], [WIPING], TOLD);
    StoresNote(s, WELCOMED, s.(table := STORED, history := STORED, unsaid := multiset{BEARING}), t);
    More(START, ws, s, Create(0, NOTE), t);
    ws := ws + [Create(0, NOTE)];
    var u := Later(multiset{BEARING}, [], [WIPING], WIPED_OUT);
    SetOne([WIPING], [WIPING], []);
    DeliversClear(t, TOLD, u);
    More(START, ws, t, Deliver(0), u);
    ws := ws + [Deliver(0)];
  }

  // Instance 1 skips its own clear, and word of the item is sent.
  lemma Sent(before: seq<Whole>, c: Client) returns (ws: seq<Whole>)
    requires LeadsTo(START, before, Later(multiset{BEARING}, [], [WIPING], c))
    ensures LeadsTo(START, ws, Later(multiset{}, [BEARING], [BEARING], c))
  {
    var s, t := Later(multiset{BEARING}, [], [WIPING], c), Later(multiset{BEARING}, [], [], c);
    SetOne([], [WIPING], []);
    SkipsOwn(s, 1, WIPING, t);
    More(START, before, s, Deliver(1), t);
    ws := before + [Deliver(1)];
    var u := Later(multiset{}, [BEARING], [BEARING], c);
    Sends(t, BEARING, u);
    More(START, ws, t, Send(BEARING), u);
    ws := ws + [Send(BEARING)];
  }

  // Instance 0 skips its own creation; at instance 1, nobody listens.
  lemma Arrived(before: seq<Whole>, c: Client) returns (ws: seq<Whole>)
    requires LeadsTo(START, before, Later(multiset{}, [BEARING], [BEARING], c)) && c.home == 0
    ensures LeadsTo(START, ws, Later(multiset{}, [], [], c))
  {
    var s, t := Later(multiset{}, [BEARING], [BEARING], c), Later(multiset{}, [], [BEARING], c);
    SetOne([BEARING], [BEARING], []);
    SkipsOwn(s, 0, BEARING, t);
    More(START, before, s, Deliver(0), t);
    ws := before + [Deliver(0)];
    var u := Later(multiset{}, [], [], c);
    SetOne([], [BEARING], []);
    DeliversToNobody(t, c, u.(relays := map[1 := NOTE]), u);
    More(START, ws, t, Deliver(1), u);
    ws := ws + [Deliver(1)];
  }

  lemma BusRunsDry() returns (ws: seq<Whole>)
    ensures LeadsTo(START, ws, Later(multiset{}, [], [], WIPED_OUT))
  {
    ws := Overtakes();
    ws := Sent(ws, WIPED_OUT);
    ws := Arrived(ws, WIPED_OUT);
  }

  function Reading(items: map<ItemId, Item>, pending: seq<Frame>): State {
    Later(multiset{}, [], [], Tab(Greeted, items, pending))
  }

  lemma ReadsNext(before: seq<Whole>, items: map<ItemId, Item>, frame: Frame, rest: seq<Frame>)
    requires LeadsTo(START, before, Reading(items, [frame] + rest))
    ensures LeadsTo(START, before + [Read(7)], Reading(Apply(items, frame), rest))
  {
    var s, t := Reading(items, [frame] + rest), Reading(Apply(items, frame), rest);
    ReadsOne(s, items, frame, rest, t);
    More(START, before, s, Read(7), t);
  }

  lemma ReadsThree(before: seq<Whole>, items: map<ItemId, Item>, a: Frame, b: Frame, c: Frame) returns (ws: seq<Whole>)
    requires LeadsTo(START, before, Reading(items, [a] + ([b] + ([c] + []))))
    ensures LeadsTo(START, ws, Reading(Apply(Apply(Apply(items, a), b), c), []))
  {
    ReadsNext(before, items, a, [b] + ([c] + []));
    ws := before + [Read(7)];
    ReadsNext(ws, Apply(items, a), b, [c] + []);
    ws := ws + [Read(7)];
    ReadsNext(ws, Apply(Apply(items, a), b), c, []);
    ws := ws + [Read(7)];
  }

  lemma WipedOutQueue()
    ensures WIPED_OUT == Tab(Greeted, map[], [Welcome(map[])] + ([ItemCreated(NOTE)] + ([RoomCleared] + [])))
  {
  }

  // Client 7 reads what is queued for it: the welcome, the item, and the clear.
  lemma ReadsAll() returns (ws: seq<Whole>)
    ensures LeadsTo(START, ws, Reading(map[], []))
  {
    ws := BusRunsDry();
    WipedOutQueue();
    ws := ReadsThree(ws, map[], Welcome(map[]), ItemCreated(NOTE), RoomCleared);
  }

  // A quiet state in which some client does not show exactly its room's items.
  ghost predicate Diverged(t: State) {
    Quiet(t) && exists k :: k in t.clients && t.clients[k].items != RoomItems(t.table, t.clients[k].room)
  }

  lemma ReadingAllDiverges()
    ensures Diverged(Reading(map[], []))
  {
    var t := Reading(map[], []);
    assert 9 in RoomItems(t.table, ROOM) && 9 !in t.clients[7].items;
  }

  // So the convergence theorem cannot do without its restriction to runs without clears.
  lemma ClearedRoomsCanDiverge()
    ensures exists ws, t :: LeadsTo(START, ws, t) && Diverged(t)
  {
    var ws := ReadsAll();
    ReadingAllDiverges();
  }

  /* ── An item that is never announced ─────────────────────────────────── */

  function Holding(c: Client): State { Sit(STORED, multiset{BEARING}, multiset{}, [], [], c) }

  lemma PutsNote(s: State, t: State)
    requires WellFormed(s) && 0 in s.inboxes && s.table == map[] == s.history && s.unsaid == multiset{}
    requires t == s.(table := STORED, history := STORED, unsaid := multiset{BEARING})
    ensures RunsTo(s, Expand(s, Put(0, NOTE)), t)
  {
    StepKeepsWellFormed(s, Store(0, NOTE));
    assert Next(s, Store(0, NOTE)) == t;
    OneStepRun(s, Store(0, NOTE), t);
  }

  // An upload stores a file in the room that client 7 has joined.
  lemma UploadsHalf()
    ensures LeadsTo(START, [Join(7, 0, ROOM, {}), Put(0, NOTE)], Holding(WELCOMED))
  {
    Joins();
    var s := Before(multiset{}, [], [], WELCOMED);
    if WellFormed(s) { PutsNote(s, Holding(WELCOMED)); }
    More(START, [Join(7, 0, ROOM, {})], s, Put(0, NOTE), Holding(WELCOMED));
    assert [Join(7, 0, ROOM, {})] + [Put(0, NOTE)] == [Join(7, 0, ROOM, {}), Put(0, NOTE)];
  }

  lemma Forgets(s: State, n: Notice, t: State)
    requires WellFormed(s) && n in s.unsaid && t == Without(s, n)
    ensures StepsTo(s, Forget(n), t)
  {
    StepKeepsWellFormed(s, Forget(n));
  }

  lemma Abandons(s: State, t: State)
    requires s.unsaid == multiset{BEARING} && t == s.(unsaid := multiset{})
    ensures WellFormed(s) ==> RunsTo(s, Expand(s, Abandon(BEARING)), t)
  {
    if WellFormed(s) {
      Forgets(s, BEARING, t);
      OneStepRun(s, Forget(BEARING), t);
    }
  }

  const LEFT := [Join(7, 0, ROOM, {}), Put(0, NOTE)] + [Abandon(BEARING)]

  // The upload ends there, its file left behind.
  lemma LeavesFile()
    ensures LeadsTo(START, LEFT, Reading(map[], [Welcome(map[])] + []))
  {
    UploadsHalf();
    assert [Welcome(map[])] + [] == [Welcome(map[])];
    Abandons(Holding(WELCOMED), Later(multiset{}, [], [], WELCOMED));
    More(START, [Join(7, 0, ROOM, {}), Put(0, NOTE)], Holding(WELCOMED), Abandon(BEARING), Later(multiset{}, [], [], WELCOMED));
  }

  lemma ReadsWelcome()
    ensures LeadsTo(START, LEFT + [Read(7)], Reading(map[], []))
  {
    LeavesFile();
    ReadsNext(LEFT, map[], Welcome(map[]), []);
  }

  lemma NobodyClears()
    ensures NoClear(LEFT + [Read(7)])
  {
  }

  // Client 7 will never show it.
  lemma AbandonedItemsAreMissed()
    ensures exists ws, t :: LeadsTo(START, ws, t) && NoClear(ws) && Diverged(t)
  {
    ReadsWelcome();
    NobodyClears();
    ReadingAllDiverges();
  }

  /* ── A file announced after its room was cleared ─────────────────────── */

  const CLEARING := Notice(0, Cleared(ROOM))
  const CLEARED := Push(WELCOMED, RoomCleared)

  function Emptied(unsaid: multiset<Notice>, outbox: multiset<Notice>, c: Client): State {
    Holding(c).(table := map[], unsaid := unsaid, outbox := outbox)
  }

  lemma EmptiesHeld(s: State, m: State)
    requires WellFormed(s) && s == Holding(WELCOMED) && m == Emptied(multiset{BEARING, CLEARING}, multiset{}, WELCOMED)
    ensures StepsTo(s, Empty(0, ROOM), m)
  {
    StepKeepsWellFormed(s, Empty(0, ROOM));
    assert s.table - RoomIds(s.table, ROOM) == map[];
  }

  lemma TellsOfClear(m: State, t: State)
    requires WellFormed(m) && m == Emptied(multiset{BEARING, CLEARING}, multiset{}, WELCOMED)
    requires t == Emptied(multiset{BEARING}, multiset{CLEARING}, CLEARED)
    ensures StepsTo(m, Announce(CLEARING), t)
  {
    StepKeepsWellFormed(m, Announce(CLEARING));
    assert Broadcast(m.clients, 0, ROOM, RoomCleared) == t.clients;
  }

  lemma ClearsHeld(s: State, t: State)
    requires s == Holding(WELCOMED) && t == Emptied(multiset{BEARING}, multiset{CLEARING}, CLEARED)
    ensures WellFormed(s) ==> RunsTo(s, Expand(s, Clear(0, ROOM)), t)
  {
    if WellFormed(s) {
      var m := Emptied(multiset{BEARING, CLEARING}, multiset{}, WELCOMED);
      EmptiesHeld(s, m);
      TellsOfClear(m, t);
      TwoStepRun(s, Empty(0, ROOM), m, Announce(CLEARING), t);
    }
  }

  lemma ClearedMidUpload()
    ensures var t := Emptied(multiset{BEARING}, multiset{CLEARING}, CLEARED);
      LeadsTo(START, [Join(7, 0, ROOM, {}), Put(0, NOTE)] + [Clear(0, ROOM)], t) && WellFormed(t)
  {
    UploadsHalf();
    var t := Emptied(multiset{BEARING}, multiset{CLEARING}, CLEARED);
    ClearsHeld(Holding(WELCOMED), t);
    More(START, [Join(7, 0, ROOM, {}), Put(0, NOTE)], Holding(WELCOMED), Clear(0, ROOM), t);
    AfterIsWellFormed(START, [Join(7, 0, ROOM, {}), Put(0, NOTE)] + [Clear(0, ROOM)], t);
  }

  lemma AfterIsWellFormed(s: State, ws: seq<Whole>, t: State)
    requires LeadsTo(s, ws, t)
    ensures WellFormed(t)
  {
  }

  lemma TellsRuns(t: State)
    requires WellFormed(t) && BEARING in t.unsaid
    ensures Runs(t, Expand(t, Tell(BEARING)))
  {
    StepKeepsWellFormed(t, Announce(BEARING));
    assert [Announce(BEARING)][1..] == [];
  }

  lemma TellingIsLate(t: State)
    requires WellFormed(t) && t == Emptied(multiset{BEARING}, multiset{CLEARING}, CLEARED)
    ensures Late(t, Announce(BEARING))
  {
    assert Hears(t.clients[7], 0, ROOM);
    assert forall o: InstanceId :: !Heading(t, 0, Notice(o, Deleted(ROOM, 9))) && !Heading(t, 0, Notice(o, Cleared(ROOM)));
  }

  ghost predicate TellsLate(t: State, n: Notice) {
    WellFormed(t) && Runs(t, Expand(t, Tell(n))) && WholeLate(t, Tell(n))
  }

  // The upload knows nothing of the clear, and client 7 is told of a file that is gone.
  lemma UploadCanOutliveAClear()
    ensures exists ws, t :: LeadsTo(START, ws, t) && TellsLate(t, BEARING)
  {
    var t := Emptied(multiset{BEARING}, multiset{CLEARING}, CLEARED);
    ClearedMidUpload();
    TellsRuns(t);
    TellingIsLate(t);
  }

  /* ── A file taken back after a client has listed it ──────────────────── */

  function Listed9(table: map<ItemId, Item>, unsaid: multiset<Notice>, c: Client): State {
    Holding(c).(table := table, unsaid := unsaid)
  }

  // An upload stores its first file, and a client joins and lists it.
  lemma ListsHeld()
    ensures LeadsTo(START, [Put(0, NOTE), Join(7, 0, ROOM, {9})], Holding(Welcomed(STORED)))
  {
    InitWellFormed({0, 1});
    assert START.inboxes == map[0 := [], 1 := []];
    var s := START.(table := STORED, history := STORED, unsaid := multiset{BEARING});
    PutsNote(START, s);
    More(START, [], START, Put(0, NOTE), s);
    assert [] + [Put(0, NOTE)] == [Put(0, NOTE)];
    AfterIsWellFormed(START, [Put(0, NOTE)], s);
    OneNotePage();
    assert RoomIds(STORED, ROOM) == {9};
    JoinSteps(s, {9}, STORED);
    More(START, [Put(0, NOTE)], s, Join(7, 0, ROOM, {9}), Holding(Welcomed(STORED)));
    assert [Put(0, NOTE)] + [Join(7, 0, ROOM, {9})] == [Put(0, NOTE), Join(7, 0, ROOM, {9})];
  }

  lemma RemovesNote(s: State, t: State)
    requires WellFormed(s) && s.table == STORED && 0 in s.inboxes
    requires t == s.(table := map[], unsaid := s.unsaid + multiset{Notice(0, GONE)})
    ensures StepsTo(s, Remove(0, ROOM, 9), t)
  {
    StepKeepsWellFormed(s, Remove(0, ROOM, 9));
    assert s.table - {9} == map[];
  }

  // The next file is over the limit, and the first is taken back without a word.
  lemma TakesBack(s: State, t: State)
    requires s.table == STORED && 0 in s.inboxes && s.unsaid == multiset{BEARING}
    requires t == s.(table := map[], unsaid := multiset{})
    ensures WellFormed(s) ==> RunsTo(s, Expand(s, Rollback(0, ROOM, 9)), t)
  {
    if WellFormed(s) {
      var gone := Notice(0, GONE);
      var m1, m2 := s.(table := map[], unsaid := multiset{BEARING} + multiset{gone}), s.(table := map[]);
      RemovesNote(s, m1);
      Forgets(m1, gone, m2);
      Forgets(m2, BEARING, t);
      ThreeStepRun(s, Remove(0, ROOM, 9), m1, Forget(gone), m2, Forget(BEARING), t);
    }
  }

  lemma TakenBack()
    ensures LeadsTo(START, [Put(0, NOTE), Join(7, 0, ROOM, {9})] + [Rollback(0, ROOM, 9)],
                    Listed9(map[], multiset{}, Tab(Greeted, map[], [Welcome(STORED)] + [])))
  {
    ListsHeld();
    assert [Welcome(STORED)] + [] == [Welcome(STORED)];
    var s, t := Holding(Welcomed(STORED)), Listed9(map[], multiset{}, Welcomed(STORED));
    TakesBack(s, t);
    More(START, [Put(0, NOTE), Join(7, 0, ROOM, {9})], s, Rollback(0, ROOM, 9), t);
  }

  lemma ReadsTakenBack() returns (ws: seq<Whole>)
    ensures LeadsTo(START, ws, Listed9(map[], multiset{}, Tab(Greeted, STORED, [])))
  {
    TakenBack();
    ws := [Put(0, NOTE), Join(7, 0, ROOM, {9})] + [Rollback(0, ROOM, 9)];
    var t := Listed9(map[], multiset{}, Tab(Greeted, map[], [Welcome(STORED)] + []));
    var u := Listed9(map[], multiset{}, Tab(Greeted, STORED, []));
    ReadsOne(t, map[], Welcome(STORED), [], u);
    More(START, ws, t, Read(7), u);
    ws := ws + [Read(7)];
  }

  // A quiet state in which some client shows a deleted item.
  ghost predicate Survived(t: State) { Quiet(t) && !ShowsOnlyStored(t) }

  lemma TakenBackSurvives()
    ensures Survived(Listed9(map[], multiset{}, Tab(Greeted, STORED, [])))
  {
    var t := Listed9(map[], multiset{}, Tab(Greeted, STORED, []));
    assert 9 in t.clients[7].items && 9 !in t.table;
  }

  // So without the condition on uploads a deleted item does survive, with no fault anywhere.
  lemma RolledBackFilesCanSurvive()
    ensures exists ws, t :: LeadsTo(START, ws, t) && Survived(t)
  {
    var ws := ReadsTakenBack();
    TakenBackSurvives();
  }
}
