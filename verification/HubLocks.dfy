/** The hub at the level of its locks. Any number of threads run the broadcast loop,
    the closing of clients and their registration one atomic action at a time, over
    the hub's read-write lock, each client's bounded send buffer and its once flag. */
module HubLocks {
  import opened Wrappers
  import opened Hub

  const SEND_BUFFER: nat := 32

  type Tid = nat
  type JobId = nat

  datatype Once = Fresh | Running(runner: Tid) | Done

  // One connection: how full its buffer is, the broadcasts it was ever sent, whether
  // its close has run, and whether its context has ended.
  datatype Conn = Conn(depth: nat, received: multiset<JobId>, once: Once, cancelled: bool)

  // One call of the broadcast loop: the clients it found, and those it has sent to.
  datatype Job = Job(owner: Tid, room: RoomCode, except: string,
                     targets: set<Client>, sent: set<Client>, finished: bool)

  datatype Stage = AtOnce | AtLock | Waiting | Cancelling

  // What a thread does after closing a client: go on with its broadcast, announce
  // who is left (the reading side), or nothing more (the writing side).
  datatype Back = ToFan(job: JobId, todo: set<Client>) | ToPresence | ToEnd

  datatype Pc =
    | Idle
    | AskRead(job: JobId)
    | Fanning(job: JobId, todo: set<Client>)
    | Closing(client: Client, stage: Stage, back: Back)
    | Listing(client: Client)
    | AskAdd(client: Client)
    | Adding(client: Client)

  // A writer announces itself in lock and from then on no reader enters; it acts once
  // the readers that were inside have left.
  datatype State = State(
    rooms: Rooms, conns: map<Client, Conn>, opening: map<Client, Tid>,
    lock: Option<Tid>, readers: set<Tid>, threads: map<Tid, Pc>, jobs: seq<Job>)

  datatype Step =
    | Broadcast(room: RoomCode, except: string)
    | Acquire
    | Enqueue(client: Client)              // the next client of the loop
    | Skip(client: Client)                 // its context has ended
    | Release
    | Send(client: Client)                 // a frame for one client alone
    | Close(client: Client, back: Back)    // a pump ends
    | EnterOnce
    | Announce
    | Unregister
    | Cancel
    | List
    | Open(client: Client)                 // a connection with a new id
    | AnnounceAdd
    | Register
    | Drain(client: Client)                // the writing side takes one frame

  const INITIAL: State := State(map[], map[], map[], None, {}, map[], [])

  function PcOf(s: State, t: Tid): Pc { if t in s.threads then s.threads[t] else Idle }

  predicate Registered(s: State, c: Client) { c in ClientsIn(s.rooms, c.room) }

  predicate HasRoom(s: State, c: Client)
    requires c in s.conns
  {
    s.conns[c].depth < SEND_BUFFER
  }

  predicate Enabled(s: State, t: Tid, step: Step) {
    var pc := PcOf(s, t);
    match step
    case Broadcast(_, _) => pc.Idle?
    case Acquire => pc.AskRead? && s.lock.None? && pc.job < |s.jobs|
    case Enqueue(c) => pc.Fanning? && c in pc.todo && c in s.conns && pc.job < |s.jobs|
    case Skip(c) => pc.Fanning? && c in pc.todo && c in s.conns && s.conns[c].cancelled
    case Release => pc.Fanning? && pc.todo == {} && pc.job < |s.jobs|
    case Send(c) => pc.Idle? && c in s.conns
    case Close(c, back) => pc.Idle? && c in s.conns && !back.ToFan?
    case EnterOnce => pc.Closing? && pc.stage.AtOnce? && pc.client in s.conns && !s.conns[pc.client].once.Running?
    case Announce => pc.Closing? && pc.stage.AtLock? && s.lock.None?
    case Unregister => pc.Closing? && pc.stage.Waiting? && s.lock == Some(t) && s.readers == {}
    case Cancel => pc.Closing? && pc.stage.Cancelling? && pc.client in s.conns
    case List => pc.Listing? && s.lock.None?
    case Open(c) => pc.Idle? && c !in s.conns && c !in s.opening
    case AnnounceAdd => pc.AskAdd? && s.lock.None?
    case Register => pc.Adding? && s.lock == Some(t) && s.readers == {}
    case Drain(c) => c in s.conns && s.conns[c].depth > 0
  }

  function Go(s: State, t: Tid, pc: Pc): State { s.(threads := s.threads[t := pc]) }

  function Return(c: Client, back: Back): Pc {
    match back
    case ToFan(job, todo) => Fanning(job, todo)
    case ToPresence => Listing(c)
    case ToEnd => Idle
  }

  function NewJob(s: State, t: Tid, room: RoomCode, except: string): State {
    Go(s.(jobs := s.jobs + [Job(t, room, except, {}, {}, false)]), t, AskRead(|s.jobs|))
  }

  // The broadcast loop reaches one client: skip the excepted one, fill a free slot,
  // or start closing a client whose buffer is full.
  function Reach(s: State, t: Tid, c: Client): State
    requires Enabled(s, t, Enqueue(c))
  {
    var pc, job, conn := PcOf(s, t), s.jobs[PcOf(s, t).job], s.conns[c];
    var rest := pc.todo - {c};
    if c.id == job.except then Go(s, t, Fanning(pc.job, rest))
    else if conn.depth < SEND_BUFFER then
      Go(s.(conns := s.conns[c := conn.(depth := conn.depth + 1, received := conn.received + multiset{pc.job})],
            jobs := s.jobs[pc.job := job.(sent := job.sent + {c})]),
         t, Fanning(pc.job, rest))
    else if conn.cancelled then Go(s, t, Fanning(pc.job, rest))
    else Go(s, t, Closing(c, AtOnce, ToFan(pc.job, rest)))
  }

  function SetDepth(s: State, c: Client, depth: nat): State
    requires c in s.conns
  {
    s.(conns := s.conns[c := s.conns[c].(depth := depth)])
  }

  function SendOne(s: State, t: Tid, c: Client): State
    requires c in s.conns
  {
    if HasRoom(s, c) then SetDepth(s, c, s.conns[c].depth + 1)
    else if s.conns[c].cancelled then s
    else Go(s, t, Closing(c, AtOnce, ToEnd))
  }

  function Next(s: State, t: Tid, step: Step): State
    requires Enabled(s, t, step)
  {
    var pc := PcOf(s, t);
    match step
    case Broadcast(room, except) => NewJob(s, t, room, except)
    case Acquire =>
      var found := ClientsIn(s.rooms, s.jobs[pc.job].room);
      Go(s.(readers := s.readers + {t}, jobs := s.jobs[pc.job := s.jobs[pc.job].(targets := found)]),
         t, Fanning(pc.job, found))
    case Enqueue(c) => Reach(s, t, c)
    case Skip(c) => Go(s, t, Fanning(pc.job, pc.todo - {c}))
    case Release =>
      Go(s.(readers := s.readers - {t}, jobs := s.jobs[pc.job := s.jobs[pc.job].(finished := true)]), t, Idle)
    case Send(c) => SendOne(s, t, c)
    case Close(c, back) => Go(s, t, Closing(c, AtOnce, back))
    case EnterOnce =>
      if s.conns[pc.client].once.Done? then Go(s, t, Return(pc.client, pc.back))
      else
        Go(s.(conns := s.conns[pc.client := s.conns[pc.client].(once := Running(t))]),
           t, Closing(pc.client, AtLock, pc.back))
    case Announce => Go(s.(lock := Some(t)), t, Closing(pc.client, Waiting, pc.back))
    case Unregister =>
      Go(s.(rooms := WithoutClient(s.rooms, pc.client), lock := None), t, Closing(pc.client, Cancelling, pc.back))
    case Cancel =>
      Go(s.(conns := s.conns[pc.client := s.conns[pc.client].(once := Done, cancelled := true)]),
         t, Return(pc.client, pc.back))
    case List => NewJob(s, t, pc.client.room, "")
    case Open(c) => Go(s.(opening := s.opening[c := t]), t, AskAdd(c))
    case AnnounceAdd => Go(s.(lock := Some(t)), t, Adding(pc.client))
    case Register =>
      Go(s.(rooms := WithClient(s.rooms, pc.client), lock := None, opening := s.opening - {pc.client},
            conns := s.conns[pc.client := Conn(0, multiset{}, Fresh, false)]), t, Idle)
    case Drain(c) => SetDepth(s, c, s.conns[c].depth - 1)
  }

  predicate Runs(s: State, steps: seq<(Tid, Step)>)
    decreases |steps|
  {
    steps == [] || (Enabled(s, steps[0].0, steps[0].1) && Runs(Next(s, steps[0].0, steps[0].1), steps[1..]))
  }

  function After(s: State, steps: seq<(Tid, Step)>): State
    requires Runs(s, steps)
    decreases |steps|
  {
    if steps == [] then s else After(Next(s, steps[0].0, steps[0].1), steps[1..])
  }

  /* ── What every state keeps ──────────────────────────────────────────── */

  predicate HoldsRead(pc: Pc) { pc.Fanning? || (pc.Closing? && pc.back.ToFan?) }

  predicate HoldsWrite(pc: Pc) { pc.Adding? || (pc.Closing? && pc.stage.Waiting?) }

  ghost predicate LockInv(s: State) {
    && (forall t: Tid :: t in s.readers <==> HoldsRead(PcOf(s, t)))
    && (forall t: Tid :: s.lock == Some(t) <==> HoldsWrite(PcOf(s, t)))
  }

  function AllBut(clients: set<Client>, except: string): set<Client> {
    set c | c in clients && c.id != except
  }

  // Inside the loop: the room is as it was found, and all that was passed was sent to.
  ghost predicate FanInv(s: State, t: Tid, j: JobId, left: set<Client>) {
    && j < |s.jobs| && s.jobs[j].owner == t && !s.jobs[j].finished
    && s.jobs[j].targets == ClientsIn(s.rooms, s.jobs[j].room)
    && left <= s.jobs[j].targets
    && s.jobs[j].sent == AllBut(s.jobs[j].targets - left, s.jobs[j].except)
  }

  ghost predicate ThreadInv(s: State, t: Tid) {
    match PcOf(s, t)
    case Idle => true
    case AskRead(j) =>
      j < |s.jobs| && s.jobs[j].owner == t && !s.jobs[j].finished && s.jobs[j].targets == {} && s.jobs[j].sent == {}
    case Fanning(j, todo) => FanInv(s, t, j, todo)
    case Closing(c, stage, back) =>
      && c in s.conns
      && (!stage.AtOnce? ==> s.conns[c].once == Running(t))
      && (back.ToFan? ==>
            && !stage.Cancelling? && c !in back.todo && FanInv(s, t, back.job, back.todo + {c})
            && c.id != s.jobs[back.job].except)
    case Listing(c) => c in s.conns && s.conns[c].once.Done?
    case AskAdd(c) => c in s.opening && s.opening[c] == t
    case Adding(c) => c in s.opening && s.opening[c] == t
  }

  // Registered exactly until the one close of the client has taken it out.
  ghost predicate ConnInv(s: State, c: Client)
    requires c in s.conns
  {
    var conn := s.conns[c];
    && conn.depth <= SEND_BUFFER
    && (forall j: JobId :: conn.received[j] == if j < |s.jobs| && c in s.jobs[j].sent then 1 else 0)
    && match conn.once
       case Fresh => Registered(s, c) && !conn.cancelled
       case Done => !Registered(s, c) && conn.cancelled
       case Running(t) =>
         var pc := PcOf(s, t);
         && pc.Closing? && pc.client == c && !pc.stage.AtOnce? && !conn.cancelled
         && (Registered(s, c) <==> !pc.stage.Cancelling?)
  }

  ghost predicate JobInv(s: State, job: Job) {
    && job.sent <= job.targets && job.targets <= s.conns.Keys
    && (job.finished ==> job.sent == AllBut(job.targets, job.except))
  }

  ghost predicate RoomsInv(s: State) {
    && RoomsValid(s.rooms)
    && (forall r :: ClientsIn(s.rooms, r) <= s.conns.Keys)
    && s.opening.Keys !! s.conns.Keys
  }

  ghost predicate ConnsInv(s: State) { forall c :: c in s.conns ==> ConnInv(s, c) }

  ghost predicate JobsInv(s: State) { forall j :: 0 <= j < |s.jobs| ==> JobInv(s, s.jobs[j]) }

  ghost predicate ThreadsInv(s: State) { forall t :: ThreadInv(s, t) }

  ghost predicate Inv(s: State) {
    LockInv(s) && RoomsInv(s) && ConnsInv(s) && JobsInv(s) && ThreadsInv(s)
  }

  lemma StartKeeps()
    ensures Inv(INITIAL)
  {
  }

  // A step of one thread that leaves alone what the others rely on.
  ghost predicate Frame(s: State, n: State, t: Tid) {
    && (forall u :: u != t ==> PcOf(n, u) == PcOf(s, u))
    && |s.jobs| <= |n.jobs|
    && (forall j :: 0 <= j < |s.jobs| && s.jobs[j].owner != t ==> n.jobs[j] == s.jobs[j])
    && (n.rooms == s.rooms || s.readers <= {t})
    && (forall c :: c in s.conns ==> c in n.conns)
    && (forall c :: c in s.conns && n.conns[c].once != s.conns[c].once ==>
          s.conns[c].once.Fresh? || s.conns[c].once == Running(t))
    && (forall c :: c in s.opening && s.opening[c] != t ==> c in n.opening && n.opening[c] == s.opening[c])
  }

  lemma OthersKeep(s: State, n: State, t: Tid)
    requires LockInv(s) && ThreadsInv(s) && Frame(s, n, t)
    ensures forall u :: u != t ==> ThreadInv(n, u)
  {
    forall u | u != t ensures ThreadInv(n, u) {
      assert ThreadInv(s, u);
      assert u in s.readers <==> HoldsRead(PcOf(s, u));
    }
  }

  lemma HoldsTheSame(s: State, n: State, t: Tid)
    requires LockInv(s) && ThreadsInv(s) && Frame(s, n, t) && n.lock == s.lock && n.readers == s.readers
    requires HoldsRead(PcOf(n, t)) == HoldsRead(PcOf(s, t)) && HoldsWrite(PcOf(n, t)) == HoldsWrite(PcOf(s, t))
    ensures LockInv(n) && forall u :: u != t ==> ThreadInv(n, u)
  {
    OthersKeep(s, n, t);
  }

  // Only the thread's own place changes, and not what it holds.
  lemma GoKeeps(s: State, t: Tid, pc: Pc)
    requires Inv(s) && ThreadInv(Go(s, t, pc), t)
    requires HoldsRead(pc) == HoldsRead(PcOf(s, t)) && HoldsWrite(pc) == HoldsWrite(PcOf(s, t))
    requires forall c :: c in s.conns ==> s.conns[c].once != Running(t)
    ensures Inv(Go(s, t, pc))
  {
    var n := Go(s, t, pc);
    OthersKeep(s, n, t);
    forall c | c in n.conns ensures ConnInv(n, c) {
      assert ConnInv(s, c);
    }
    forall j | 0 <= j < |n.jobs| ensures JobInv(n, n.jobs[j]) {
      assert JobInv(s, s.jobs[j]);
    }
  }

  // A thread that is not past the once flag of a client runs no close.
  lemma RunsNothing(s: State, t: Tid)
    requires ConnsInv(s)
    requires !PcOf(s, t).Closing? || PcOf(s, t).stage.AtOnce?
    ensures forall c :: c in s.conns ==> s.conns[c].once != Running(t)
  {
    forall c | c in s.conns ensures s.conns[c].once != Running(t) {
      assert ConnInv(s, c);
    }
  }

  lemma NewJobKeeps(s: State, t: Tid, room: RoomCode, except: string)
    requires Inv(s) && (PcOf(s, t).Idle? || PcOf(s, t).Listing?)
    ensures Inv(NewJob(s, t, room, except))
  {
    var n := NewJob(s, t, room, except);
    RunsNothing(s, t);
    OthersKeep(s, n, t);
    forall c | c in n.conns ensures ConnInv(n, c) {
      assert ConnInv(s, c);
    }
    forall j | 0 <= j < |n.jobs| ensures JobInv(n, n.jobs[j]) {
      assert j < |s.jobs| ==> JobInv(s, s.jobs[j]);
    }
  }

  lemma AcquireKeeps(s: State, t: Tid)
    requires Inv(s) && Enabled(s, t, Acquire)
    ensures Inv(Next(s, t, Acquire))
  {
    var n := Next(s, t, Acquire);
    assert ThreadInv(s, t);
    RunsNothing(s, t);
    OthersKeep(s, n, t);
    forall c | c in n.conns ensures ConnInv(n, c) {
      assert ConnInv(s, c);
    }
    forall j | 0 <= j < |n.jobs| ensures JobInv(n, n.jobs[j]) {
      assert JobInv(s, s.jobs[j]);
    }
  }

  lemma ReleaseKeeps(s: State, t: Tid)
    requires Inv(s) && Enabled(s, t, Release)
    ensures Inv(Next(s, t, Release))
  {
    var n := Next(s, t, Release);
    assert ThreadInv(s, t);
    RunsNothing(s, t);
    OthersKeep(s, n, t);
    forall c | c in n.conns ensures ConnInv(n, c) {
      assert ConnInv(s, c);
    }
    forall j | 0 <= j < |n.jobs| ensures JobInv(n, n.jobs[j]) {
      assert JobInv(s, s.jobs[j]);
    }
  }

  lemma PassOver(s: State, t: Tid, c: Client)
    requires Inv(s) && Enabled(s, t, Enqueue(c))
    requires c.id == s.jobs[PcOf(s, t).job].except
    ensures Inv(Next(s, t, Enqueue(c)))
  {
    var pc := PcOf(s, t);
    assert ThreadInv(s, t);
    RunsNothing(s, t);
    var targets := s.jobs[pc.job].targets;
    assert AllBut(targets - pc.todo, c.id) == AllBut(targets - (pc.todo - {c}), c.id);
    GoKeeps(s, t, Fanning(pc.job, pc.todo - {c}));
  }

  // A client still to be reached is registered, so its close has not run.
  lemma StillOpen(s: State, t: Tid, c: Client)
    requires Inv(s) && PcOf(s, t).Fanning? && c in PcOf(s, t).todo
    ensures Registered(s, c) && c in s.conns && !s.conns[c].cancelled && !s.conns[c].once.Done?
  {
    assert ThreadInv(s, t);
    assert ConnInv(s, c);
  }

  lemma FillSlotKeepsThis(s: State, t: Tid, c: Client)
    requires Inv(s) && Enabled(s, t, Enqueue(c))
    requires c.id != s.jobs[PcOf(s, t).job].except && HasRoom(s, c)
    ensures ConnInv(Next(s, t, Enqueue(c)), c)
  {
    assert ThreadInv(s, t);
    assert ConnInv(s, c);
  }

  lemma FillSlotKeepsOther(s: State, t: Tid, c: Client, d: Client)
    requires Inv(s) && Enabled(s, t, Enqueue(c)) && d in s.conns && d != c
    requires c.id != s.jobs[PcOf(s, t).job].except && HasRoom(s, c)
    ensures ConnInv(Next(s, t, Enqueue(c)), d)
  {
    assert ConnInv(s, d);
  }

  lemma FillSlotKeepsJobs(s: State, t: Tid, c: Client)
    requires Inv(s) && Enabled(s, t, Enqueue(c))
    requires c.id != s.jobs[PcOf(s, t).job].except && HasRoom(s, c)
    ensures JobsInv(Next(s, t, Enqueue(c)))
    ensures ThreadInv(Next(s, t, Enqueue(c)), t)
  {
    var n, pc := Next(s, t, Enqueue(c)), PcOf(s, t);
    assert ThreadInv(s, t);
    var job := s.jobs[pc.job];
    assert AllBut(job.targets - pc.todo, job.except) + {c} == AllBut(job.targets - (pc.todo - {c}), job.except);
    forall j | 0 <= j < |n.jobs| ensures JobInv(n, n.jobs[j]) {
      assert JobInv(s, s.jobs[j]);
    }
  }

  lemma FillSlot(s: State, t: Tid, c: Client)
    requires Inv(s) && Enabled(s, t, Enqueue(c))
    requires c.id != s.jobs[PcOf(s, t).job].except && HasRoom(s, c)
    ensures Inv(Next(s, t, Enqueue(c)))
  {
    var n := Next(s, t, Enqueue(c));
    assert ThreadInv(s, t);
    HoldsTheSame(s, n, t);
    FillSlotKeepsJobs(s, t, c);
    forall d | d in n.conns ensures ConnInv(n, d) {
      if d == c {
        FillSlotKeepsThis(s, t, c);
      } else {
        FillSlotKeepsOther(s, t, c, d);
      }
    }
  }

  lemma DropKeeps(s: State, t: Tid, c: Client)
    requires Inv(s) && Enabled(s, t, Enqueue(c))
    requires c.id != s.jobs[PcOf(s, t).job].except && !HasRoom(s, c)
    ensures Inv(Next(s, t, Enqueue(c)))
    ensures PcOf(Next(s, t, Enqueue(c)), t).Closing?
  {
    var pc := PcOf(s, t);
    assert ThreadInv(s, t);
    StillOpen(s, t, c);
    RunsNothing(s, t);
    assert pc.todo - {c} + {c} == pc.todo;
    GoKeeps(s, t, Closing(c, AtOnce, ToFan(pc.job, pc.todo - {c})));
  }

  lemma SendFills(s: State, t: Tid, c: Client)
    requires Inv(s) && c in s.conns && HasRoom(s, c)
    ensures Inv(SendOne(s, t, c))
  {
    DepthKeeps(s, SendOne(s, t, c), c, s.conns[c].depth + 1);
  }

  lemma SendDrops(s: State, t: Tid, c: Client)
    requires Inv(s) && PcOf(s, t).Idle? && c in s.conns && !HasRoom(s, c) && !s.conns[c].cancelled
    ensures Inv(SendOne(s, t, c))
  {
    CloseKeeps(s, t, c, ToEnd);
  }

  lemma SendKeeps(s: State, t: Tid, c: Client)
    requires Inv(s) && PcOf(s, t).Idle? && c in s.conns
    ensures Inv(SendOne(s, t, c))
  {
    if HasRoom(s, c) {
      SendFills(s, t, c);
    } else if !s.conns[c].cancelled {
      SendDrops(s, t, c);
    }
  }

  lemma DrainKeeps(s: State, t: Tid, c: Client)
    requires Inv(s) && Enabled(s, t, Drain(c))
    ensures Inv(Next(s, t, Drain(c)))
  {
    assert ConnInv(s, c);
    DepthKeeps(s, Next(s, t, Drain(c)), c, s.conns[c].depth - 1);
  }

  lemma CloseKeeps(s: State, t: Tid, c: Client, back: Back)
    requires Inv(s) && PcOf(s, t).Idle? && c in s.conns && !back.ToFan?
    ensures Inv(Go(s, t, Closing(c, AtOnce, back)))
  {
    RunsNothing(s, t);
    GoKeeps(s, t, Closing(c, AtOnce, back));
  }

  lemma DepthKeeps(s: State, n: State, c: Client, depth: nat)
    requires Inv(s) && c in s.conns && depth <= SEND_BUFFER && n == SetDepth(s, c, depth)
    ensures Inv(n)
  {
    forall t ensures ThreadInv(n, t) {
      assert ThreadInv(s, t) && PcOf(n, t) == PcOf(s, t);
    }
    forall t: Tid ensures t in n.readers <==> HoldsRead(PcOf(n, t)) {
      assert PcOf(n, t) == PcOf(s, t);
    }
    forall t: Tid ensures n.lock == Some(t) <==> HoldsWrite(PcOf(n, t)) {
      assert PcOf(n, t) == PcOf(s, t);
    }
    forall d | d in n.conns ensures ConnInv(n, d) {
      assert ConnInv(s, d);
    }
    forall j | 0 <= j < |n.jobs| ensures JobInv(n, n.jobs[j]) {
      assert JobInv(s, s.jobs[j]);
    }
  }

  lemma EnterOnceKeepsConn(s: State, t: Tid, d: Client)
    requires Inv(s) && Enabled(s, t, EnterOnce) && s.conns[PcOf(s, t).client].once.Fresh? && d in s.conns
    ensures ConnInv(Next(s, t, EnterOnce), d)
  {
    assert ConnInv(s, d);
  }

  lemma FirstToClose(s: State, t: Tid)
    requires Inv(s) && Enabled(s, t, EnterOnce) && s.conns[PcOf(s, t).client].once.Fresh?
    ensures Inv(Next(s, t, EnterOnce))
  {
    var n, pc := Next(s, t, EnterOnce), PcOf(s, t);
    assert ThreadInv(s, t);
    HoldsTheSame(s, n, t);
    forall d | d in n.conns ensures ConnInv(n, d) {
      EnterOnceKeepsConn(s, t, d);
    }
    JobsKeep(s, n);
  }

  lemma AlreadyClosed(s: State, t: Tid)
    requires Inv(s) && Enabled(s, t, EnterOnce) && s.conns[PcOf(s, t).client].once.Done?
    ensures Inv(Next(s, t, EnterOnce))
  {
    var pc := PcOf(s, t);
    assert ThreadInv(s, t);
    assert ConnInv(s, pc.client);
    RunsNothing(s, t);
    GoKeeps(s, t, Return(pc.client, pc.back));
  }

  lemma AnnounceKeepsConn(s: State, t: Tid, d: Client)
    requires Inv(s) && Enabled(s, t, Announce) && d in s.conns
    ensures ConnInv(Next(s, t, Announce), d)
  {
    assert ConnInv(s, d);
  }

  lemma AnnounceKeeps(s: State, t: Tid)
    requires Inv(s) && Enabled(s, t, Announce)
    ensures Inv(Next(s, t, Announce))
  {
    var n := Next(s, t, Announce);
    assert ThreadInv(s, t);
    OthersKeep(s, n, t);
    forall d | d in n.conns ensures ConnInv(n, d) {
      AnnounceKeepsConn(s, t, d);
    }
    JobsKeep(s, n);
  }

  lemma RemovalIsLocal(rooms: Rooms, c: Client)
    requires RoomsValid(rooms)
    ensures RoomsValid(WithoutClient(rooms, c))
    ensures forall d: Client :: d in ClientsIn(WithoutClient(rooms, c), d.room) <==> d in ClientsIn(rooms, d.room) && d != c
    ensures forall r :: ClientsIn(WithoutClient(rooms, c), r) <= ClientsIn(rooms, r)
  {
  }

  lemma AdditionIsLocal(rooms: Rooms, c: Client)
    requires RoomsValid(rooms)
    ensures RoomsValid(WithClient(rooms, c))
    ensures forall d: Client :: d in ClientsIn(WithClient(rooms, c), d.room) <==> d in ClientsIn(rooms, d.room) || d == c
    ensures forall r :: ClientsIn(WithClient(rooms, c), r) <= ClientsIn(rooms, r) + {c}
  {
  }

  lemma JobsKeep(s: State, n: State)
    requires JobsInv(s) && n.jobs == s.jobs && s.conns.Keys <= n.conns.Keys
    ensures JobsInv(n)
  {
    forall j | 0 <= j < |n.jobs| ensures JobInv(n, n.jobs[j]) {
      assert JobInv(s, s.jobs[j]);
    }
  }

  // Nobody else is reading, and the one thread that held the lock lets go of it.
  lemma WriterLeaves(s: State, n: State, t: Tid)
    requires LockInv(s) && ThreadsInv(s) && Frame(s, n, t)
    requires s.lock == Some(t) && s.readers == {} && n.lock.None? && n.readers == {}
    requires !HoldsRead(PcOf(n, t)) && !HoldsWrite(PcOf(n, t))
    ensures LockInv(n) && forall u :: u != t ==> ThreadInv(n, u)
  {
    OthersKeep(s, n, t);
  }

  lemma UnregisterKeepsConn(s: State, t: Tid, d: Client)
    requires Inv(s) && Enabled(s, t, Unregister) && d in s.conns
    ensures ConnInv(Next(s, t, Unregister), d)
  {
    assert ThreadInv(s, t);
    assert ConnInv(s, d);
    RemovalIsLocal(s.rooms, PcOf(s, t).client);
  }

  lemma UnregisterKeeps(s: State, t: Tid)
    requires Inv(s) && Enabled(s, t, Unregister)
    ensures Inv(Next(s, t, Unregister))
  {
    var n, pc := Next(s, t, Unregister), PcOf(s, t);
    assert ThreadInv(s, t);
    assert t in s.readers <==> HoldsRead(pc);
    RemovalIsLocal(s.rooms, pc.client);
    WriterLeaves(s, n, t);
    forall d | d in n.conns ensures ConnInv(n, d) {
      UnregisterKeepsConn(s, t, d);
    }
    JobsKeep(s, n);
  }

  lemma CancelKeepsConn(s: State, t: Tid, d: Client)
    requires Inv(s) && Enabled(s, t, Cancel) && d in s.conns
    ensures ConnInv(Next(s, t, Cancel), d)
  {
    assert ThreadInv(s, t);
    assert ConnInv(s, d);
  }

  lemma CancelReturns(s: State, t: Tid)
    requires Inv(s) && Enabled(s, t, Cancel)
    ensures ThreadInv(Next(s, t, Cancel), t)
    ensures !PcOf(s, t).back.ToFan? && s.conns[PcOf(s, t).client].once == Running(t)
  {
    assert ThreadInv(s, t);
  }

  lemma CancelKeeps(s: State, t: Tid)
    requires Inv(s) && Enabled(s, t, Cancel)
    ensures Inv(Next(s, t, Cancel))
  {
    var n := Next(s, t, Cancel);
    CancelReturns(s, t);
    HoldsTheSame(s, n, t);
    forall d | d in n.conns ensures ConnInv(n, d) {
      CancelKeepsConn(s, t, d);
    }
    JobsKeep(s, n);
  }

  lemma OpenKeeps(s: State, t: Tid, c: Client)
    requires Inv(s) && Enabled(s, t, Open(c))
    ensures Inv(Next(s, t, Open(c)))
  {
    var n := Next(s, t, Open(c));
    RunsNothing(s, t);
    OthersKeep(s, n, t);
    forall d | d in n.conns ensures ConnInv(n, d) {
      assert ConnInv(s, d);
    }
    forall j | 0 <= j < |n.jobs| ensures JobInv(n, n.jobs[j]) {
      assert JobInv(s, s.jobs[j]);
    }
  }

  lemma AnnounceAddKeeps(s: State, t: Tid)
    requires Inv(s) && Enabled(s, t, AnnounceAdd)
    ensures Inv(Next(s, t, AnnounceAdd))
  {
    var n := Next(s, t, AnnounceAdd);
    assert ThreadInv(s, t);
    RunsNothing(s, t);
    OthersKeep(s, n, t);
    forall d | d in n.conns ensures ConnInv(n, d) {
      assert ConnInv(s, d);
    }
    forall j | 0 <= j < |n.jobs| ensures JobInv(n, n.jobs[j]) {
      assert JobInv(s, s.jobs[j]);
    }
  }

  lemma RegisterKeepsConn(s: State, t: Tid, d: Client)
    requires Inv(s) && Enabled(s, t, Register) && d in Next(s, t, Register).conns
    ensures ConnInv(Next(s, t, Register), d)
  {
    var c := PcOf(s, t).client;
    assert ThreadInv(s, t);
    RunsNothing(s, t);
    AdditionIsLocal(s.rooms, c);
    if d == c {
      NeverSentTo(s, c);
    } else {
      assert ConnInv(s, d);
    }
  }

  lemma NeverSentTo(s: State, c: Client)
    requires JobsInv(s) && c !in s.conns
    ensures forall j: JobId :: j < |s.jobs| ==> c !in s.jobs[j].sent
  {
    forall j: JobId | j < |s.jobs| ensures c !in s.jobs[j].sent {
      assert JobInv(s, s.jobs[j]);
    }
  }

  lemma RegisterKeeps(s: State, t: Tid)
    requires Inv(s) && Enabled(s, t, Register)
    ensures Inv(Next(s, t, Register))
  {
    var n, pc := Next(s, t, Register), PcOf(s, t);
    assert ThreadInv(s, t);
    AdditionIsLocal(s.rooms, pc.client);
    WriterLeaves(s, n, t);
    forall d | d in n.conns ensures ConnInv(n, d) {
      RegisterKeepsConn(s, t, d);
    }
    JobsKeep(s, n);
  }

  lemma LoopStepKeeps(s: State, t: Tid, step: Step)
    requires Inv(s) && Enabled(s, t, step)
    requires step.Broadcast? || step.Acquire? || step.Enqueue? || step.Skip? || step.Release?
    ensures Inv(Next(s, t, step))
  {
    match step
    case Broadcast(room, except) => NewJobKeeps(s, t, room, except);
    case Acquire => AcquireKeeps(s, t);
    case Enqueue(c) =>
      if c.id == s.jobs[PcOf(s, t).job].except {
        PassOver(s, t, c);
      } else if HasRoom(s, c) {
        FillSlot(s, t, c);
      } else {
        DropKeeps(s, t, c);
      }
    case Skip(c) => StillOpen(s, t, c);
    case Release => ReleaseKeeps(s, t);
  }

  lemma CloseStepKeeps(s: State, t: Tid, step: Step)
    requires Inv(s) && Enabled(s, t, step)
    requires step.Close? || step.EnterOnce? || step.Announce? || step.Unregister? || step.Cancel? || step.List?
    ensures Inv(Next(s, t, step))
  {
    match step
    case Close(c, back) => CloseKeeps(s, t, c, back);
    case EnterOnce =>
      if s.conns[PcOf(s, t).client].once.Done? {
        AlreadyClosed(s, t);
      } else {
        FirstToClose(s, t);
      }
    case Announce => AnnounceKeeps(s, t);
    case Unregister => UnregisterKeeps(s, t);
    case Cancel => CancelKeeps(s, t);
    case List => NewJobKeeps(s, t, PcOf(s, t).client.room, "");
  }

  lemma OpenStepKeeps(s: State, t: Tid, step: Step)
    requires Inv(s) && Enabled(s, t, step)
    requires step.Send? || step.Open? || step.AnnounceAdd? || step.Register? || step.Drain?
    ensures Inv(Next(s, t, step))
  {
    match step
    case Send(c) => SendKeeps(s, t, c);
    case Open(c) => OpenKeeps(s, t, c);
    case AnnounceAdd => AnnounceAddKeeps(s, t);
    case Register => RegisterKeeps(s, t);
    case Drain(c) => DrainKeeps(s, t, c);
  }

  lemma StepKeeps(s: State, t: Tid, step: Step)
    requires Inv(s) && Enabled(s, t, step)
    ensures Inv(Next(s, t, step))
  {
    if step.Broadcast? || step.Acquire? || step.Enqueue? || step.Skip? || step.Release? {
      LoopStepKeeps(s, t, step);
    } else if step.Send? || step.Open? || step.AnnounceAdd? || step.Register? || step.Drain? {
      OpenStepKeeps(s, t, step);
    } else {
      CloseStepKeeps(s, t, step);
    }
  }

  lemma {:induction false} RunKeeps(s: State, steps: seq<(Tid, Step)>)
    requires Inv(s) && Runs(s, steps)
    ensures Inv(After(s, steps))
    decreases |steps|
  {
    if steps != [] {
      StepKeeps(s, steps[0].0, steps[0].1);
      RunKeeps(Next(s, steps[0].0, steps[0].1), steps[1..]);
    }
  }

  /* ── The life of a client ────────────────────────────────────────────── */

  // The one close of a client is past taking it out of its room.
  predicate TakenOut(s: State, c: Client)
    requires c in s.conns
  {
    match s.conns[c].once
    case Fresh => false
    case Running(t) => PcOf(s, t).Closing? && PcOf(s, t).stage.Cancelling?
    case Done => true
  }

  // After any run: a room is kept only for its clients, and a client is in its room
  // exactly from its registration until its close takes it out.
  lemma RegisteredUntilItsClose(steps: seq<(Tid, Step)>)
    requires Runs(INITIAL, steps)
    ensures var s := After(INITIAL, steps);
      && RoomsValid(s.rooms)
      && (forall c :: Registered(s, c) <==> c in s.conns && !TakenOut(s, c))
  {
    StartKeeps();
    RunKeeps(INITIAL, steps);
    var s := After(INITIAL, steps);
    forall c ensures Registered(s, c) <==> c in s.conns && !TakenOut(s, c) {
      if c in s.conns {
        assert ConnInv(s, c);
      }
    }
  }

  // A client that is out stays out, so it is taken out once.
  lemma OutStaysOut(s: State, t: Tid, step: Step, c: Client)
    requires Inv(s) && Enabled(s, t, step) && c in s.conns && !Registered(s, c)
    ensures c in Next(s, t, step).conns && !Registered(Next(s, t, step), c)
    ensures !(step.Unregister? && PcOf(s, t).client == c)
  {
    assert ThreadInv(s, t);
    assert ConnInv(s, c);
    if step.Unregister? {
      RemovalIsLocal(s.rooms, PcOf(s, t).client);
    } else if step.Register? {
      AdditionIsLocal(s.rooms, PcOf(s, t).client);
    }
  }

  // When the reading side has closed its client and computes who is left, the client is
  // not among them, whichever side ran the close.
  lemma PresenceOmitsTheClosed(steps: seq<(Tid, Step)>, t: Tid)
    requires Runs(INITIAL, steps) && PcOf(After(INITIAL, steps), t).Listing?
    ensures var s := After(INITIAL, steps);
      var c := PcOf(s, t).client;
      PeerOf(c) !in PeersOfClients(ClientsIn(s.rooms, c.room))
  {
    StartKeeps();
    RunKeeps(INITIAL, steps);
    var s := After(INITIAL, steps);
    var c := PcOf(s, t).client;
    assert ThreadInv(s, t);
    assert ConnInv(s, c);
    ListedExactlyIfConnected(ClientsIn(s.rooms, c.room), PeerOf(c));
    forall d | d in ClientsIn(s.rooms, c.room) ensures PeerOf(d) != PeerOf(c) {
      assert d.room == c.room;
    }
  }

  /* ── Broadcasts that finish ──────────────────────────────────────────── */

  // After any run: a broadcast that has finished has put its frame exactly once into the
  // buffer of each client it found, except the excepted one, and into no other; and none
  // that is still in its loop has sent to anyone twice.
  lemma FinishedBroadcastReachesEachOnce(steps: seq<(Tid, Step)>, j: JobId, c: Client)
    requires Runs(INITIAL, steps) && j < |After(INITIAL, steps).jobs| && c in After(INITIAL, steps).conns
    ensures var s := After(INITIAL, steps);
      var job := s.jobs[j];
      && s.conns[c].received[j] <= 1
      && (job.finished ==> (s.conns[c].received[j] == 1 <==> c in job.targets && c.id != job.except))
  {
    StartKeeps();
    RunKeeps(INITIAL, steps);
    var s := After(INITIAL, steps);
    assert ConnInv(s, c);
    assert JobInv(s, s.jobs[j]);
  }

  // While a thread is in the loop, the room it walks over does not change, and nobody in
  // it has been closed.
  lemma TheRoomHoldsStill(steps: seq<(Tid, Step)>, t: Tid)
    requires Runs(INITIAL, steps) && HoldsRead(PcOf(After(INITIAL, steps), t))
    ensures var s := After(INITIAL, steps);
      var pc := PcOf(s, t);
      var j := if pc.Fanning? then pc.job else pc.back.job;
      && j < |s.jobs| && s.jobs[j].targets == ClientsIn(s.rooms, s.jobs[j].room)
      && forall c :: c in s.jobs[j].targets ==> c in s.conns && !s.conns[c].cancelled
  {
    StartKeeps();
    RunKeeps(INITIAL, steps);
    var s := After(INITIAL, steps);
    assert ThreadInv(s, t);
    var pc := PcOf(s, t);
    var j := if pc.Fanning? then pc.job else pc.back.job;
    forall c | c in s.jobs[j].targets ensures c in s.conns && !s.conns[c].cancelled {
      assert c.room == s.jobs[j].room;
      assert ConnInv(s, c);
    }
  }

  /* ── Broadcasts that do not ──────────────────────────────────────────── */

  // Closing a client from inside the broadcast loop.
  predicate Trapped(s: State, t: Tid) { PcOf(s, t).Closing? && PcOf(s, t).back.ToFan? }

  // Reaching a client with a full buffer always leads there: the client is registered, so
  // its context has not ended.
  lemma FullBufferTraps(s: State, t: Tid, c: Client)
    requires Inv(s) && Enabled(s, t, Enqueue(c)) && c.id != s.jobs[PcOf(s, t).job].except
    ensures Trapped(Next(s, t, Enqueue(c)), t) <==> s.conns[c].depth == 32
  {
    assert ThreadInv(s, t);
    StillOpen(s, t, c);
    assert ConnInv(s, c);
  }

  lemma TrappedBySelf(s: State, t: Tid, step: Step)
    requires Inv(s) && Trapped(s, t) && Enabled(s, t, step)
    ensures Trapped(Next(s, t, step), t) && PcOf(Next(s, t, step), t).back == PcOf(s, t).back
    ensures Next(s, t, step).rooms == s.rooms
    ensures s.lock.Some? ==> Next(s, t, step).lock == s.lock && Next(s, t, step).readers <= s.readers
  {
    assert ThreadInv(s, t);
    assert t in s.readers;
    var c := PcOf(s, t).client;
    assert Registered(s, c);
    assert ConnInv(s, c);
  }

  lemma TrappedByOther(s: State, t: Tid, u: Tid, step: Step)
    requires Inv(s) && Trapped(s, t) && Enabled(s, u, step) && u != t
    ensures PcOf(Next(s, u, step), t) == PcOf(s, t)
    ensures Next(s, u, step).rooms == s.rooms
    ensures s.lock.Some? ==> Next(s, u, step).lock == s.lock && Next(s, u, step).readers <= s.readers
  {
    assert t in s.readers;
  }

  // From then on, in every run, that broadcast never finishes and no client is ever
  // registered or taken out again; once anyone waits to do so, no new reader enters.
  lemma {:induction false} TrappedForever(s: State, t: Tid, steps: seq<(Tid, Step)>)
    requires Inv(s) && Trapped(s, t) && Runs(s, steps)
    ensures var n := After(s, steps);
      && Trapped(n, t) && PcOf(n, t).back.job == PcOf(s, t).back.job
      && PcOf(n, t).back.job < |n.jobs| && !n.jobs[PcOf(n, t).back.job].finished
      && n.rooms == s.rooms
      && (s.lock.Some? ==> n.lock == s.lock && n.readers <= s.readers)
    decreases |steps|
  {
    if steps == [] {
      assert ThreadInv(s, t);
    } else {
      var u, step := steps[0].0, steps[0].1;
      if u == t {
        TrappedBySelf(s, t, step);
      } else {
        TrappedByOther(s, t, u, step);
      }
      StepKeeps(s, u, step);
      TrappedForever(Next(s, u, step), t, steps[1..]);
    }
  }

  // It is the only thing that blocks: if no reader is trapped, then whoever waits for the
  // lock can go on, or one of the readers it waits for can.
  lemma NothingElseBlocks(s: State, w: Tid)
    requires Inv(s) && s.lock == Some(w) && forall t :: t in s.readers ==> !Trapped(s, t)
    ensures exists u: Tid, step: Step :: (u == w || u in s.readers) && !step.Drain? && Enabled(s, u, step)
  {
    assert HoldsWrite(PcOf(s, w));
    if s.readers == {} {
      assert Enabled(s, w, if PcOf(s, w).Adding? then Register else Unregister);
    } else {
      var u :| u in s.readers;
      assert HoldsRead(PcOf(s, u)) && ThreadInv(s, u);
      var todo := PcOf(s, u).todo;
      if todo == {} {
        assert Enabled(s, u, Release);
      } else {
        var c :| c in todo;
        assert Enabled(s, u, Enqueue(c));
      }
    }
  }

  /* ── Waiting for the lock ends ───────────────────────────────────────── */

  ghost predicate NoTrap(s: State) { forall t :: t in s.readers ==> !Trapped(s, t) }

  // What a reader still has to do: one step for each client to reach, and one to leave.
  function Cost(pc: Pc): nat { if pc.Fanning? then |pc.todo| + 1 else 0 }

  ghost function Work(s: State, ts: set<Tid>): nat
    decreases |ts|
  {
    if ts == {} then 0 else var t :| t in ts; Cost(PcOf(s, t)) + Work(s, ts - {t})
  }

  lemma {:induction false} TakeWork(s: State, ts: set<Tid>, t: Tid)
    requires t in ts
    ensures Work(s, ts) == Cost(PcOf(s, t)) + Work(s, ts - {t})
    decreases |ts|
  {
    var u :| u in ts && Work(s, ts) == Cost(PcOf(s, u)) + Work(s, ts - {u});
    if u != t {
      TakeWork(s, ts - {u}, t);
      TakeWork(s, ts - {t}, u);
      assert ts - {u} - {t} == ts - {t} - {u};
    }
  }

  lemma {:induction false} SameWork(s: State, n: State, ts: set<Tid>)
    requires forall t :: t in ts ==> PcOf(n, t) == PcOf(s, t)
    ensures Work(n, ts) == Work(s, ts)
    decreases |ts|
  {
    if ts != {} {
      var t :| t in ts;
      TakeWork(s, ts, t);
      TakeWork(n, ts, t);
      SameWork(s, n, ts - {t});
    }
  }

  // A step of a thread that holds nothing, or of a client's writing side, while a writer waits.
  lemma BystanderStep(s: State, w: Tid, u: Tid, step: Step)
    requires Inv(s) && s.lock == Some(w) && Enabled(s, u, step)
    requires step.Drain? || (u !in s.readers && u != w)
    ensures var n := Next(s, u, step);
      n.lock == s.lock && n.readers == s.readers && Work(n, n.readers) == Work(s, s.readers)
  {
    var n := Next(s, u, step);
    assert u in s.readers <==> HoldsRead(PcOf(s, u));
    assert s.lock == Some(u) <==> HoldsWrite(PcOf(s, u));
    assert forall t :: t in s.readers ==> PcOf(n, t) == PcOf(s, t);
    SameWork(s, n, s.readers);
  }

  // A step of a reader that is not trapped by it: one client fewer, or out.
  lemma ReaderMoves(s: State, u: Tid, step: Step)
    requires Inv(s) && s.lock.Some? && Enabled(s, u, step) && !step.Drain? && u in s.readers
    requires !Trapped(s, u) && (u in Next(s, u, step).readers ==> !Trapped(Next(s, u, step), u))
    ensures var n := Next(s, u, step);
      && n.lock == s.lock && (forall t :: t in s.readers && t != u ==> PcOf(n, t) == PcOf(s, t))
      && if step.Release? then n.readers == s.readers - {u} && Cost(PcOf(s, u)) == 1
         else n.readers == s.readers && Cost(PcOf(n, u)) + 1 == Cost(PcOf(s, u))
  {
    assert u in s.readers <==> HoldsRead(PcOf(s, u));
  }

  lemma ReaderStep(s: State, w: Tid, u: Tid, step: Step)
    requires Inv(s) && s.lock == Some(w) && Enabled(s, u, step) && !step.Drain? && u in s.readers
    requires !Trapped(s, u) && (u in Next(s, u, step).readers ==> !Trapped(Next(s, u, step), u))
    ensures var n := Next(s, u, step);
      n.lock == s.lock && n.readers <= s.readers && Work(n, n.readers) + 1 == Work(s, s.readers)
  {
    ReaderMoves(s, u, step);
    WorkLessOne(s, Next(s, u, step), u);
  }

  lemma WorkLessOne(s: State, n: State, u: Tid)
    requires u in s.readers && forall t :: t in s.readers && t != u ==> PcOf(n, t) == PcOf(s, t)
    requires (n.readers == s.readers - {u} && Cost(PcOf(s, u)) == 1)
      || (n.readers == s.readers && Cost(PcOf(n, u)) + 1 == Cost(PcOf(s, u)))
    ensures Work(n, n.readers) + 1 == Work(s, s.readers)
  {
    TakeWork(s, s.readers, u);
    SameWork(s, n, s.readers - {u});
    if n.readers == s.readers {
      TakeWork(n, n.readers, u);
    }
  }

  // The writer's own step lets go of the lock.
  lemma WriterStep(s: State, w: Tid, step: Step)
    requires Inv(s) && s.lock == Some(w) && Enabled(s, w, step) && !step.Drain? && w !in s.readers
    ensures Next(s, w, step).lock.None?
  {
    assert HoldsWrite(PcOf(s, w));
  }

  ghost predicate NeverTraps(s: State, steps: seq<(Tid, Step)>)
    requires Runs(s, steps)
    decreases |steps|
  {
    NoTrap(s) && (steps != [] ==> NeverTraps(Next(s, steps[0].0, steps[0].1), steps[1..]))
  }

  // At some point of the run the writer has had the lock and let go of it.
  predicate Released(s: State, w: Tid, steps: seq<(Tid, Step)>)
    requires Runs(s, steps)
    decreases |steps|
  {
    s.lock != Some(w) || (steps != [] && Released(Next(s, steps[0].0, steps[0].1), w, steps[1..]))
  }

  // The steps that the readers inside and the writer take.
  function Moves(s: State, w: Tid, steps: seq<(Tid, Step)>): nat
    requires Runs(s, steps)
    decreases |steps|
  {
    if steps == [] then 0
    else
      (if (steps[0].0 in s.readers || steps[0].0 == w) && !steps[0].1.Drain? then 1 else 0)
      + Moves(Next(s, steps[0].0, steps[0].1), w, steps[1..])
  }

  // In every run without a trap, whatever all other threads do, a waiting writer has had
  // its turn before the readers and it have taken more steps than there is work left.
  lemma {:induction false} WriterGetsIn(s: State, w: Tid, steps: seq<(Tid, Step)>)
    requires Inv(s) && s.lock == Some(w) && Runs(s, steps) && NeverTraps(s, steps)
    ensures Released(s, w, steps) || Moves(s, w, steps) <= Work(s, s.readers)
    decreases |steps|
  {
    if steps != [] {
      var u, step := steps[0].0, steps[0].1;
      var n := Next(s, u, step);
      StepKeeps(s, u, step);
      if step.Drain? || (u !in s.readers && u != w) {
        BystanderStep(s, w, u, step);
      } else if u in s.readers {
        ReaderStep(s, w, u, step);
      } else {
        WriterStep(s, w, step);
      }
      if n.lock == Some(w) {
        WriterGetsIn(n, w, steps[1..]);
      }
    }
  }

  lemma {:induction false} OneMore(s: State, steps: seq<(Tid, Step)>, t: Tid, step: Step)
    requires Runs(s, steps) && Enabled(After(s, steps), t, step)
    ensures Runs(s, steps + [(t, step)])
    ensures After(s, steps + [(t, step)]) == Next(After(s, steps), t, step)
    decreases |steps|
  {
    if steps == [] {
      assert [(t, step)][1..] == [];
    } else {
      assert (steps + [(t, step)])[1..] == steps[1..] + [(t, step)];
      OneMore(Next(s, steps[0].0, steps[0].1), steps[1..], t, step);
    }
  }

  // One registered client, and nothing else going on.
  predicate Quiet(s: State, c: Client, depth: nat) {
    && s.rooms == map[c.room := {c}] && c in s.conns && !s.conns[c].cancelled
    && s.conns[c].depth == depth && s.lock.None? && PcOf(s, 0).Idle?
  }

  lemma JoinAlone(c: Client) returns (steps: seq<(Tid, Step)>)
    ensures Runs(INITIAL, steps) && Quiet(After(INITIAL, steps), c, 0)
  {
    assert {} + {c} == {c};
    OneMore(INITIAL, [], 0, Open(c));
    OneMore(INITIAL, [] + [(0, Open(c))], 0, AnnounceAdd);
    OneMore(INITIAL, [] + [(0, Open(c))] + [(0, AnnounceAdd)], 0, Register);
    steps := [] + [(0, Open(c))] + [(0, AnnounceAdd)] + [(0, Register)];
  }

  lemma BroadcastTraps(c: Client, before: seq<(Tid, Step)>) returns (steps: seq<(Tid, Step)>)
    requires c.id != "" && Runs(INITIAL, before) && Quiet(After(INITIAL, before), c, SEND_BUFFER)
    ensures Runs(INITIAL, steps) && Trapped(After(INITIAL, steps), 0)
  {
    var s := After(INITIAL, before);
    OneMore(INITIAL, before, 0, Broadcast(c.room, ""));
    steps := before + [(0, Broadcast(c.room, ""))];
    OneMore(INITIAL, steps, 0, Acquire);
    steps := steps + [(0, Acquire)];
    var found := After(INITIAL, steps);
    assert PcOf(found, 0) == Fanning(|s.jobs|, {c}) && found.conns == s.conns;
    OneMore(INITIAL, steps, 0, Enqueue(c));
    steps := steps + [(0, Enqueue(c))];
  }

  // It happens: a client that takes nothing out of its buffer is sent 32 frames, and the
  // next broadcast to its room is trapped.
  lemma SlowClientTrapsTheHub(c: Client) returns (steps: seq<(Tid, Step)>)
    requires c.id != ""
    ensures Runs(INITIAL, steps) && Trapped(After(INITIAL, steps), 0)
  {
    steps := JoinAlone(c);
    var depth := 0;
    while depth < SEND_BUFFER
      invariant depth <= SEND_BUFFER && Runs(INITIAL, steps) && Quiet(After(INITIAL, steps), c, depth)
    {
      OneMore(INITIAL, steps, 0, Send(c));
      steps := steps + [(0, Send(c))];
      depth := depth + 1;
    }
    steps := BroadcastTraps(c, steps);
  }
}
