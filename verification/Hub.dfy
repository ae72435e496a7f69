/** Who is connected: the clients of this instance, and the peer lists that the
    other instances announce and must keep refreshing. */
module Hub {
  import opened Wrappers

  // Time in nanoseconds, as the clock and its durations count it.
  const SECOND: int := 1_000_000_000
  const REMOTE_TTL: int := 90 * SECOND

  type RoomCode = string
  type InstanceId = string

  datatype Peer = Peer(id: string, device: string)

  // A registered connection. Its id is drawn afresh for every socket.
  datatype Client = Client(id: string, room: RoomCode, device: string)

  datatype RemoteEntry = RemoteEntry(peers: seq<Peer>, seen: int)

  type Rooms = map<RoomCode, set<Client>>
  type Entries = map<InstanceId, RemoteEntry>
  type Remote = map<RoomCode, Entries>

  /* ── What is stored ──────────────────────────────────────────────────── */

  // No room is kept without a client, and every client is filed under its own room.
  ghost predicate RoomsValid(rooms: Rooms) {
    forall r :: r in rooms ==> rooms[r] != {} && forall c :: c in rooms[r] ==> c.room == r
  }

  // No room is kept without an instance, and no instance without a peer.
  ghost predicate RemoteValid(remote: Remote) {
    forall r :: r in remote ==> remote[r] != map[] && forall i :: i in remote[r] ==> remote[r][i].peers != []
  }

  function ClientsIn(rooms: Rooms, room: RoomCode): set<Client> {
    if room in rooms then rooms[room] else {}
  }

  function WithClient(rooms: Rooms, c: Client): Rooms {
    rooms[c.room := ClientsIn(rooms, c.room) + {c}]
  }

  // A room is forgotten with its last client.
  function WithoutClient(rooms: Rooms, c: Client): Rooms {
    var left := ClientsIn(rooms, c.room) - {c};
    if left == {} then rooms - {c.room} else rooms[c.room := left]
  }

  function EntriesIn(remote: Remote, room: RoomCode): Entries {
    if room in remote then remote[room] else map[]
  }

  function EntryOf(remote: Remote, room: RoomCode, instance: InstanceId): Option<RemoteEntry> {
    if instance in EntriesIn(remote, room) then Some(remote[room][instance]) else None
  }

  // Storing a collection under a room, or forgetting the room when nothing is left.
  function PutEntries(remote: Remote, room: RoomCode, entries: Entries): Remote {
    if entries == map[] then remote - {room} else remote[room := entries]
  }

  function SetRemote(remote: Remote, room: RoomCode, instance: InstanceId, peers: seq<Peer>, now: int): Remote {
    var entries := EntriesIn(remote, room);
    PutEntries(remote, room, if peers == [] then entries - {instance} else entries[instance := RemoteEntry(peers, now)])
  }

  predicate IsFresh(entry: RemoteEntry, now: int) { entry.seen >= now - REMOTE_TTL }

  function FreshOf(entries: Entries, now: int): Entries {
    map i | i in entries && IsFresh(entries[i], now) :: entries[i]
  }

  function DropStale(remote: Remote, now: int): Remote {
    map r | r in remote && FreshOf(remote[r], now) != map[] :: FreshOf(remote[r], now)
  }

  predicate HasStale(entries: Entries, now: int) {
    exists i :: i in entries && !IsFresh(entries[i], now)
  }

  predicate LostAnEntry(remote: Remote, room: RoomCode, now: int) { HasStale(EntriesIn(remote, room), now) }

  /* ── Who is listed ───────────────────────────────────────────────────── */

  function PeerOf(c: Client): Peer { Peer(c.id, c.device) }

  ghost function PeersOfClients(clients: set<Client>): multiset<Peer> {
    if clients == {} then multiset{}
    else var c :| c in clients; multiset{PeerOf(c)} + PeersOfClients(clients - {c})
  }

  ghost function PeersOfEntries(entries: Entries): multiset<Peer>
    decreases |entries|
  {
    if entries == map[] then multiset{}
    else var i :| i in entries; multiset(entries[i].peers) + PeersOfEntries(entries - {i})
  }

  // Everyone in the room, on this instance and on those that are not stale.
  ghost function Listed(rooms: Rooms, remote: Remote, room: RoomCode, now: int): multiset<Peer> {
    PeersOfClients(ClientsIn(rooms, room)) + PeersOfEntries(FreshOf(EntriesIn(remote, room), now))
  }

  // The sum does not depend on the order of iteration.
  lemma {:induction false} TakeClient(clients: set<Client>, c: Client)
    requires c in clients
    ensures PeersOfClients(clients) == multiset{PeerOf(c)} + PeersOfClients(clients - {c})
    decreases |clients|
  {
    var d :| d in clients && PeersOfClients(clients) == multiset{PeerOf(d)} + PeersOfClients(clients - {d});
    if d != c {
      TakeClient(clients - {d}, c);
      TakeClient(clients - {c}, d);
      assert clients - {d} - {c} == clients - {c} - {d};
    }
  }

  lemma {:induction false} ListedAreClients(clients: set<Client>, p: Peer)
    ensures p in PeersOfClients(clients) <==> exists c :: c in clients && PeerOf(c) == p
    ensures |PeersOfClients(clients)| == |clients|
    decreases |clients|
  {
    if clients != {} {
      var c :| c in clients && PeersOfClients(clients) == multiset{PeerOf(c)} + PeersOfClients(clients - {c});
      ListedAreClients(clients - {c}, p);
    }
  }

  // A peer is listed exactly if some client has its id and its device, and there is one for each.
  lemma ListedExactlyIfConnected(clients: set<Client>, p: Peer)
    ensures p in PeersOfClients(clients) <==> exists c :: c in clients && p.id == c.id && p.device == c.device
    ensures |PeersOfClients(clients)| == |clients|
  {
    ListedAreClients(clients, p);
    assert forall c :: PeerOf(c) == p <==> p.id == c.id && p.device == c.device;
  }

  lemma {:induction false} TakeEntry(entries: Entries, i: InstanceId)
    requires i in entries
    ensures PeersOfEntries(entries) == multiset(entries[i].peers) + PeersOfEntries(entries - {i})
    decreases |entries|
  {
    var j :| j in entries && PeersOfEntries(entries) == multiset(entries[j].peers) + PeersOfEntries(entries - {j});
    if j != i {
      TakeEntry(entries - {j}, i);
      TakeEntry(entries - {i}, j);
      assert entries - {j} - {i} == entries - {i} - {j};
    }
  }

  /* ── Order by id ─────────────────────────────────────────────────────── */

  // Strings compare by their first difference; a prefix comes first.
  predicate AtMost(a: string, b: string) {
    a == "" || (b != "" && (a[0] < b[0] || (a[0] == b[0] && AtMost(a[1..], b[1..]))))
  }

  predicate Sorted(peers: seq<Peer>) {
    forall i, j :: 0 <= i < j < |peers| ==> AtMost(peers[i].id, peers[j].id)
  }

  lemma {:induction false} AtMostIsTotal(a: string, b: string)
    ensures AtMost(a, b) || AtMost(b, a)
  {
    if a != "" && b != "" { AtMostIsTotal(a[1..], b[1..]); }
  }

  lemma {:induction false} AtMostIsTransitive(a: string, b: string, c: string)
    requires AtMost(a, b) && AtMost(b, c)
    ensures AtMost(a, c)
  {
    if a != "" {
      if a[0] == b[0] && b[0] == c[0] { AtMostIsTransitive(a[1..], b[1..], c[1..]); }
    }
  }

  // What two strings have in common does not count; the first difference decides.
  lemma {:induction false} FirstDifferenceDecides(p: string, c: char, d: char, a: string, b: string)
    requires c < d
    ensures AtMost(p, p + a)
    ensures AtMost(p + [c] + a, p + [d] + b) && !AtMost(p + [d] + b, p + [c] + a)
  {
    if p == "" {
      assert ("" + [c] + a)[0] == c && ("" + [d] + b)[0] == d;
    } else {
      assert (p + a)[1..] == p[1..] + a;
      assert (p + [c] + a)[1..] == p[1..] + [c] + a && (p + [d] + b)[1..] == p[1..] + [d] + b;
      FirstDifferenceDecides(p[1..], c, d, a, b);
    }
  }

  // All of the tail comes after p if its first does.
  lemma TailComesAfter(sorted: seq<Peer>, k: nat, p: Peer)
    requires Sorted(sorted) && k <= |sorted|
    requires k < |sorted| ==> !AtMost(sorted[k].id, p.id)
    ensures forall j :: k <= j < |sorted| ==> AtMost(p.id, sorted[j].id)
  {
    forall j | k <= j < |sorted| ensures AtMost(p.id, sorted[j].id) {
      AtMostIsTotal(p.id, sorted[k].id);
      if j != k { AtMostIsTransitive(p.id, sorted[k].id, sorted[j].id); }
    }
  }

  lemma InsertedAt(sorted: seq<Peer>, k: nat, p: Peer)
    requires Sorted(sorted) && k <= |sorted|
    requires forall i :: 0 <= i < k ==> AtMost(sorted[i].id, p.id)
    requires forall j :: k <= j < |sorted| ==> AtMost(p.id, sorted[j].id)
    ensures Sorted(sorted[..k] + [p] + sorted[k..])
  {
  }

  lemma InsertedCounts(sorted: seq<Peer>, k: nat, p: Peer)
    requires k <= |sorted|
    ensures multiset(sorted[..k] + [p] + sorted[k..]) == multiset(sorted) + multiset{p}
  {
    assert sorted == sorted[..k] + sorted[k..];
  }

  // One more peer, put before the first that it does not come after.
  method Insert(sorted: seq<Peer>, p: Peer) returns (r: seq<Peer>)
    requires Sorted(sorted)
    ensures Sorted(r) && multiset(r) == multiset(sorted) + multiset{p}
  {
    var k := 0;
    while k < |sorted| && AtMost(sorted[k].id, p.id)
      invariant 0 <= k <= |sorted|
      invariant forall i :: 0 <= i < k ==> AtMost(sorted[i].id, p.id)
    {
      k := k + 1;
    }
    TailComesAfter(sorted, k, p);
    InsertedAt(sorted, k, p);
    InsertedCounts(sorted, k, p);
    r := sorted[..k] + [p] + sorted[k..];
  }

  // sort.Slice: peers with equal ids may come out in either order.
  method SortById(peers: seq<Peer>) returns (r: seq<Peer>)
    ensures Sorted(r) && multiset(r) == multiset(peers)
  {
    r := [];
    for k := 0 to |peers|
      invariant Sorted(r) && multiset(r) == multiset(peers[..k])
    {
      assert peers[..k + 1] == peers[..k] + [peers[k]];
      r := Insert(r, peers[k]);
    }
    assert peers[..|peers|] == peers;
  }

  /* ── The hub ─────────────────────────────────────────────────────────── */

  class Hub {
    var rooms: Rooms
    var remote: Remote

    ghost predicate Valid()
      reads this
    {
      RoomsValid(rooms) && RemoteValid(remote)
    }

    constructor ()
      ensures Valid() && rooms == map[] && remote == map[]
    {
      rooms, remote := map[], map[];
    }

    method Add(c: Client)
      requires Valid()
      modifies this`rooms
      ensures Valid()
      ensures rooms == WithClient(old(rooms), c)
    {
      if c.room !in rooms {
        rooms := rooms[c.room := {}];
      }
      rooms := rooms[c.room := rooms[c.room] + {c}];
    }

    // A client that was removed before, or never added, changes nothing.
    method Remove(c: Client)
      requires Valid()
      modifies this`rooms
      ensures Valid()
      ensures rooms == WithoutClient(old(rooms), c)
    {
      if c.room !in rooms {
        return;
      }
      var left := rooms[c.room] - {c};
      if left == {} {
        rooms := rooms - {c.room};
      } else {
        rooms := rooms[c.room := left];
      }
    }

    method LocalPeers(room: RoomCode) returns (peers: seq<Peer>)
      ensures multiset(peers) == PeersOfClients(ClientsIn(rooms, room))
    {
      peers := [];
      var todo := ClientsIn(rooms, room);
      while todo != {}
        invariant multiset(peers) + PeersOfClients(todo) == PeersOfClients(ClientsIn(rooms, room))
        decreases |todo|
      {
        var c :| c in todo;
        TakeClient(todo, c);
        peers := peers + [PeerOf(c)];
        todo := todo - {c};
      }
    }

    method Peers(room: RoomCode, now: int) returns (peers: seq<Peer>)
      ensures Sorted(peers)
      ensures multiset(peers) == Listed(rooms, remote, room, now)
    {
      peers := LocalPeers(room);
      var others := FreshPeers(EntriesIn(remote, room), now);
      peers := SortById(peers + others);
    }

    method SetRemotePeers(room: RoomCode, instance: InstanceId, peers: seq<Peer>, now: int)
      requires Valid()
      modifies this`remote
      ensures Valid()
      ensures remote == SetRemote(old(remote), room, instance, peers, now)
    {
      SettingKeepsValid(remote, room, instance, peers, now);
      var entries := EntriesIn(remote, room);
      if |peers| == 0 {
        var left := entries - {instance};
        if left == map[] {
          remote := remote - {room};
        } else {
          remote := remote[room := left];
        }
        return;
      }
      var updated := entries[instance := RemoteEntry(peers, now)];
      assert instance in updated;
      remote := remote[room := updated];
    }

    method RoomsWithLocalClients() returns (codes: seq<RoomCode>)
      requires Valid()
      ensures forall i, j :: 0 <= i < j < |codes| ==> codes[i] != codes[j]
      ensures forall r :: r in codes <==> ClientsIn(rooms, r) != {}
    {
      codes := KeysInSomeOrder(rooms.Keys);
    }

    // One room of a sweep; todo is what the sweep of was had still to do.
    method SweepRoom(room: RoomCode, now: int, ghost was: Remote, ghost todo: set<RoomCode>) returns (dropped: bool)
      requires room in todo && todo <= was.Keys && remote == Swept(was, todo, now)
      modifies this`remote
      ensures remote == Swept(was, todo - {room}, now)
      ensures dropped <==> LostAnEntry(was, room, now)
    {
      var kept: Entries;
      kept, dropped := DropFrom(remote[room], now);
      SweepOne(was, todo, room, now);
      remote := if kept == map[] then remote - {room} else remote[room := kept];
    }

    // Forgets what is stale, room by room, and returns the rooms that lost an entry.
    method DropStaleRemotes(now: int) returns (changed: seq<RoomCode>)
      requires Valid()
      modifies this`remote
      ensures Valid()
      ensures remote == DropStale(old(remote), now)
      ensures forall i, j :: 0 <= i < j < |changed| ==> changed[i] != changed[j]
      ensures forall r :: r in changed <==> LostAnEntry(old(remote), r, now)
    {
      changed := [];
      var todo := remote.Keys;
      SweptEnds(remote, now);
      while todo != {}
        invariant todo <= old(remote).Keys
        invariant remote == Swept(old(remote), todo, now)
        invariant forall i, j :: 0 <= i < j < |changed| ==> changed[i] != changed[j]
        invariant forall r :: r in changed <==> r !in todo && LostAnEntry(old(remote), r, now)
        decreases |todo|
      {
        var room :| room in todo;
        var dropped := SweepRoom(room, now, old(remote), todo);
        if dropped {
          changed := changed + [room];
        }
        todo := todo - {room};
      }
      assert todo == {};
    }
  }

  method FreshPeers(entries: Entries, now: int) returns (peers: seq<Peer>)
    ensures multiset(peers) == PeersOfEntries(FreshOf(entries, now))
  {
    peers := [];
    var todo := entries.Keys;
    YetToAddAtFirst(entries, now);
    while todo != {}
      invariant todo <= entries.Keys
      invariant multiset(peers) + YetToAdd(entries, todo, now) == PeersOfEntries(FreshOf(entries, now))
      decreases |todo|
    {
      var i :| i in todo;
      AddOne(entries, todo, i, now);
      if entries[i].seen >= now - REMOTE_TTL {
        peers := peers + entries[i].peers;
      }
      todo := todo - {i};
    }
    YetToAddAtLast(entries, now);
  }

  method DropFrom(entries: Entries, now: int) returns (kept: Entries, dropped: bool)
    ensures kept == FreshOf(entries, now)
    ensures dropped <==> HasStale(entries, now)
  {
    kept, dropped := entries, false;
    var todo := entries.Keys;
    while todo != {}
      invariant todo <= kept.Keys
      invariant kept.Keys <= entries.Keys
      invariant forall i :: i in kept ==> kept[i] == entries[i]
      invariant forall i :: i in entries && i !in todo ==> (i in kept <==> IsFresh(entries[i], now))
      invariant dropped <==> exists i :: i in entries && i !in todo && !IsFresh(entries[i], now)
      decreases |todo|
    {
      var i :| i in todo;
      if entries[i].seen < now - REMOTE_TTL {
        kept := kept - {i};
        dropped := true;
      }
      todo := todo - {i};
    }
  }

  method KeysInSomeOrder(keys: set<RoomCode>) returns (codes: seq<RoomCode>)
    ensures forall i, j :: 0 <= i < j < |codes| ==> codes[i] != codes[j]
    ensures forall r :: r in codes <==> r in keys
  {
    codes := [];
    var todo := keys;
    while todo != {}
      invariant todo <= keys
      invariant forall i, j :: 0 <= i < j < |codes| ==> codes[i] != codes[j]
      invariant forall r :: r in codes <==> r in keys && r !in todo
      decreases |todo|
    {
      var r :| r in todo;
      codes := codes + [r];
      todo := todo - {r};
    }
  }

  function Restrict(entries: Entries, keys: set<InstanceId>): Entries {
    map i | i in entries && i in keys :: entries[i]
  }

  // Part way through a listing: the peers of the entries still to do.
  ghost function YetToAdd(entries: Entries, todo: set<InstanceId>, now: int): multiset<Peer> {
    PeersOfEntries(FreshOf(Restrict(entries, todo), now))
  }

  lemma YetToAddAtFirst(entries: Entries, now: int)
    ensures YetToAdd(entries, entries.Keys, now) == PeersOfEntries(FreshOf(entries, now))
  {
    assert Restrict(entries, entries.Keys) == entries;
  }

  lemma YetToAddAtLast(entries: Entries, now: int)
    ensures YetToAdd(entries, {}, now) == multiset{}
  {
  }

  lemma AddOne(entries: Entries, todo: set<InstanceId>, i: InstanceId, now: int)
    requires i in todo && todo <= entries.Keys
    ensures YetToAdd(entries, todo, now) ==
      ShareOf(Some(entries[i]), now) + YetToAdd(entries, todo - {i}, now)
  {
    var all, fewer := FreshOf(Restrict(entries, todo), now), FreshOf(Restrict(entries, todo - {i}), now);
    if IsFresh(entries[i], now) {
      TakeEntry(all, i);
      assert all - {i} == fewer;
    } else {
      assert all == fewer;
    }
  }

  // Part way through a sweep: the rooms still to do are as they were.
  function Swept(remote: Remote, todo: set<RoomCode>, now: int): Remote {
    map r | r in remote && (r in todo || FreshOf(remote[r], now) != map[]) ::
      if r in todo then remote[r] else FreshOf(remote[r], now)
  }

  lemma SweepOne(remote: Remote, todo: set<RoomCode>, room: RoomCode, now: int)
    requires room in todo && todo <= remote.Keys
    ensures Swept(remote, todo - {room}, now)
      == PutEntries(Swept(remote, todo, now), room, FreshOf(remote[room], now))
  {
  }

  lemma SweptEnds(remote: Remote, now: int)
    ensures Swept(remote, remote.Keys, now) == remote
    ensures Swept(remote, {}, now) == DropStale(remote, now)
    ensures RemoteValid(remote) ==> RemoteValid(DropStale(remote, now))
  {
  }

  lemma SettingKeepsValid(remote: Remote, room: RoomCode, instance: InstanceId, peers: seq<Peer>, now: int)
    requires RemoteValid(remote)
    ensures RemoteValid(SetRemote(remote, room, instance, peers, now))
  {
    assert peers != [] ==> EntriesIn(remote, room)[instance := RemoteEntry(peers, now)] != map[] by {
      assert instance in EntriesIn(remote, room)[instance := RemoteEntry(peers, now)];
    }
  }

  /* ── What the operations mean to the lists ───────────────────────────── */

  // Leaving undoes joining, and neither touches anyone else.
  lemma LeavingUndoesJoining(rooms: Rooms, c: Client)
    requires RoomsValid(rooms) && c !in ClientsIn(rooms, c.room)
    ensures WithoutClient(WithClient(rooms, c), c) == rooms
    ensures RoomsValid(WithClient(rooms, c)) && RoomsValid(WithoutClient(rooms, c))
    ensures forall r :: ClientsIn(WithClient(rooms, c), r) == ClientsIn(rooms, r) + (if r == c.room then {c} else {})
  {
    assert ClientsIn(rooms, c.room) + {c} - {c} == ClientsIn(rooms, c.room);
  }

  // Dropping can only be noticed in memory: now and at any later time, every room lists
  // the same peers as if nothing had been dropped.
  lemma DroppingIsInvisible(rooms: Rooms, remote: Remote, room: RoomCode, now: int, later: int)
    requires now <= later
    ensures Listed(rooms, DropStale(remote, now), room, later) == Listed(rooms, remote, room, later)
  {
    assert FreshOf(EntriesIn(DropStale(remote, now), room), later) == FreshOf(EntriesIn(remote, room), later);
  }

  // Dropping keeps exactly the fresh entries, one by one.
  lemma DroppingKeepsTheFresh(remote: Remote, now: int, room: RoomCode, instance: InstanceId)
    ensures EntryOf(DropStale(remote, now), room, instance) ==
      match EntryOf(remote, room, instance)
      case Some(e) => if IsFresh(e, now) then Some(e) else None
      case None => None
  {
    if room in remote && instance in remote[room] && IsFresh(remote[room][instance], now) {
      assert instance in FreshOf(remote[room], now);
    }
  }

  // An announcement replaces the announcer's entry in that room, and no other entry.
  lemma SettingIsLocal(remote: Remote, room: RoomCode, instance: InstanceId, peers: seq<Peer>, now: int,
                       r: RoomCode, i: InstanceId)
    ensures EntryOf(SetRemote(remote, room, instance, peers, now), r, i) ==
      if r == room && i == instance
      then if peers == [] then None else Some(RemoteEntry(peers, now))
      else EntryOf(remote, r, i)
  {
    var entries := EntriesIn(remote, room);
    var updated := if peers == [] then entries - {instance} else entries[instance := RemoteEntry(peers, now)];
    assert EntriesIn(PutEntries(remote, room, updated), room) == updated;
  }

  // The share of an instance in a room's list.
  function ShareOf(entry: Option<RemoteEntry>, now: int): multiset<Peer> {
    if entry.Some? && IsFresh(entry.value, now) then multiset(entry.value.peers) else multiset{}
  }

  lemma ShareIsListed(entries: Entries, i: InstanceId, now: int)
    ensures PeersOfEntries(FreshOf(entries, now)) ==
      ShareOf(if i in entries then Some(entries[i]) else None, now) + PeersOfEntries(FreshOf(entries - {i}, now))
  {
    var all, others := FreshOf(entries, now), FreshOf(entries - {i}, now);
    if i in all {
      TakeEntry(all, i);
      assert all - {i} == others;
    } else {
      assert all == others;
    }
  }

  // An announcement changes the list of its room by swapping that instance's share.
  lemma AnnouncementSwapsOneShare(rooms: Rooms, remote: Remote, room: RoomCode, instance: InstanceId,
                                  peers: seq<Peer>, now: int)
    ensures Listed(rooms, SetRemote(remote, room, instance, peers, now), room, now)
      + ShareOf(EntryOf(remote, room, instance), now) == Listed(rooms, remote, room, now) + multiset(peers)
  {
    var after := SetRemote(remote, room, instance, peers, now);
    ShareIsListed(EntriesIn(remote, room), instance, now);
    ShareIsListed(EntriesIn(after, room), instance, now);
    SettingIsLocal(remote, room, instance, peers, now, room, instance);
    OthersStay(remote, room, instance, peers, now);
  }

  lemma OthersStay(remote: Remote, room: RoomCode, instance: InstanceId, peers: seq<Peer>, now: int)
    ensures EntriesIn(SetRemote(remote, room, instance, peers, now), room) - {instance}
      == EntriesIn(remote, room) - {instance}
  {
  }

  // And no other room's list.
  lemma AnnouncementIsLocal(rooms: Rooms, remote: Remote, room: RoomCode, instance: InstanceId,
                            peers: seq<Peer>, now: int, r: RoomCode)
    requires r != room
    ensures Listed(rooms, SetRemote(remote, room, instance, peers, now), r, now) == Listed(rooms, remote, r, now)
  {
    assert EntriesIn(SetRemote(remote, room, instance, peers, now), r) == EntriesIn(remote, r);
  }
}
