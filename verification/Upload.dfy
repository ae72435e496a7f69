/** The request handlers that change both stores: uploads with their rollback,
    deletions, clears and the janitor's sweep, run one request at a time. */
module Upload {
  import opened Bytes
  import opened Wrappers

  type Id = nat          // a fresh uuid per stored file
  type RoomCode = string

  datatype Item = Item(id: Id, room: RoomCode, size: nat, device: string, hasBlob: bool, expires: int)

  // What goes wrong while a file part is stored, if anything does. A write or an insert in
  // doubt is applied and yet reported as failed.
  datatype Trouble = Fine | WriteError | WriteInDoubt | InsertError | InsertInDoubt

  datatype Part =
    | DeviceField(value: string)
    | OtherField
    | File(payload: bytes, trouble: Trouble)

  datatype Ending = EndOfForm | Malformed

  datatype Status = Created(items: seq<Item>) | BadRequest | PayloadTooLarge | InternalError

  // The clean-up calls that fail: row deletions (a cancelled request context does
  // this to all of them), row deletions that are applied but whose reply is lost, and
  // payload removals.
  datatype Stuck = Stuck(rows: set<Id>, lost: set<Id>, blobs: set<Id>)

  // How a statement over many rows goes.
  datatype Reply = Applied | Refused | ReplyLost

  datatype Config = Config(maxBytes: nat, retention: int, sanitize: string -> string, onPostgres: bool)

  datatype Stores = Stores(items: map<Id, Item>, blobs: map<Id, bytes>)

  /* ── What a form asks for ────────────────────────────────────────────── */

  predicate Storable(cfg: Config, part: Part) {
    part.File? ==> part.trouble.Fine? && |part.payload| <= cfg.maxBytes
  }

  // The part at fault is the first that cannot be stored; a file that is too large is told
  // apart, unless writing it failed first.
  predicate BlamedRightly(cfg: Config, parts: seq<Part>, status: Status) {
    && ((forall j :: 0 <= j < |parts| ==> Storable(cfg, parts[j])) ==> status == BadRequest)
    && forall k :: 0 <= k < |parts| && !Storable(cfg, parts[k]) && (forall j :: 0 <= j < k ==> Storable(cfg, parts[j])) ==>
         status == if |parts[k].payload| > cfg.maxBytes && !parts[k].trouble.WriteError? then PayloadTooLarge
                   else InternalError
  }

  function Files(parts: seq<Part>): nat {
    if parts == [] then 0 else Files(parts[..|parts| - 1]) + (if parts[|parts| - 1].File? then 1 else 0)
  }

  // A device field counts for the files after it.
  function Device(cfg: Config, parts: seq<Part>, device: string): string {
    if parts == [] then device
    else
      var last := parts[|parts| - 1];
      if last.DeviceField? && last.value != "" then cfg.sanitize(last.value)
      else Device(cfg, parts[..|parts| - 1], device)
  }

  datatype Request = Request(room: RoomCode, device: string, ids: seq<Id>, now: int)

  function ItemFor(cfg: Config, req: Request, before: seq<Part>, file: Part): Item
    requires file.File? && Files(before) < |req.ids|
  {
    Item(req.ids[Files(before)], req.room, |file.payload|, Device(cfg, before, req.device), true,
         req.now + cfg.retention)
  }

  // The items that storing every file part in turn creates.
  function ItemsOf(cfg: Config, req: Request, parts: seq<Part>): (items: seq<Item>)
    requires Files(parts) <= |req.ids|
    ensures |items| == Files(parts)
    ensures forall j :: 0 <= j < |items| ==>
      items[j].id == req.ids[j] && items[j].room == req.room && items[j].hasBlob
  {
    if parts == [] then []
    else
      var before := parts[..|parts| - 1];
      var last := parts[|parts| - 1];
      ItemsOf(cfg, req, before) + (if last.File? then [ItemFor(cfg, req, before, last)] else [])
  }

  // Both stores once all file parts are stored.
  function Filled(cfg: Config, req: Request, s: Stores, parts: seq<Part>): Stores
    requires Files(parts) <= |req.ids|
  {
    if parts == [] then s
    else
      var before := parts[..|parts| - 1];
      var last := parts[|parts| - 1];
      var f := Filled(cfg, req, s, before);
      if last.File? then
        var item := ItemFor(cfg, req, before, last);
        Stores(f.items[item.id := item], f.blobs[item.id := last.payload])
      else f
  }

  function IdsOf(items: seq<Item>): set<Id> {
    set j | 0 <= j < |items| :: items[j].id
  }

  predicate Fresh(req: Request, s: Stores) {
    && (forall j :: 0 <= j < |req.ids| ==> req.ids[j] !in s.items && req.ids[j] !in s.blobs)
    && (forall j, k :: 0 <= j < k < |req.ids| ==> req.ids[j] != req.ids[k])
  }

  lemma {:induction false} FilesGrow(parts: seq<Part>, n: nat)
    requires n <= |parts|
    ensures Files(parts[..n]) <= Files(parts)
    decreases |parts|
  {
    if n < |parts| {
      assert parts[..|parts| - 1][..n] == parts[..n];
      FilesGrow(parts[..|parts| - 1], n);
    } else {
      assert parts[..n] == parts;
    }
  }

  // One more part read.
  lemma OneMorePart(cfg: Config, req: Request, s: Stores, parts: seq<Part>, k: nat)
    requires k < |parts| && Files(parts) <= |req.ids|
    ensures Files(parts[..k]) <= Files(parts[..k + 1]) <= |req.ids|
    ensures Files(parts[..k + 1]) == Files(parts[..k]) + (if parts[k].File? then 1 else 0)
    ensures Device(cfg, parts[..k + 1], req.device) ==
      if parts[k].DeviceField? && parts[k].value != "" then cfg.sanitize(parts[k].value)
      else Device(cfg, parts[..k], req.device)
    ensures ItemsOf(cfg, req, parts[..k + 1]) == ItemsOf(cfg, req, parts[..k]) +
      (if parts[k].File? then [ItemFor(cfg, req, parts[..k], parts[k])] else [])
    ensures var f := Filled(cfg, req, s, parts[..k]);
      Filled(cfg, req, s, parts[..k + 1]) ==
      if parts[k].File? then
        var item := ItemFor(cfg, req, parts[..k], parts[k]);
        Stores(f.items[item.id := item], f.blobs[item.id := parts[k].payload])
      else f
  {
    assert parts[..k + 1][..k] == parts[..k];
    FilesGrow(parts, k + 1);
  }

  /* ── The same, part by part ──────────────────────────────────────────── */

  function FilesBefore(parts: seq<Part>, k: nat): set<nat>
    requires k <= |parts|
  {
    set i: nat | i < k && parts[i].File?
  }

  // A device field that is not empty.
  predicate NamesDevice(part: Part) { part.DeviceField? && part.value != "" }

  // The last device named before part k, or else the one of the request.
  predicate DeviceAt(cfg: Config, req: Request, parts: seq<Part>, k: nat, device: string)
    requires k <= |parts|
  {
    && ((forall d :: 0 <= d < k ==> !NamesDevice(parts[d])) ==> device == req.device)
    && (forall d :: 0 <= d < k && NamesDevice(parts[d]) && (forall e :: d < e < k ==> !NamesDevice(parts[e])) ==>
          device == cfg.sanitize(parts[d].value))
  }

  // There is one item for each file part, in order, and each has that part's size, the room
  // and time of the request, and the device named last.
  predicate Describes(cfg: Config, req: Request, parts: seq<Part>, items: seq<Item>)
    requires |items| <= |req.ids|
  {
    && |items| == |FilesBefore(parts, |parts|)|
    && forall k :: 0 <= k < |parts| && parts[k].File? ==>
         var j := |FilesBefore(parts, k)|;
         && j < |items| && items[j].id == req.ids[j] && items[j].room == req.room && items[j].hasBlob
         && items[j].size == |parts[k].payload| && items[j].expires == req.now + cfg.retention
         && DeviceAt(cfg, req, parts, k, items[j].device)
  }

  lemma {:induction false} FilesAreCounted(parts: seq<Part>, k: nat)
    requires k <= |parts|
    ensures Files(parts[..k]) == |FilesBefore(parts, k)|
  {
    if k > 0 {
      FilesAreCounted(parts, k - 1);
      assert parts[..k][..k - 1] == parts[..k - 1];
      assert FilesBefore(parts, k) == FilesBefore(parts, k - 1) + (if parts[k - 1].File? then {k - 1} else {});
    }
  }

  lemma OneMoreDevice(cfg: Config, parts: seq<Part>, k: nat, device: string)
    requires k < |parts|
    ensures Device(cfg, parts[..k + 1], device) ==
      if NamesDevice(parts[k]) then cfg.sanitize(parts[k].value) else Device(cfg, parts[..k], device)
  {
    assert parts[..k + 1][..k] == parts[..k];
  }

  lemma DeviceGoesOn(cfg: Config, req: Request, parts: seq<Part>, k: nat, device: string)
    requires k < |parts| && DeviceAt(cfg, req, parts, k, device)
    ensures DeviceAt(cfg, req, parts, k + 1, if NamesDevice(parts[k]) then cfg.sanitize(parts[k].value) else device)
  {
  }

  lemma {:induction false} DeviceIsLastNamed(cfg: Config, req: Request, parts: seq<Part>, k: nat)
    requires k <= |parts|
    ensures DeviceAt(cfg, req, parts, k, Device(cfg, parts[..k], req.device))
  {
    if k > 0 {
      var j := k - 1;
      DeviceIsLastNamed(cfg, req, parts, j);
      OneMoreDevice(cfg, parts, j, req.device);
      DeviceGoesOn(cfg, req, parts, j, Device(cfg, parts[..j], req.device));
    }
  }

  lemma {:induction false} ItemOfPart(cfg: Config, req: Request, parts: seq<Part>, k: nat)
    requires Files(parts) <= |req.ids| && k < |parts| && parts[k].File?
    ensures var j := Files(parts[..k]);
      j < Files(parts) && ItemsOf(cfg, req, parts)[j] == ItemFor(cfg, req, parts[..k], parts[k])
    decreases |parts|
  {
    var before := parts[..|parts| - 1];
    if k < |before| {
      assert before[..k] == parts[..k];
      ItemOfPart(cfg, req, before, k);
    }
  }

  lemma ItemsDescribeTheFiles(cfg: Config, req: Request, parts: seq<Part>)
    requires Files(parts) <= |req.ids|
    ensures Describes(cfg, req, parts, ItemsOf(cfg, req, parts))
  {
    assert parts[..|parts|] == parts;
    FilesAreCounted(parts, |parts|);
    forall k | 0 <= k < |parts| && parts[k].File?
      ensures var items, j := ItemsOf(cfg, req, parts), |FilesBefore(parts, k)|;
        && j < |items| && items[j].id == req.ids[j] && items[j].room == req.room && items[j].hasBlob
        && items[j].size == |parts[k].payload| && items[j].expires == req.now + cfg.retention
        && DeviceAt(cfg, req, parts, k, items[j].device)
    {
      FilesAreCounted(parts, k);
      ItemOfPart(cfg, req, parts, k);
      DeviceIsLastNamed(cfg, req, parts, k);
    }
  }

  // And the payload stored for each file is that of its part.
  lemma {:induction false} PayloadOfPart(cfg: Config, req: Request, s: Stores, parts: seq<Part>, k: nat)
    requires Files(parts) <= |req.ids| && Fresh(req, s) && k < |parts| && parts[k].File?
    ensures var j := Files(parts[..k]); var blobs := Filled(cfg, req, s, parts).blobs;
      j < Files(parts) && req.ids[j] in blobs && blobs[req.ids[j]] == parts[k].payload
    decreases |parts|
  {
    var before := parts[..|parts| - 1];
    if k < |before| {
      assert before[..k] == parts[..k];
      PayloadOfPart(cfg, req, s, before, k);
    }
  }

  lemma PayloadsAreTheFiles(cfg: Config, req: Request, s: Stores, parts: seq<Part>, k: nat)
    requires Files(parts) <= |req.ids| && Fresh(req, s) && k < |parts| && parts[k].File?
    ensures var items, blobs, j := ItemsOf(cfg, req, parts), Filled(cfg, req, s, parts).blobs, |FilesBefore(parts, k)|;
      j < |items| && items[j].id in blobs && blobs[items[j].id] == parts[k].payload
  {
    FilesAreCounted(parts, k);
    PayloadOfPart(cfg, req, s, parts, k);
  }

  lemma IdsAppend(items: seq<Item>, item: Item)
    ensures IdsOf(items + [item]) == IdsOf(items) + {item.id}
  {
    var all := items + [item];
    assert forall j :: 0 <= j < |items| ==> all[j] == items[j];
    assert all[|items|] == item;
  }

  function Used(req: Request, n: nat): set<Id>
    requires n <= |req.ids|
  {
    set j | 0 <= j < n :: req.ids[j]
  }

  lemma UsedGrows(req: Request, n: nat)
    requires n < |req.ids|
    ensures Used(req, n + 1) == Used(req, n) + {req.ids[n]}
  {
    assert req.ids[n] in Used(req, n + 1);
  }

  lemma FilledItems(cfg: Config, req: Request, s: Stores, parts: seq<Part>)
    requires Files(parts) <= |req.ids| && Fresh(req, s)
    ensures var f := Filled(cfg, req, s, parts).items;
      && f.Keys == s.items.Keys + Used(req, Files(parts))
      && (forall id :: id in s.items ==> f[id] == s.items[id])
  {
    if parts != [] {
      var before := parts[..|parts| - 1];
      FilledItems(cfg, req, s, before);
      if parts[|parts| - 1].File? {
        UsedGrows(req, Files(before));
      }
    }
  }

  lemma FilledBlobs(cfg: Config, req: Request, s: Stores, parts: seq<Part>)
    requires Files(parts) <= |req.ids| && Fresh(req, s)
    ensures var f := Filled(cfg, req, s, parts).blobs;
      && f.Keys == s.blobs.Keys + Used(req, Files(parts))
      && (forall id :: id in s.blobs ==> f[id] == s.blobs[id])
  {
    if parts != [] {
      var before := parts[..|parts| - 1];
      FilledBlobs(cfg, req, s, before);
      if parts[|parts| - 1].File? {
        UsedGrows(req, Files(before));
      }
    }
  }

  lemma {:induction false} FilledFinds(cfg: Config, req: Request, s: Stores, parts: seq<Part>, j: nat)
    requires Files(parts) <= |req.ids| && Fresh(req, s) && j < Files(parts)
    ensures var f := Filled(cfg, req, s, parts).items; var item := ItemsOf(cfg, req, parts)[j];
      item.id in f && f[item.id] == item
  {
    var before := parts[..|parts| - 1];
    if j < Files(before) {
      FilledFinds(cfg, req, s, before, j);
    }
  }

  lemma IdsAreUsed(cfg: Config, req: Request, parts: seq<Part>)
    requires Files(parts) <= |req.ids|
    ensures IdsOf(ItemsOf(cfg, req, parts)) == Used(req, Files(parts))
  {
    var items := ItemsOf(cfg, req, parts);
    assert forall id :: id in Used(req, Files(parts)) ==> exists j :: 0 <= j < |items| && items[j].id == id;
  }

  // Storing adds one row and one payload per file part, and touches nothing else.
  lemma FilledAddsExactly(cfg: Config, req: Request, s: Stores, parts: seq<Part>)
    requires Files(parts) <= |req.ids| && Fresh(req, s)
    ensures var f := Filled(cfg, req, s, parts); var items := ItemsOf(cfg, req, parts);
      && f.items.Keys == s.items.Keys + IdsOf(items)
      && f.blobs.Keys == s.blobs.Keys + IdsOf(items)
      && (forall id :: id in s.items ==> f.items[id] == s.items[id])
      && (forall id :: id in s.blobs ==> f.blobs[id] == s.blobs[id])
      && (forall j :: 0 <= j < |items| ==> f.items[items[j].id] == items[j])
  {
    FilledItems(cfg, req, s, parts);
    FilledBlobs(cfg, req, s, parts);
    IdsAreUsed(cfg, req, parts);
    var items := ItemsOf(cfg, req, parts);
    forall j | 0 <= j < |items| ensures Filled(cfg, req, s, parts).items[items[j].id] == items[j] {
      FilledFinds(cfg, req, s, parts, j);
    }
  }

  // Taking back what was stored restores both stores.
  lemma TakingBackRestores(cfg: Config, req: Request, s: Stores, parts: seq<Part>)
    requires Files(parts) <= |req.ids| && Fresh(req, s)
    ensures var f := Filled(cfg, req, s, parts); var ids := IdsOf(ItemsOf(cfg, req, parts));
      f.items - ids == s.items && f.blobs - ids == s.blobs
  {
    FilledAddsExactly(cfg, req, s, parts);
    var items := ItemsOf(cfg, req, parts);
    assert forall id :: id in IdsOf(items) ==> id !in s.items && id !in s.blobs;
  }

  /* ── The server ──────────────────────────────────────────────────────── */

  class Server {
    const cfg: Config
    var items: map<Id, Item>
    var blobs: map<Id, bytes>
    var broadcasts: seq<Item>

    constructor (cfg: Config)
      ensures this.cfg == cfg && items == map[] && blobs == map[] && broadcasts == []
    {
      this.cfg := cfg;
      items, blobs, broadcasts := map[], map[], [];
    }

    function Now(): Stores
      reads this`items, this`blobs
    {
      Stores(items, blobs)
    }

    // false when the row could not be deleted, was not there, or the reply was lost.
    method DeleteItem(room: RoomCode, id: Id, stuck: Stuck) returns (ok: bool)
      modifies this`items, this`blobs
      ensures var there := id in old(items) && old(items)[id].room == room && id !in stuck.rows;
        && items == (if there then old(items) - {id} else old(items))
        && (ok <==> there && id !in stuck.lost)
      ensures blobs == if ok && old(items)[id].hasBlob && id !in stuck.blobs then old(blobs) - {id} else old(blobs)
    {
      if id !in items || items[id].room != room || id in stuck.rows {
        return false;
      }
      var item := items[id];
      items := items - {id};
      if id in stuck.lost {
        return false;
      }
      if item.hasBlob && id !in stuck.blobs {
        blobs := blobs - {id};
      }
      return true;
    }

    method RemoveBlobs(paths: set<Id>, stuck: Stuck)
      modifies this`blobs
      ensures blobs == old(blobs) - (paths - stuck.blobs)
    {
      var todo := paths;
      while todo != {}
        invariant todo <= paths
        invariant blobs == old(blobs) - (paths - todo - stuck.blobs)
        decreases |todo|
      {
        var id :| id in todo;
        if id !in stuck.blobs {
          blobs := blobs - {id};
        }
        todo := todo - {id};
      }
    }

    // The rows go in one statement that returns their paths; then each payload goes.
    method ClearRoom(room: RoomCode, reply: Reply, stuck: Stuck) returns (ok: bool)
      modifies this`items, this`blobs
      ensures ok <==> reply.Applied?
      ensures items == if reply.Refused? then old(items)
        else map id | id in old(items) && old(items)[id].room != room :: old(items)[id]
      ensures blobs == if !ok then old(blobs)
        else old(blobs) - ((set id | id in old(items) && old(items)[id].room == room && old(items)[id].hasBlob)
                           - stuck.blobs)
    {
      if reply.Refused? {
        return false;
      }
      var paths := set id | id in items && items[id].room == room && items[id].hasBlob;
      items := map id | id in items && items[id].room != room :: items[id];
      if reply.ReplyLost? {
        return false;
      }
      RemoveBlobs(paths, stuck);
      return true;
    }

    // aged says which payloads are old enough to be swept once no row has them. A file of
    // the disk backend is never swept, and a failed expiry ends the round.
    method Sweep(now: int, reply: Reply, stuck: Stuck, aged: set<Id>)
      modifies this`items, this`blobs
      ensures items == if reply.Refused? then old(items)
        else map id | id in old(items) && old(items)[id].expires > now :: old(items)[id]
      ensures reply.Applied? ==>
        var expired := set id | id in old(items) && old(items)[id].expires <= now && old(items)[id].hasBlob;
        var orphans := set id | id in aged && !(id in items && items[id].hasBlob);
        blobs == old(blobs) - (expired - stuck.blobs) - (if cfg.onPostgres then orphans else {})
      ensures !reply.Applied? ==> blobs == old(blobs)
    {
      if reply.Refused? {
        return;
      }
      var paths := set id | id in items && items[id].expires <= now && items[id].hasBlob;
      items := map id | id in items && items[id].expires > now :: items[id];
      if reply.ReplyLost? {
        return;
      }
      RemoveBlobs(paths, stuck);
      if cfg.onPostgres {
        blobs := blobs - (set id | id in aged && !(id in items && items[id].hasBlob));
      }
    }

    method Rollback(room: RoomCode, created: seq<Item>, stuck: Stuck)
      requires forall j :: 0 <= j < |created| ==>
        created[j].id in items && items[created[j].id] == created[j] && created[j].room == room && created[j].hasBlob
      requires forall j, k :: 0 <= j < k < |created| ==> created[j].id != created[k].id
      modifies this`items, this`blobs
      ensures items == old(items) - (IdsOf(created) - stuck.rows)
      ensures blobs == old(blobs) - (IdsOf(created) - stuck.rows - stuck.lost - stuck.blobs)
    {
      var i := 0;
      while i < |created|
        invariant 0 <= i <= |created|
        invariant items == old(items) - (IdsOf(created[..i]) - stuck.rows)
        invariant blobs == old(blobs) - (IdsOf(created[..i]) - stuck.rows - stuck.lost - stuck.blobs)
      {
        assert created[..i + 1] == created[..i] + [created[i]];
        IdsAppend(created[..i], created[i]);
        var ok := DeleteItem(room, created[i].id, stuck);
        i := i + 1;
      }
      assert created[..i] == created;
    }

    // A refusal leaves nothing behind, unless the payload cannot be removed again, or the
    // payload was written or the row inserted after all.
    method StoreUploadedPart(room: RoomCode, device: string, part: Part, id: Id, now: int, stuck: Stuck)
      returns (item: Option<Item>, refusal: Status)
      requires part.File? && id !in blobs
      modifies this`items, this`blobs
      ensures item.Some? <==> Storable(cfg, part)
      ensures var stored := Item(id, room, |part.payload|, device, true, now + cfg.retention);
        && (item.Some? ==> item.value == stored)
        && items == (if item.Some? || InDoubt(cfg, part) then old(items)[id := stored] else old(items))
      ensures blobs == if item.Some? || Stays(cfg, part, id, stuck) then old(blobs)[id := part.payload] else old(blobs)
      ensures item.None? ==> refusal == Refusal(cfg, part)
    {
      refusal := InternalError;
      if part.trouble.WriteError? {
        return None, refusal;
      }
      if |part.payload| > cfg.maxBytes {
        return None, PayloadTooLarge;
      }
      blobs := blobs[id := part.payload];
      if part.trouble.WriteInDoubt? {
        return None, refusal;
      }
      var stored := Item(id, room, |part.payload|, device, true, now + cfg.retention);
      if !part.trouble.InsertError? {
        items := items[id := stored];
      }
      if part.trouble.Fine? {
        return Some(stored), refusal;
      }
      if id !in stuck.blobs {
        blobs := blobs - {id};
        assert blobs == old(blobs);
      }
      return None, refusal;
    }

    // The file part that is next, after all those before it were stored.
    method StoreNext(req: Request, parts: seq<Part>, taken: nat, device: string, id: Id, ghost s: Stores, stuck: Stuck)
      returns (item: Option<Item>, refusal: Status)
      requires Files(parts) <= |req.ids| && Fresh(req, s)
      requires taken < |parts| && parts[taken].File? && Files(parts[..taken]) < |req.ids|
      requires forall j :: 0 <= j < taken ==> Storable(cfg, parts[j])
      requires Now() == Filled(cfg, req, s, parts[..taken])
      requires device == Device(cfg, parts[..taken], req.device) && id == req.ids[Files(parts[..taken])]
      modifies this`items, this`blobs
      ensures item.Some? <==> Storable(cfg, parts[taken])
      ensures item.Some? ==> item.value == ItemFor(cfg, req, parts[..taken], parts[taken])
      ensures item.Some? ==>
        Files(parts[..taken + 1]) <= |req.ids| && Now() == Filled(cfg, req, s, parts[..taken + 1])
      ensures item.None? ==> Taken(cfg, parts) == taken && refusal == Refusal(cfg, parts[taken])
      ensures item.None? ==> Now() == Attempted(cfg, req, s, parts, stuck)
    {
      NextIdIsFree(cfg, req, s, parts[..taken]);
      item, refusal := StoreUploadedPart(req.room, device, parts[taken], id, req.now, stuck);
      if item.None? {
        AttemptStops(cfg, req, s, parts, taken, stuck);
      } else {
        OneMorePart(cfg, req, s, parts, taken);
      }
    }

    // Reads the form up to its end, or to the first part that is refused.
    method StoreParts(req: Request, parts: seq<Part>, stuck: Stuck)
      returns (created: seq<Item>, refusal: Option<Status>)
      requires Files(parts) <= |req.ids| && Fresh(req, Now())
      modifies this`items, this`blobs
      ensures Files(parts[..Taken(cfg, parts)]) <= |req.ids|
      ensures created == ItemsOf(cfg, req, parts[..Taken(cfg, parts)])
      ensures refusal == if Taken(cfg, parts) == |parts| then None else Some(Refusal(cfg, parts[Taken(cfg, parts)]))
      ensures Now() == Attempted(cfg, req, old(Now()), parts, stuck)
    {
      var device, taken := req.device, 0;
      created, refusal := [], None;
      while taken < |parts|
        invariant taken <= |parts| && Files(parts[..taken]) <= |req.ids|
        invariant forall j :: 0 <= j < taken ==> Storable(cfg, parts[j])
        invariant device == Device(cfg, parts[..taken], req.device)
        invariant created == ItemsOf(cfg, req, parts[..taken])
        invariant Now() == Filled(cfg, req, old(Now()), parts[..taken])
        invariant refusal.None?
      {
        OneMorePart(cfg, req, old(Now()), parts, taken);
        match parts[taken] {
          case DeviceField(value) =>
            if value != "" { device := cfg.sanitize(value); }
          case OtherField =>
          case File(_, _) =>
            var item, why := StoreNext(req, parts, taken, device, req.ids[|created|], old(Now()), stuck);
            if item.None? {
              refusal := Some(why);
              return;
            }
            created := created + [item.value];
        }
        taken := taken + 1;
      }
      assert parts[..taken] == parts;
      AttemptEnds(cfg, req, old(Now()), parts, stuck);
    }

    method Announce(created: seq<Item>)
      modifies this`broadcasts
      ensures broadcasts == old(broadcasts) + created
    {
      for k := 0 to |created|
        invariant broadcasts == old(broadcasts) + created[..k]
      {
        broadcasts := broadcasts + [created[k]];
      }
      assert created[..|created|] == created;
    }

    method HandleUpload(req: Request, parts: seq<Part>, ending: Ending, stuck: Stuck) returns (status: Status)
      requires Files(parts) <= |req.ids| && Fresh(req, Now())
      modifies this
      // it succeeds exactly when the form is whole, holds a file, and every file can be stored
      ensures status.Created? <==>
        ending.EndOfForm? && Files(parts) > 0 && forall j :: 0 <= j < |parts| ==> Storable(cfg, parts[j])
      // success stores and broadcasts one item per file part, in order, each described by its
      // part and by the device field before it
      ensures status.Created? ==>
        && status.items == ItemsOf(cfg, req, parts)
        && Describes(cfg, req, parts, status.items)
        && Now() == Filled(cfg, req, old(Now()), parts)
        && broadcasts == old(broadcasts) + status.items
      // failure is put down to the first part that cannot be stored, and else to the form
      ensures !status.Created? ==> BlamedRightly(cfg, parts, status)
      // failure broadcasts nothing, and leaves exactly what the clean-up could not undo
      ensures !status.Created? ==>
        broadcasts == old(broadcasts) && Now() == Remains(cfg, req, old(Now()), parts, stuck)
    {
      BlameIsRight(cfg, parts);
      var created, refusal := StoreParts(req, parts, stuck);
      assert parts[..|parts|] == parts;
      if refusal.Some? || ending.Malformed? {
        RollbackApplies(cfg, req, old(Now()), parts, stuck);
        Rollback(req.room, created, stuck);
        RollbackRemains(cfg, req, old(Now()), parts, stuck, Now());
        return if refusal.Some? then refusal.value else BadRequest;
      }
      if |created| == 0 {
        NoFilesNoChange(cfg, req, old(Now()), parts, stuck);
        return BadRequest;
      }
      ItemsDescribeTheFiles(cfg, req, parts);
      Announce(created);
      return Created(created);
    }
  }

  /* ── What a failed upload leaves behind ──────────────────────────────── */

  // The insert of a refused part was applied.
  predicate InDoubt(cfg: Config, part: Part) {
    part.File? && part.trouble.InsertInDoubt? && |part.payload| <= cfg.maxBytes
  }

  // The payload of a refused part was written, and is taken for not written or cannot be removed.
  predicate Stays(cfg: Config, part: Part, id: Id, stuck: Stuck) {
    && part.File? && |part.payload| <= cfg.maxBytes
    && (part.trouble.WriteInDoubt? ||
        ((part.trouble.InsertError? || part.trouble.InsertInDoubt?) && id in stuck.blobs))
  }

  // The write or the insert of a refused part was applied.
  predicate Doubtful(cfg: Config, part: Part) {
    InDoubt(cfg, part) || (part.File? && part.trouble.WriteInDoubt? && |part.payload| <= cfg.maxBytes)
  }

  function Refusal(cfg: Config, part: Part): Status
    requires part.File?
  {
    if |part.payload| > cfg.maxBytes && !part.trouble.WriteError? then PayloadTooLarge else InternalError
  }

  // The parts before the first that is refused.
  function Taken(cfg: Config, parts: seq<Part>): (n: nat)
    ensures n <= |parts| && forall j :: 0 <= j < n ==> Storable(cfg, parts[j])
    ensures n < |parts| ==> !Storable(cfg, parts[n])
  {
    if parts == [] || !Storable(cfg, parts[0]) then 0 else 1 + Taken(cfg, parts[1..])
  }

  lemma BlameIsRight(cfg: Config, parts: seq<Part>)
    ensures BlamedRightly(cfg, parts,
      if Taken(cfg, parts) < |parts| then Refusal(cfg, parts[Taken(cfg, parts)]) else BadRequest)
  {
    forall k | 0 <= k < |parts| && !Storable(cfg, parts[k]) && forall j :: 0 <= j < k ==> Storable(cfg, parts[j])
      ensures k == Taken(cfg, parts)
    {
      TakenIs(cfg, parts, k);
    }
  }

  // The refused part counts as tried.
  function Tried(cfg: Config, parts: seq<Part>): (n: nat)
    ensures n <= |parts|
  {
    if Taken(cfg, parts) < |parts| then Taken(cfg, parts) + 1 else |parts|
  }

  // What the refused part itself leaves.
  predicate RowStays(cfg: Config, parts: seq<Part>) {
    Taken(cfg, parts) < |parts| && InDoubt(cfg, parts[Taken(cfg, parts)])
  }

  predicate PayloadStays(cfg: Config, req: Request, parts: seq<Part>, stuck: Stuck)
    requires Files(parts) <= |req.ids|
  {
    TriedFiles(cfg, parts);
    Taken(cfg, parts) < |parts|
    && Stays(cfg, parts[Taken(cfg, parts)], req.ids[Files(parts[..Taken(cfg, parts)])], stuck)
  }

  lemma TriedFiles(cfg: Config, parts: seq<Part>)
    ensures Files(parts[..Tried(cfg, parts)]) <= Files(parts)
    ensures Taken(cfg, parts) < |parts| ==> Files(parts[..Tried(cfg, parts)]) == Files(parts[..Taken(cfg, parts)]) + 1
    ensures Files(parts[..Taken(cfg, parts)]) <= Files(parts)
  {
    FilesGrow(parts, Tried(cfg, parts));
    FilesGrow(parts, Taken(cfg, parts));
    if Taken(cfg, parts) < |parts| {
      assert parts[..Tried(cfg, parts)][..Taken(cfg, parts)] == parts[..Taken(cfg, parts)];
    }
  }

  // Both stores when the reading of the form has stopped.
  function Attempted(cfg: Config, req: Request, s: Stores, parts: seq<Part>, stuck: Stuck): Stores
    requires Files(parts) <= |req.ids|
  {
    TriedFiles(cfg, parts);
    var taken, tried := Filled(cfg, req, s, parts[..Taken(cfg, parts)]), Filled(cfg, req, s, parts[..Tried(cfg, parts)]);
    Stores(if RowStays(cfg, parts) then tried.items else taken.items,
           if PayloadStays(cfg, req, parts, stuck) then tried.blobs else taken.blobs)
  }

  // The rows a failed upload leaves: those it could not delete again, and the one of an
  // insert in doubt, which it does not know of.
  function RowsLeft(cfg: Config, req: Request, parts: seq<Part>, stuck: Stuck): set<Id>
    requires Files(parts) <= |req.ids|
  {
    TriedFiles(cfg, parts);
    var n := Files(parts[..Taken(cfg, parts)]);
    Used(req, n) * stuck.rows + (if RowStays(cfg, parts) then {req.ids[n]} else {})
  }

  // And the payloads: of rows that stayed, of rows whose deletion was not confirmed, those
  // that could not be removed, and one whose write is in doubt.
  function PayloadsLeft(cfg: Config, req: Request, parts: seq<Part>, stuck: Stuck): set<Id>
    requires Files(parts) <= |req.ids|
  {
    TriedFiles(cfg, parts);
    var n := Files(parts[..Taken(cfg, parts)]);
    Used(req, n) * (stuck.rows + stuck.lost + stuck.blobs)
    + (if PayloadStays(cfg, req, parts, stuck) then {req.ids[n]} else {})
  }

  function Only<V>(m: map<Id, V>, keys: set<Id>): map<Id, V> {
    map id | id in m && id in keys :: m[id]
  }

  // Both stores after a failed upload: of all it tried to store, exactly these remain.
  function Remains(cfg: Config, req: Request, s: Stores, parts: seq<Part>, stuck: Stuck): Stores
    requires Files(parts) <= |req.ids|
  {
    TriedFiles(cfg, parts);
    var tried := Filled(cfg, req, s, parts[..Tried(cfg, parts)]);
    Stores(Only(tried.items, s.items.Keys + RowsLeft(cfg, req, parts, stuck)),
           Only(tried.blobs, s.blobs.Keys + PayloadsLeft(cfg, req, parts, stuck)))
  }

  // An error exit restores both stores if and only if it leaves no row and no payload.
  lemma FailureRestoresExactly(cfg: Config, req: Request, s: Stores, parts: seq<Part>, stuck: Stuck)
    requires Files(parts) <= |req.ids| && Fresh(req, s)
    ensures Remains(cfg, req, s, parts, stuck) == s <==>
      RowsLeft(cfg, req, parts, stuck) == {} && PayloadsLeft(cfg, req, parts, stuck) == {}
  {
    TriedFiles(cfg, parts);
    var before := parts[..Tried(cfg, parts)];
    var tried := Filled(cfg, req, s, before);
    FilledItems(cfg, req, s, before);
    FilledBlobs(cfg, req, s, before);
    LeftAreUsed(cfg, req, parts, stuck);
    var rows, payloads := RowsLeft(cfg, req, parts, stuck), PayloadsLeft(cfg, req, parts, stuck);
    OnlyIsWhole(tried.items, s.items, rows);
    OnlyIsWhole(tried.blobs, s.blobs, payloads);
  }

  // With a working clean-up, and nothing in doubt, an error exit restores both stores.
  lemma CleanFailureRestores(cfg: Config, req: Request, s: Stores, parts: seq<Part>)
    requires Files(parts) <= |req.ids| && Fresh(req, s)
    requires forall j :: 0 <= j < |parts| ==> !Doubtful(cfg, parts[j])
    ensures Remains(cfg, req, s, parts, Stuck({}, {}, {})) == s
  {
    TriedFiles(cfg, parts);
    FailureRestoresExactly(cfg, req, s, parts, Stuck({}, {}, {}));
  }

  lemma OnlyIsWhole<V>(m: map<Id, V>, s: map<Id, V>, left: set<Id>)
    requires s.Keys <= m.Keys && left <= m.Keys && left !! s.Keys
    requires forall id :: id in s ==> m[id] == s[id]
    ensures Only(m, s.Keys + left) == s <==> left == {}
  {
    if left != {} {
      var id :| id in left;
      assert id in Only(m, s.Keys + left) && id !in s;
    }
  }

  // What is left was tried, and is new.
  lemma LeftAreUsed(cfg: Config, req: Request, parts: seq<Part>, stuck: Stuck)
    requires Files(parts) <= |req.ids|
    ensures Files(parts[..Tried(cfg, parts)]) <= |req.ids|
    ensures RowsLeft(cfg, req, parts, stuck) <= Used(req, Files(parts[..Tried(cfg, parts)]))
    ensures PayloadsLeft(cfg, req, parts, stuck) <= Used(req, Files(parts[..Tried(cfg, parts)]))
  {
    TriedFiles(cfg, parts);
    if Taken(cfg, parts) < |parts| {
      UsedGrows(req, Files(parts[..Taken(cfg, parts)]));
    }
  }

  // It happens: two files, the second too large, and a request cancelled before the
  // rollback leaves the first file's row and payload.
  lemma CancelledUploadLeavesItsFirstFile(cfg: Config, req: Request, s: Stores)
    requires cfg.maxBytes == 1 && Fresh(req, s) && |req.ids| == 2
    ensures var parts := [File([7], Fine), File([7, 7], Fine)];
      var stuck := Stuck({req.ids[0]}, {}, {});
      && Files(parts) == 2
      && req.ids[0] in Remains(cfg, req, s, parts, stuck).items
      && Remains(cfg, req, s, parts, stuck) != s
  {
    var parts := [File([7], Fine), File([7, 7], Fine)];
    var stuck := Stuck({req.ids[0]}, {}, {});
    assert parts[..1] == [parts[0]] && [parts[0]][..0] == [] && parts[1..] == [parts[1]];
    assert Files([parts[0]]) == 1 && Files(parts) == 2;
    TakenIs(cfg, parts, 1);
    TriedFiles(cfg, parts);
    assert req.ids[0] in Used(req, 1);
    assert req.ids[0] in RowsLeft(cfg, req, parts, stuck);
    FailureRestoresExactly(cfg, req, s, parts, stuck);
    LeftAreUsed(cfg, req, parts, stuck);
    FilledItems(cfg, req, s, parts[..Tried(cfg, parts)]);
  }

  lemma NextIdIsFree(cfg: Config, req: Request, s: Stores, before: seq<Part>)
    requires Files(before) < |req.ids| && Fresh(req, s)
    ensures var f := Filled(cfg, req, s, before);
      req.ids[Files(before)] !in f.items && req.ids[Files(before)] !in f.blobs
  {
    FilledAddsExactly(cfg, req, s, before);
  }

  lemma {:induction false} TakenIs(cfg: Config, parts: seq<Part>, n: nat)
    requires n <= |parts| && forall j :: 0 <= j < n ==> Storable(cfg, parts[j])
    requires n < |parts| ==> !Storable(cfg, parts[n])
    ensures Taken(cfg, parts) == n
  {
    if n > 0 {
      TakenIs(cfg, parts[1..], n - 1);
    }
  }

  lemma AttemptStops(cfg: Config, req: Request, s: Stores, parts: seq<Part>, n: nat, stuck: Stuck)
    requires Files(parts) <= |req.ids|
    requires n < |parts| && (forall j :: 0 <= j < n ==> Storable(cfg, parts[j])) && !Storable(cfg, parts[n])
    ensures Taken(cfg, parts) == n && Files(parts[..n]) < |req.ids|
    ensures var f := Filled(cfg, req, s, parts[..n]); var item := ItemFor(cfg, req, parts[..n], parts[n]);
      Attempted(cfg, req, s, parts, stuck) == Stores(
        if InDoubt(cfg, parts[n]) then f.items[item.id := item] else f.items,
        if Stays(cfg, parts[n], item.id, stuck) then f.blobs[item.id := parts[n].payload] else f.blobs)
  {
    TakenIs(cfg, parts, n);
    OneMorePart(cfg, req, s, parts, n);
  }

  lemma AttemptEnds(cfg: Config, req: Request, s: Stores, parts: seq<Part>, stuck: Stuck)
    requires Files(parts) <= |req.ids| && forall j :: 0 <= j < |parts| ==> Storable(cfg, parts[j])
    ensures Taken(cfg, parts) == |parts| && parts[..|parts|] == parts
    ensures Attempted(cfg, req, s, parts, stuck) == Filled(cfg, req, s, parts)
  {
    TakenIs(cfg, parts, |parts|);
    assert parts[..|parts|] == parts;
  }

  lemma {:induction false} NothingFilled(cfg: Config, req: Request, s: Stores, parts: seq<Part>)
    requires Files(parts) == 0
    ensures Filled(cfg, req, s, parts) == s
  {
    if parts != [] {
      NothingFilled(cfg, req, s, parts[..|parts| - 1]);
    }
  }

  lemma NoFilesNoChange(cfg: Config, req: Request, s: Stores, parts: seq<Part>, stuck: Stuck)
    requires Files(parts) == 0 && Taken(cfg, parts) == |parts|
    ensures Attempted(cfg, req, s, parts, stuck) == s == Remains(cfg, req, s, parts, stuck)
  {
    assert parts[..|parts|] == parts;
    NothingFilled(cfg, req, s, parts);
    assert Used(req, 0) == {};
    assert Only(s.items, s.items.Keys + {}) == s.items && Only(s.blobs, s.blobs.Keys + {}) == s.blobs;
  }

  // What was created can be rolled back.
  lemma RollbackApplies(cfg: Config, req: Request, s: Stores, parts: seq<Part>, stuck: Stuck)
    requires Files(parts) <= |req.ids| && Fresh(req, s)
    ensures Files(parts[..Taken(cfg, parts)]) <= |req.ids|
    ensures var created := ItemsOf(cfg, req, parts[..Taken(cfg, parts)]);
      var items := Attempted(cfg, req, s, parts, stuck).items;
      && (forall j :: 0 <= j < |created| ==> created[j].id in items && items[created[j].id] == created[j])
      && IdsOf(created) == Used(req, |created|)
  {
    TriedFiles(cfg, parts);
    var taken := parts[..Taken(cfg, parts)];
    FilledAddsExactly(cfg, req, s, taken);
    IdsAreUsed(cfg, req, taken);
    TriedExtends(cfg, req, s, parts);
  }

  // Trying the refused part adds its own row and payload and nothing else.
  lemma TriedExtends(cfg: Config, req: Request, s: Stores, parts: seq<Part>)
    requires Files(parts) <= |req.ids| && Fresh(req, s)
    ensures Files(parts[..Taken(cfg, parts)]) <= |req.ids| && Files(parts[..Tried(cfg, parts)]) <= |req.ids|
    ensures var n := Files(parts[..Taken(cfg, parts)]);
      var f, g := Filled(cfg, req, s, parts[..Taken(cfg, parts)]), Filled(cfg, req, s, parts[..Tried(cfg, parts)]);
      if Taken(cfg, parts) < |parts| then
        n < |req.ids| && g.items.Keys == f.items.Keys + {req.ids[n]} && g.items - {req.ids[n]} == f.items
        && g.blobs.Keys == f.blobs.Keys + {req.ids[n]} && g.blobs - {req.ids[n]} == f.blobs
      else f == g
  {
    TriedFiles(cfg, parts);
    if Taken(cfg, parts) < |parts| {
      var k := Taken(cfg, parts);
      OneMorePart(cfg, req, s, parts, k);
      NextIdIsFree(cfg, req, s, parts[..k]);
      var f := Filled(cfg, req, s, parts[..k]);
      AddOne(f.items, req.ids[Files(parts[..k])], ItemFor(cfg, req, parts[..k], parts[k]));
      AddOne(f.blobs, req.ids[Files(parts[..k])], parts[k].payload);
    }
  }

  lemma AddOne<V>(m: map<Id, V>, id: Id, v: V)
    requires id !in m
    ensures m[id := v].Keys == m.Keys + {id} && m[id := v] - {id} == m
  {
  }

  // One store: filled with used, perhaps extended by one more, and rolled back but for kept.
  lemma OneStoreRemains<V>(s: map<Id, V>, f: map<Id, V>, g: map<Id, V>, used: set<Id>, more: set<Id>,
                           kept: set<Id>, extended: bool)
    requires f.Keys == s.Keys + used && used !! s.Keys
    requires g.Keys == f.Keys + more && more !! f.Keys && g - more == f
    ensures (if extended then g else f) - (used - kept)
      == Only(g, s.Keys + (used * kept + (if extended then more else {})))
  {
    var after := (if extended then g else f) - (used - kept);
    assert forall id :: id in f ==> f[id] == (g - more)[id];
    assert forall id :: id in after ==> after[id] == g[id];
  }

  lemma RowsRemain(cfg: Config, req: Request, s: Stores, parts: seq<Part>, stuck: Stuck)
    requires Files(parts) <= |req.ids| && Fresh(req, s)
    requires Files(parts[..Taken(cfg, parts)]) <= |req.ids|
    ensures Attempted(cfg, req, s, parts, stuck).items - (Used(req, Files(parts[..Taken(cfg, parts)])) - stuck.rows)
      == Remains(cfg, req, s, parts, stuck).items
  {
    TriedExtends(cfg, req, s, parts);
    var taken := parts[..Taken(cfg, parts)];
    FilledItems(cfg, req, s, taken);
    var more := if Taken(cfg, parts) < |parts| then {req.ids[Files(taken)]} else {};
    OneStoreRemains(s.items, Filled(cfg, req, s, taken).items, Filled(cfg, req, s, parts[..Tried(cfg, parts)]).items,
                    Used(req, Files(taken)), more, stuck.rows, RowStays(cfg, parts));
  }

  lemma PayloadsRemain(cfg: Config, req: Request, s: Stores, parts: seq<Part>, stuck: Stuck)
    requires Files(parts) <= |req.ids| && Fresh(req, s)
    requires Files(parts[..Taken(cfg, parts)]) <= |req.ids|
    ensures Attempted(cfg, req, s, parts, stuck).blobs
        - (Used(req, Files(parts[..Taken(cfg, parts)])) - (stuck.rows + stuck.lost + stuck.blobs))
      == Remains(cfg, req, s, parts, stuck).blobs
  {
    TriedExtends(cfg, req, s, parts);
    var taken := parts[..Taken(cfg, parts)];
    FilledBlobs(cfg, req, s, taken);
    var more := if Taken(cfg, parts) < |parts| then {req.ids[Files(taken)]} else {};
    OneStoreRemains(s.blobs, Filled(cfg, req, s, taken).blobs, Filled(cfg, req, s, parts[..Tried(cfg, parts)]).blobs,
                    Used(req, Files(taken)), more, stuck.rows + stuck.lost + stuck.blobs,
                    PayloadStays(cfg, req, parts, stuck));
  }

  lemma RollbackRemains(cfg: Config, req: Request, s: Stores, parts: seq<Part>, stuck: Stuck, after: Stores)
    requires Files(parts) <= |req.ids| && Fresh(req, s)
    requires Files(parts[..Taken(cfg, parts)]) <= |req.ids|
    requires var g := Attempted(cfg, req, s, parts, stuck);
      var ids := Used(req, Files(parts[..Taken(cfg, parts)]));
      && after.items == g.items - (ids - stuck.rows)
      && after.blobs == g.blobs - (ids - stuck.rows - stuck.lost - stuck.blobs)
    ensures after == Remains(cfg, req, s, parts, stuck)
  {
    RowsRemain(cfg, req, s, parts, stuck);
    PayloadsRemain(cfg, req, s, parts, stuck);
    var ids := Used(req, Files(parts[..Taken(cfg, parts)]));
    assert ids - stuck.rows - stuck.lost - stuck.blobs == ids - (stuck.rows + stuck.lost + stuck.blobs);
  }
}
