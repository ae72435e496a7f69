/** Items and their payloads live in two stores with no common transaction.

    An upload writes the payload first and the row that names it last; every
    deletion takes the row first and the payload afterwards. Requests interleave
    step by step, may fail, and may crash anywhere; payloads whose row is gone are
    swept once they are an hour old. */
module Lifecycle {
  import opened Bytes
  import opened Wrappers

  type Id = nat          // an item and its payload share one uuid
  type RoomCode = string
  type Task = nat
  type Time = int

  const ORPHAN_AGE: Time := 3600

  datatype Row = Row(room: RoomCode, hasBlob: bool, expires: Time)
  datatype Blob = Blob(payload: bytes, createdAt: Time)

  // A payload still being written, or written and waiting for its row.
  datatype Upload = Writing(started: Time) | Stored(started: Time)

  // Rows a two-statement deletion is about to delete.
  datatype Scope = InRoom(room: RoomCode) | ExpiredBy(time: Time)
  datatype Selection = Selection(scope: Scope, paths: set<Id>)

  datatype State = State(
    now: Time,
    used: set<Id>,
    rows: map<Id, Row>,
    blobs: map<Id, Blob>,
    sent: map<Id, bytes>,                // what each upload was given to store
    uploads: map<Id, Upload>,
    removing: set<Id>,                   // payload to be removed, the row taken to be gone
    selections: map<Task, Selection>)

  datatype Step =
    | Tick(seconds: nat)
    | CreateText(id: Id, room: RoomCode, expires: Time)
    | Begin(id: Id, payload: bytes)
    | Commit(id: Id)
    | WriteFails(id: Id)
    | Insert(id: Id, room: RoomCode, expires: Time)
    | InsertFails(id: Id)
    | InsertInDoubt(id: Id, room: RoomCode, expires: Time)  // applied, but reported as failed
    | Delete(id: Id, room: RoomCode)
    | DeleteAll(scope: Scope)            // one statement: delete and return the paths
    | Select(task: Task, scope: Scope)   // two statements: read the paths,
    | DeleteSelected(task: Task)         // then delete the rows
    | DeleteLost(id: Id, room: RoomCode) // applied, but the reply with the paths is lost
    | DeleteAllLost(scope: Scope)
    | DeleteSelectedLost(task: Task)
    | RemoveBlob(id: Id)
    | GiveUpRemoving(id: Id)             // the removal failed, or its process crashed
    | CrashUpload(id: Id, left: Option<bytes>)
    | CrashSelection(task: Task)
    | Sweep

  predicate Covers(scope: Scope, row: Row) {
    match scope
    case InRoom(room) => row.room == room
    case ExpiredBy(time) => row.expires <= time
  }

  function RowsIn(s: State, scope: Scope): set<Id> {
    set id | id in s.rows && Covers(scope, s.rows[id])
  }

  function PathsIn(s: State, scope: Scope): set<Id> {
    set id | id in s.rows && Covers(scope, s.rows[id]) && s.rows[id].hasBlob
  }

  function Orphans(s: State): set<Id> {
    set id | id in s.blobs && s.blobs[id].createdAt < s.now - ORPHAN_AGE && !(id in s.rows && s.rows[id].hasBlob)
  }

  predicate Enabled(s: State, step: Step) {
    match step
    case Tick(_) => true
    case CreateText(id, _, _) => id !in s.used
    case Begin(id, _) => id !in s.used
    case Commit(id) => id in s.uploads && s.uploads[id].Writing? && id in s.sent
    case WriteFails(id) => id in s.uploads && s.uploads[id].Writing?
    case Insert(id, _, _) => id in s.uploads && s.uploads[id].Stored?
    case InsertFails(id) => id in s.uploads && s.uploads[id].Stored?
    case InsertInDoubt(id, _, _) => id in s.uploads && s.uploads[id].Stored?
    case Delete(id, room) => id in s.rows && s.rows[id].room == room
    case DeleteAll(scope) => scope.ExpiredBy? ==> scope.time <= s.now
    case Select(task, scope) => task !in s.selections && (scope.ExpiredBy? ==> scope.time <= s.now)
    case DeleteSelected(task) => task in s.selections
    case DeleteLost(id, room) => id in s.rows && s.rows[id].room == room
    case DeleteAllLost(scope) => scope.ExpiredBy? ==> scope.time <= s.now
    case DeleteSelectedLost(task) => task in s.selections
    case RemoveBlob(id) => id in s.removing
    case GiveUpRemoving(id) => id in s.removing
    case CrashUpload(id, left) => id in s.uploads && (left.Some? ==> s.uploads[id].Writing?)
    case CrashSelection(task) => task in s.selections
    case Sweep => true
  }

  function Next(s: State, step: Step): State
    requires Enabled(s, step)
  {
    match step
    case Tick(seconds) => s.(now := s.now + seconds)
    case CreateText(id, room, expires) =>
      s.(used := s.used + {id}, rows := s.rows[id := Row(room, false, expires)])
    case Begin(id, payload) =>
      s.(used := s.used + {id}, sent := s.sent[id := payload], uploads := s.uploads[id := Writing(s.now)])
    case Commit(id) =>
      // chunk rows carry the time their transaction started
      s.(blobs := s.blobs[id := Blob(s.sent[id], s.uploads[id].started)],
         uploads := s.uploads[id := Stored(s.uploads[id].started)])
    case WriteFails(id) => s.(uploads := s.uploads - {id})
    case Insert(id, room, expires) =>
      s.(rows := s.rows[id := Row(room, true, expires)], uploads := s.uploads - {id})
    case InsertFails(id) => s.(uploads := s.uploads - {id}, removing := s.removing + {id})
    case InsertInDoubt(id, room, expires) =>
      s.(rows := s.rows[id := Row(room, true, expires)],
         uploads := s.uploads - {id}, removing := s.removing + {id})
    case Delete(id, _) =>
      s.(rows := s.rows - {id}, removing := if s.rows[id].hasBlob then s.removing + {id} else s.removing)
    case DeleteAll(scope) =>
      s.(rows := s.rows - RowsIn(s, scope), removing := s.removing + PathsIn(s, scope))
    case Select(task, scope) => s.(selections := s.selections[task := Selection(scope, PathsIn(s, scope))])
    case DeleteSelected(task) =>
      s.(rows := s.rows - RowsIn(s, s.selections[task].scope),
         removing := s.removing + s.selections[task].paths, selections := s.selections - {task})
    case DeleteLost(id, _) => s.(rows := s.rows - {id})
    case DeleteAllLost(scope) => s.(rows := s.rows - RowsIn(s, scope))
    case DeleteSelectedLost(task) =>
      s.(rows := s.rows - RowsIn(s, s.selections[task].scope), selections := s.selections - {task})
    case RemoveBlob(id) => s.(blobs := s.blobs - {id}, removing := s.removing - {id})
    case GiveUpRemoving(id) => s.(removing := s.removing - {id})
    case CrashUpload(id, left) =>
      // a disk may keep part of the file; Postgres rolls a half-written payload back, but
      // keeps all of it if only the reply to the commit was lost
      s.(uploads := s.uploads - {id},
         blobs := if left.Some? then s.blobs[id := Blob(left.value, s.uploads[id].started)] else s.blobs)
    case CrashSelection(task) => s.(selections := s.selections - {task})
    case Sweep => s.(blobs := s.blobs - Orphans(s))
  }

  /* ── Integrity ───────────────────────────────────────────────────────── */

  predicate Whole(s: State, id: Id) {
    id in s.blobs && id in s.sent && s.blobs[id].payload == s.sent[id]
  }

  // Every row that names a payload has all of it.
  ghost predicate Intact(s: State) {
    forall id :: id in s.rows && s.rows[id].hasBlob ==> Whole(s, id)
  }

  // A stored payload is safe from the sweep for as long as its upload is on time.
  predicate UploadOk(s: State, id: Id)
    requires id in s.uploads
  {
    && id in s.used && id in s.sent && id !in s.rows && id !in s.removing
    && s.uploads[id].started <= s.now
    && (s.uploads[id].Writing? ==> id !in s.blobs)
    && (s.uploads[id].Stored? && s.now - s.uploads[id].started <= ORPHAN_AGE ==>
          Whole(s, id) && s.blobs[id].createdAt == s.uploads[id].started)
    && (s.uploads[id].Stored? && id in s.blobs ==> Whole(s, id))
  }

  // A path picked for removal belongs to no row the deletion would leave.
  predicate SelectedOk(s: State, scope: Scope, id: Id) {
    && id in s.used && id !in s.uploads
    && (id in s.rows ==> s.rows[id].hasBlob && Covers(scope, s.rows[id]))
  }

  ghost predicate Consistent(s: State) {
    && s.rows.Keys <= s.used && s.removing <= s.used && s.blobs.Keys <= s.used
    && (forall id :: id in s.removing ==> id !in s.uploads && (id in s.rows ==> s.rows[id].hasBlob))
    && (forall id :: id in s.uploads ==> UploadOk(s, id))
    && (forall t, id :: t in s.selections && id in s.selections[t].paths ==>
          SelectedOk(s, s.selections[t].scope, id))
  }

  predicate HasRow(s: State, id: Id) { id in s.rows && s.rows[id].hasBlob }

  // A row is inserted after the sweep has taken its payload, or a payload is removed
  // although its row is there.
  predicate Dangles(s: State, step: Step) {
    match step
    case Insert(id, _, _) => id !in s.blobs
    case InsertInDoubt(id, _, _) => id !in s.blobs
    case RemoveBlob(id) => HasRow(s, id)
    case _ => false
  }

  predicate OnTime(s: State, step: Step) {
    step.Insert? && step.id in s.uploads ==> s.now - s.uploads[step.id].started <= ORPHAN_AGE
  }

  // No payload is up for removal whose row is there.
  predicate NoDoubt(s: State) { s.removing !! s.rows.Keys }

  lemma OnTimeNeverDangles(s: State, step: Step)
    requires Consistent(s) && NoDoubt(s) && Enabled(s, step) && OnTime(s, step) && !step.InsertInDoubt?
    ensures !Dangles(s, step) && NoDoubt(Next(s, step))
  {
    assert step.Insert? ==> UploadOk(s, step.id);
  }

  lemma StepKeepsUploads(s: State, step: Step, id: Id)
    requires Consistent(s) && Enabled(s, step) && id in Next(s, step).uploads
    ensures UploadOk(Next(s, step), id)
  {
    assert id in s.uploads ==> UploadOk(s, id);
  }

  lemma StepKeepsConsistent(s: State, step: Step)
    requires Consistent(s) && Enabled(s, step)
    ensures Consistent(Next(s, step))
  {
    var t := Next(s, step);
    forall id | id in t.uploads ensures UploadOk(t, id) {
      StepKeepsUploads(s, step, id);
    }
    forall k, id | k in t.selections && id in t.selections[k].paths
      ensures SelectedOk(t, t.selections[k].scope, id)
    {
      if k in s.selections && t.selections[k] == s.selections[k] {
        assert SelectedOk(s, s.selections[k].scope, id);
      }
    }
  }

  lemma StepKeepsIntact(s: State, step: Step)
    requires Consistent(s) && Intact(s) && Enabled(s, step) && !Dangles(s, step)
    ensures Intact(Next(s, step))
  {
    var t := Next(s, step);
    forall id | id in t.rows && t.rows[id].hasBlob ensures Whole(t, id) {
      assert id in s.uploads ==> UploadOk(s, id);
      if id in s.rows { assert s.rows[id].hasBlob && Whole(s, id); }
    }
  }

  // An insert whose payload has been swept, or a removal under a row that was inserted
  // after all, is exactly what breaks integrity.
  lemma IntegrityStep(s: State, step: Step)
    requires Consistent(s) && Intact(s) && Enabled(s, step)
    ensures Consistent(Next(s, step))
    ensures Intact(Next(s, step)) <==> !Dangles(s, step)
  {
    StepKeepsConsistent(s, step);
    if Dangles(s, step) {
      assert !Whole(Next(s, step), step.id) && HasRow(Next(s, step), step.id);
    } else {
      StepKeepsIntact(s, step);
    }
  }

  /* ── No payload is left behind ───────────────────────────────────────── */

  predicate Owned(s: State, id: Id) {
    HasRow(s, id) || id in s.removing || id in s.uploads
  }

  ghost predicate NoLeak(s: State) {
    forall id :: id in s.blobs ==> Owned(s, id)
  }

  // A row of the scope loses its payload's last owner.
  ghost predicate LosesTrack(s: State, scope: Scope, kept: set<Id>) {
    exists id :: id in s.blobs && id in PathsIn(s, scope) - kept - s.removing
  }

  // A crash or a failed removal, a deletion whose reply is lost, or a two-statement
  // deletion that deletes a row inserted after its paths were read.
  ghost predicate Leaks(s: State, step: Step)
    requires Enabled(s, step)
  {
    match step
    case GiveUpRemoving(id) => id in s.blobs && !HasRow(s, id)
    case CrashUpload(id, left) => left.Some? || id in s.blobs
    case DeleteSelected(task) => LosesTrack(s, s.selections[task].scope, s.selections[task].paths)
    case DeleteLost(id, _) => id in s.blobs && HasRow(s, id) && id !in s.removing
    case DeleteAllLost(scope) => LosesTrack(s, scope, {})
    case DeleteSelectedLost(task) => LosesTrack(s, s.selections[task].scope, {})
    case _ => false
  }

  // Deleting the rows of a scope loses track of exactly the payloads nobody else owns.
  lemma LostTrackLeaks(s: State, t: State, scope: Scope, kept: set<Id>)
    requires Consistent(s) && LosesTrack(s, scope, kept)
    requires t.rows == s.rows - RowsIn(s, scope) && t.blobs == s.blobs && t.uploads == s.uploads
    requires t.removing == s.removing + kept
    ensures !NoLeak(t)
  {
    var id :| id in s.blobs && id in PathsIn(s, scope) - kept - s.removing;
    assert id in s.uploads ==> UploadOk(s, id);
    assert !Owned(t, id);
  }

  lemma StepLeaks(s: State, step: Step)
    requires Consistent(s) && NoLeak(s) && Enabled(s, step) && Leaks(s, step)
    ensures !NoLeak(Next(s, step))
  {
    var t := Next(s, step);
    match step
    case GiveUpRemoving(id) => assert !Owned(t, id);
    case CrashUpload(id, left) =>
      assert UploadOk(s, id);
      assert id in t.blobs && !Owned(t, id);
    case DeleteSelected(task) => LostTrackLeaks(s, t, s.selections[task].scope, s.selections[task].paths);
    case DeleteLost(id, _) =>
      assert id in s.uploads ==> UploadOk(s, id);
      assert !Owned(t, id);
    case DeleteAllLost(scope) => LostTrackLeaks(s, t, scope, {});
    case DeleteSelectedLost(task) => LostTrackLeaks(s, t, s.selections[task].scope, {});
  }

  lemma NoLeakStep(s: State, step: Step)
    requires Consistent(s) && NoLeak(s) && Enabled(s, step)
    ensures NoLeak(Next(s, step)) <==> !Leaks(s, step)
  {
    if Leaks(s, step) {
      StepLeaks(s, step);
    } else {
      var t := Next(s, step);
      forall id | id in t.blobs ensures Owned(t, id) {
        assert id in s.blobs ==> Owned(s, id);
        assert id in s.uploads ==> UploadOk(s, id);
      }
    }
  }

  /* ── Runs ────────────────────────────────────────────────────────────── */

  ghost predicate Runs(s: State, steps: seq<Step>)
    decreases |steps|
  {
    steps == [] || (Enabled(s, steps[0]) && Runs(Next(s, steps[0]), steps[1..]))
  }

  ghost function After(s: State, steps: seq<Step>): State
    requires Runs(s, steps)
    decreases |steps|
  {
    if steps == [] then s else After(Next(s, steps[0]), steps[1..])
  }

  // Every upload inserts its row within an hour of starting to write.
  ghost predicate AllOnTime(s: State, steps: seq<Step>)
    requires Runs(s, steps)
    decreases |steps|
  {
    steps == [] || (OnTime(s, steps[0]) && AllOnTime(Next(s, steps[0]), steps[1..]))
  }

  // No insert is applied and reported as failed.
  predicate NoneInDoubt(steps: seq<Step>) {
    forall j :: 0 <= j < |steps| ==> !steps[j].InsertInDoubt?
  }

  ghost predicate SomeLeak(s: State, steps: seq<Step>)
    requires Runs(s, steps)
    decreases |steps|
  {
    steps != [] && (Leaks(s, steps[0]) || SomeLeak(Next(s, steps[0]), steps[1..]))
  }

  const START := State(0, {}, map[], map[], map[], map[], {}, map[])

  lemma {:induction false} RunKeepsIntact(s: State, steps: seq<Step>)
    requires Consistent(s) && Intact(s) && NoDoubt(s) && Runs(s, steps)
    requires AllOnTime(s, steps) && NoneInDoubt(steps)
    ensures Consistent(After(s, steps)) && Intact(After(s, steps))
    decreases |steps|
  {
    if steps != [] {
      OnTimeNeverDangles(s, steps[0]);
      IntegrityStep(s, steps[0]);
      RunKeepsIntact(Next(s, steps[0]), steps[1..]);
    }
  }

  /* ── Which rows and payloads go ──────────────────────────────────────── */

  predicate DeletesAll(step: Step) {
    step.DeleteAll? || step.DeleteAllLost? || step.DeleteSelected? || step.DeleteSelectedLost?
  }

  function ScopeOf(s: State, step: Step): Scope
    requires DeletesAll(step) && Enabled(s, step)
  {
    if step.DeleteAll? || step.DeleteAllLost? then step.scope else s.selections[step.task].scope
  }

  // A deletion of many takes all the rows of its room, or all that expire by its time, and no others.
  lemma DeletionTakesExactly(s: State, step: Step)
    requires DeletesAll(step) && Enabled(s, step)
    ensures Next(s, step).rows ==
      match ScopeOf(s, step)
      case InRoom(room) => map id | id in s.rows && s.rows[id].room != room :: s.rows[id]
      case ExpiredBy(time) => map id | id in s.rows && s.rows[id].expires > time :: s.rows[id]
    ensures step.DeleteAll? && step.scope.InRoom? ==>
      Next(s, step).removing == s.removing + set id | id in s.rows && s.rows[id].room == step.scope.room && s.rows[id].hasBlob
    ensures step.DeleteAll? && step.scope.ExpiredBy? ==>
      Next(s, step).removing == s.removing + set id | id in s.rows && s.rows[id].expires <= step.scope.time && s.rows[id].hasBlob
  {
  }

  // A two-statement deletion keeps the time at which it read its paths.
  ghost predicate SelectionsArePast(s: State) {
    forall k :: k in s.selections && s.selections[k].scope.ExpiredBy? ==> s.selections[k].scope.time <= s.now
  }

  lemma {:induction false} RunKeepsSelectionsPast(s: State, steps: seq<Step>)
    requires Consistent(s) && SelectionsArePast(s) && Runs(s, steps)
    ensures Consistent(After(s, steps)) && SelectionsArePast(After(s, steps))
    decreases |steps|
  {
    if steps != [] {
      StepKeepsConsistent(s, steps[0]);
      RunKeepsSelectionsPast(Next(s, steps[0]), steps[1..]);
    }
  }

  predicate DeletesOne(step: Step, id: Id, room: RoomCode) {
    (step.Delete? || step.DeleteLost?) && step.id == id && step.room == room
  }

  predicate ClearsRoom(s: State, step: Step, room: RoomCode) {
    DeletesAll(step) && Enabled(s, step) && ScopeOf(s, step) == InRoom(room)
  }

  predicate Inserts(step: Step, id: Id, row: Row) {
    match step
    case CreateText(i, room, expires) => i == id && row == Row(room, false, expires)
    case Insert(i, room, expires) => i == id && row == Row(room, true, expires)
    case InsertInDoubt(i, room, expires) => i == id && row == Row(room, true, expires)
    case _ => false
  }

  // After any run, a row that goes in a step had expired by then, or was named with its own
  // room, or its own room was cleared; one that comes was inserted so; and any other stays.
  lemma RowsChangeForAReason(steps: seq<Step>, step: Step, id: Id)
    requires Runs(START, steps) && Enabled(After(START, steps), step)
    ensures var s := After(START, steps);
      var t := Next(s, step);
      && (id in s.rows && id !in t.rows ==>
            || s.rows[id].expires <= s.now
            || DeletesOne(step, id, s.rows[id].room)
            || ClearsRoom(s, step, s.rows[id].room))
      && (id !in s.rows && id in t.rows ==> Inserts(step, id, t.rows[id]))
      && (id in s.rows && id in t.rows ==> t.rows[id] == s.rows[id])
  {
    RunKeepsSelectionsPast(START, steps);
    var s := After(START, steps);
    if DeletesAll(step) {
      DeletionTakesExactly(s, step);
    }
    assert step.Insert? || step.InsertInDoubt? ==> UploadOk(s, step.id);
  }

  // A sweep takes exactly the payloads without a row that are over an hour old.
  lemma SweepTakesExactly(s: State)
    ensures Next(s, Sweep) == s.(blobs :=
      map id | id in s.blobs && (s.blobs[id].createdAt >= s.now - 3600 || (id in s.rows && s.rows[id].hasBlob)) :: s.blobs[id])
  {
  }

  // Whatever uploads, deletions, clears, expiry, sweeps, crashes and failures do to each
  // other, no row ever names a payload that is not wholly stored; provided that uploads
  // are on time, and that no insert is applied and yet reported as failed.
  lemma BlobIntegrity(steps: seq<Step>)
    requires Runs(START, steps) && AllOnTime(START, steps) && NoneInDoubt(steps)
    ensures Intact(After(START, steps))
  {
    RunKeepsIntact(START, steps);
  }

  lemma RunsFrom(s: State, first: Step, rest: seq<Step>)
    requires Enabled(s, first) && Runs(Next(s, first), rest)
    ensures Runs(s, [first] + rest) && After(s, [first] + rest) == After(Next(s, first), rest)
  {
    assert ([first] + rest)[1..] == rest;
  }

  // The hour is needed: one second more and a sweep can take the payload first.
  lemma LateInsertDangles()
    ensures exists steps :: Runs(START, steps) && !Intact(After(START, steps))
  {
    var s1 := Next(START, Begin(1, [7]));
    var s2 := Next(s1, Commit(1));
    var s3 := Next(s2, Tick(ORPHAN_AGE + 1));
    var s4 := Next(s3, Sweep);
    assert 1 in Orphans(s3);
    var insert := Insert(1, "kfrb-mp3x", 9000);
    var s5 := Next(s4, insert);
    assert 1 in s5.rows && !Whole(s5, 1);
    RunsFrom(s4, insert, []);
    RunsFrom(s3, Sweep, [insert]);
    RunsFrom(s2, Tick(ORPHAN_AGE + 1), [Sweep] + [insert]);
    RunsFrom(s1, Commit(1), [Tick(ORPHAN_AGE + 1)] + ([Sweep] + [insert]));
    RunsFrom(START, Begin(1, [7]), [Commit(1)] + ([Tick(ORPHAN_AGE + 1)] + ([Sweep] + [insert])));
    assert [insert] + [] == [insert];
  }

  // The second condition is needed too: an upload on time whose insert is applied but
  // reported as failed removes its own payload from under the row.
  lemma InsertInDoubtDangles()
    ensures exists steps :: Runs(START, steps) && AllOnTime(START, steps) && !Intact(After(START, steps))
  {
    var s1 := Next(START, Begin(1, [7]));
    var s2 := Next(s1, Commit(1));
    var insert := InsertInDoubt(1, "kfrb-mp3x", 9000);
    var s3 := Next(s2, insert);
    var s4 := Next(s3, RemoveBlob(1));
    assert 1 in s4.rows && !Whole(s4, 1);
    RunsFrom(s3, RemoveBlob(1), []);
    RunsFrom(s2, insert, [RemoveBlob(1)] + []);
    RunsFrom(s1, Commit(1), [insert] + ([RemoveBlob(1)] + []));
    var rest := [Commit(1)] + ([insert] + ([RemoveBlob(1)] + []));
    RunsFrom(START, Begin(1, [7]), rest);
    NoInsertIsOnTime(START, [Begin(1, [7])] + rest);
  }

  lemma {:induction false} NoInsertIsOnTime(s: State, steps: seq<Step>)
    requires Runs(s, steps) && forall j :: 0 <= j < |steps| ==> !steps[j].Insert?
    ensures AllOnTime(s, steps)
    decreases |steps|
  {
    if steps != [] {
      NoInsertIsOnTime(Next(s, steps[0]), steps[1..]);
    }
  }

  lemma {:induction false} RunLeavesNothing(s: State, steps: seq<Step>)
    requires Consistent(s) && NoLeak(s) && Runs(s, steps) && !SomeLeak(s, steps)
    ensures Consistent(After(s, steps)) && NoLeak(After(s, steps))
    decreases |steps|
  {
    if steps != [] {
      StepKeepsConsistent(s, steps[0]);
      NoLeakStep(s, steps[0]);
      RunLeavesNothing(Next(s, steps[0]), steps[1..]);
    }
  }

  // At rest the payload store holds the payloads of the rows, whole, and no others.
  lemma AtRestTheStoresMatch(steps: seq<Step>)
    requires Runs(START, steps) && AllOnTime(START, steps) && NoneInDoubt(steps) && !SomeLeak(START, steps)
    ensures var t := After(START, steps);
      t.uploads == map[] && t.removing == {} ==>
        && t.blobs.Keys == (set id | id in t.rows && HasRow(t, id))
        && forall id :: id in t.blobs ==> Whole(t, id)
  {
    RunKeepsIntact(START, steps);
    RunLeavesNothing(START, steps);
    var t := After(START, steps);
    assert forall id :: id in t.blobs ==> Owned(t, id);
    assert forall id :: id in t.rows && HasRow(t, id) ==> Whole(t, id);
  }

  // A run that has leaked nothing, about to leak.
  ghost predicate CanLeak(steps: seq<Step>, task: Task) {
    && Runs(START, steps) && NoLeak(After(START, steps))
    && Enabled(After(START, steps), DeleteSelected(task)) && Leaks(After(START, steps), DeleteSelected(task))
  }

  // The clear has read its paths, and an upload has finished since.
  function ClearOvertaken(room: RoomCode): State {
    START.(selections := map[0 := Selection(InRoom(room), {})], used := {1}, sent := map[1 := [7]],
           blobs := map[1 := Blob([7], 0)], rows := map[1 := Row(room, true, 9000)])
  }

  lemma ReachClearOvertaken(room: RoomCode) returns (steps: seq<Step>)
    ensures Runs(START, steps) && After(START, steps) == ClearOvertaken(room)
  {
    var s1 := START.(selections := map[0 := Selection(InRoom(room), {})]);
    assert PathsIn(START, InRoom(room)) == {};
    assert s1 == Next(START, Select(0, InRoom(room)));
    var s2 := s1.(used := {1}, sent := map[1 := [7]], uploads := map[1 := Writing(0)]);
    assert s2 == Next(s1, Begin(1, [7]));
    var s3 := s2.(blobs := map[1 := Blob([7], 0)], uploads := map[1 := Stored(0)]);
    assert s3 == Next(s2, Commit(1));
    assert ClearOvertaken(room) == Next(s3, Insert(1, room, 9000));
    RunsFrom(s3, Insert(1, room, 9000), []);
    RunsFrom(s2, Commit(1), [Insert(1, room, 9000)] + []);
    RunsFrom(s1, Begin(1, [7]), [Commit(1)] + ([Insert(1, room, 9000)] + []));
    var rest := [Begin(1, [7])] + ([Commit(1)] + ([Insert(1, room, 9000)] + []));
    RunsFrom(START, Select(0, InRoom(room)), rest);
    steps := [Select(0, InRoom(room))] + rest;
  }

  // Without any crash or failure, a clear in two statements can leave a payload behind:
  // an upload finishes between reading the paths and deleting the rows.
  lemma TwoStatementClearCanLeak()
    ensures exists steps, task :: CanLeak(steps, task)
  {
    var room := "kfrb-mp3x";
    var steps := ReachClearOvertaken(room);
    var s := ClearOvertaken(room);
    assert 1 in PathsIn(s, InRoom(room)) - s.selections[0].paths;
    assert Consistent(s) && NoLeak(s) && Leaks(s, DeleteSelected(0));
    assert CanLeak(steps, 0);
  }
}
