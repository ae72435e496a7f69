/** Payloads as files below a root directory, and where the two backends agree. */
module DiskBlob {
  import opened Bytes
  import opened Wrappers
  import opened ChunkReader
  import P = PostgresBlob
  import Source

  // Relative path -> contents.
  type Files = map<string, bytes>

  function Path(id: string): string
    requires |id| >= 2
  {
    id[..2] + "/" + id
  }

  // Different payloads are kept in different files, below a directory of their first two characters.
  lemma PathsDiffer(id: string, other: string)
    requires |id| >= 2 && |other| >= 2
    ensures Path(id) == Path(other) ==> id == other
    ensures |Path(id)| == |id| + 3 && Path(id)[..2] == id[..2] && Path(id)[2] == '/' && Path(id)[3..] == id
  {
    assert Path(id)[3..] == id && Path(other)[3..] == other;
  }

  // io.LimitReader is asked for one byte more than allowed; at the largest int64 that wraps.
  function Limit(maxBytes: int): int { Wrap64(maxBytes + 1) }

  // What io.Copy takes from the source before it stops.
  function Copied(payload: bytes, limit: int): bytes {
    if limit <= 0 then [] else payload[..Min(limit, |payload|)]
  }

  function WriteOutcome(id: string, payload: bytes, end: Source.End, maxBytes: int): P.WriteResult
    requires |id| >= 2
  {
    var n := |Copied(payload, Limit(maxBytes))|;
    // the end of the source is seen only when the limit leaves room to see it
    if n < Limit(maxBytes) && end != Source.CleanEof then P.ReadFailed
    else if n > maxBytes then P.TooLarge
    else P.Written(Path(id), n)
  }

  class Disk {
    var files: Files

    constructor ()
      ensures files == map[]
    {
      files := map[];
    }

    method Copy(r: Source.Reader, limit: int) returns (data: bytes, err: Source.ReadError)
      modifies r
      ensures data == Copied(old(Flatten(r.upcoming)), limit)
      ensures err == if |data| < limit && r.end != Source.CleanEof then r.EndError() else Source.NoError
    {
      data, err := [], Source.NoError;
      while |data| < limit
        invariant if limit <= 0 then data == [] else |data| <= limit
        invariant old(Flatten(r.upcoming)) == data + Flatten(r.upcoming)
        invariant err == Source.NoError
        decreases |r.upcoming|, limit - |data|
      {
        var more, e := r.Read(limit - |data|);
        ghost var grown := data + more;
        assert old(Flatten(r.upcoming)) == grown + Flatten(r.upcoming);
        data := data + more;
        if e != Source.NoError {
          assert Flatten(r.upcoming) == [];
          assert data == old(Flatten(r.upcoming));
          return data, if e == Source.EOF then Source.NoError else e;
        }
      }
      assert data == old(Flatten(r.upcoming))[..|data|];
    }

    method Write(id: string, r: Source.Reader, maxBytes: int) returns (result: P.WriteResult)
      requires |id| >= 2
      modifies this, r
      ensures result == WriteOutcome(id, old(Flatten(r.upcoming)), r.end, maxBytes)
      ensures files == if result.Written?
        then old(files)[Path(id) := Copied(old(Flatten(r.upcoming)), Limit(maxBytes))]
        else old(files) - {Path(id)}
    {
      var rel := id[..2] + "/" + id;
      files := files[rel := []];
      var data, err := Copy(r, Wrap64(maxBytes + 1));
      files := files[rel := data];
      if err != Source.NoError {
        files := files - {rel};
        return P.ReadFailed;
      }
      if |data| > maxBytes {
        files := files - {rel};
        return P.TooLarge;
      }
      return P.Written(rel, |data|);
    }

    method Open(rel: string) returns (content: Option<bytes>)
      ensures content == if rel != "" && rel in files then Some(files[rel]) else None
    {
      if rel == "" || rel !in files {
        return None;
      }
      return Some(files[rel]);
    }

    // false only for the empty path; removing what is already gone is no error.
    method Remove(rel: string) returns (ok: bool)
      modifies this
      ensures ok <==> rel != ""
      ensures files == if ok then old(files) - {rel} else old(files)
    {
      ok := rel != "";
      if ok {
        files := files - {rel};
      }
    }
  }

  /* ── Agreement ───────────────────────────────────────────────────────── */

  // What opening the stored path gives back after a write into an empty Postgres store.
  function PostgresOpens(id: string, payload: bytes): Option<bytes> {
    var rows := P.RowsAt(P.Commit(map[], id, Layout(payload)), id);
    if id == "" || rows == map[] then None else Some(P.Joined(rows, |rows|))
  }

  // Both refuse for the same reason, or both store the same number of bytes and give the
  // same payload back.
  ghost predicate Agree(id: string, payload: bytes, end: Source.End, maxBytes: int)
    requires |id| >= 2
  {
    match (P.WriteOutcome(id, payload, end, maxBytes), WriteOutcome(id, payload, end, maxBytes))
    case (Written(_, n), Written(_, m)) =>
      n == m && PostgresOpens(id, payload) == Some(Copied(payload, Limit(maxBytes)))
    case (TooLarge, TooLarge) => true
    case (ReadFailed, ReadFailed) => true
    case _ => false
  }

  lemma CommittedRows(id: string, payload: bytes)
    ensures P.RowsAt(P.Commit(map[], id, Layout(payload)), id) == Layout(payload)
  {
    if payload == [] {
      assert Layout(payload) == map[];
    } else {
      assert P.RowsAt(P.Commit(map[], id, Layout(payload)), id) == map[] + Layout(payload) == Layout(payload);
    }
  }

  // Opening a stored payload and reading it to its end, with a buffer of any size.
  method ReadBack(db: P.Postgres, id: string, bufferSize: nat, ghost payload: bytes) returns (content: Option<bytes>)
    requires id != "" && bufferSize > 0 && |payload| <= MAX_INT64 && P.RowsAt(db.table, id) == Layout(payload)
    ensures content == if payload == [] then None else Some(payload)
  {
    RowsUnlessEmpty(payload);
    P.SumOfLayout(payload);
    var f := db.Open(id);
    if f.None? {
      return None;
    }
    var stream := f.value;
    var data := stream.ReadRange(0, stream.size, bufferSize, payload);
    assert payload[0..|payload|] == payload;
    return Some(data);
  }

  lemma RowsUnlessEmpty(payload: bytes)
    ensures Layout(payload) == map[] <==> payload == []
  {
    P.LayoutIsExact(payload);
    assert payload != [] ==> 0 in Layout(payload);
  }

  // Writing to an empty store, opening the path again and reading it gives just what
  // PostgresOpens says.
  method PostgresRoundTrip(db: P.Postgres, id: string, r: Source.Reader, maxBytes: int, bufferSize: nat)
    returns (result: P.WriteResult, content: Option<bytes>)
    requires |id| >= 2 && db.table == map[] && bufferSize > 0 && |Flatten(r.upcoming)| <= MAX_INT64
    modifies db, r
    ensures result == P.WriteOutcome(id, old(Flatten(r.upcoming)), r.end, maxBytes)
    ensures result.Written? ==> content == PostgresOpens(id, old(Flatten(r.upcoming)))
  {
    ghost var payload := Flatten(r.upcoming);
    content := None;
    result := db.Write(id, r, maxBytes, P.NoFault);
    if result.Written? {
      CommittedRows(id, payload);
      PostgresGivesBack(id, payload);
      content := ReadBack(db, id, bufferSize, payload);
    }
  }

  lemma PostgresGivesBack(id: string, payload: bytes)
    requires |id| >= 2
    ensures PostgresOpens(id, payload) == if payload == [] then None else Some(payload)
  {
    CommittedRows(id, payload);
    RowsUnlessEmpty(payload);
    P.LayoutIsExact(payload);
    P.SumOfLayout(payload);
  }

  lemma RefusedAlike(id: string, payload: bytes, end: Source.End, maxBytes: int)
    requires |id| >= 2 && 0 <= maxBytes < |payload| <= MAX_INT64
    ensures Agree(id, payload, end, maxBytes)
  {
    assert |Copied(payload, Limit(maxBytes))| == maxBytes + 1;
  }

  lemma StoredAlike(id: string, payload: bytes, end: Source.End, maxBytes: int)
    requires |id| >= 2 && |payload| <= maxBytes < MAX_INT64
    ensures Agree(id, payload, end, maxBytes) <==> end == Source.Failed || (end == Source.CleanEof && payload != [])
  {
    PostgresGivesBack(id, payload);
    assert Copied(payload, Limit(maxBytes)) == payload;
    assert WriteOutcome(id, payload, end, maxBytes) ==
      if end == Source.CleanEof then P.Written(Path(id), |payload|) else P.ReadFailed;
  }

  // At the largest limit Disk reads nothing and stores an empty file.
  lemma LargestLimitStoresNothing(id: string, payload: bytes, end: Source.End)
    requires |id| >= 2 && |payload| <= MAX_INT64
    ensures Copied(payload, Limit(MAX_INT64)) == []
    ensures WriteOutcome(id, payload, end, MAX_INT64) == P.Written(Path(id), 0)
  {
  }

  lemma LargestLimitDisagrees(id: string, payload: bytes, end: Source.End)
    requires |id| >= 2 && |payload| <= MAX_INT64
    ensures !Agree(id, payload, end, MAX_INT64)
  {
    PostgresGivesBack(id, payload);
    LargestLimitStoresNothing(id, payload, end);
    assert PostgresOpens(id, payload) != Some([]);
  }

  // The backends agree on every upload over the limit, and below it on every one that
  // fails outright or ends cleanly with at least one byte. They part on the empty payload,
  // on a part cut off mid-body, which only Disk refuses, and at the largest int64 limit.
  lemma BackendsAgreeExactly(id: string, payload: bytes, end: Source.End, maxBytes: int)
    requires |id| >= 2 && |payload| <= MAX_INT64 && 0 <= maxBytes <= MAX_INT64
    ensures Agree(id, payload, end, maxBytes) <==>
      || |payload| > maxBytes
      || (maxBytes < MAX_INT64 && (end == Source.Failed || (end == Source.CleanEof && payload != [])))
  {
    if |payload| > maxBytes {
      RefusedAlike(id, payload, end, maxBytes);
    } else if maxBytes < MAX_INT64 {
      StoredAlike(id, payload, end, maxBytes);
    } else {
      LargestLimitDisagrees(id, payload, end);
    }
  }
}
