/** Payloads as chunk rows of a database table. */
module PostgresBlob {
  import opened Bytes
  import opened Wrappers
  import opened ChunkReader
  import Source

  // blob_id -> seq -> data; an id without rows is absent.
  type Table = map<string, map<nat, bytes>>

  datatype WriteResult = Written(path: string, size: nat) | TooLarge | ReadFailed | DatabaseFailed

  function RowsAt(table: Table, id: string): map<nat, bytes> {
    if id in table then table[id] else map[]
  }

  // All the rows of one transaction, or none.
  function Commit(table: Table, id: string, rows: map<nat, bytes>): Table {
    if rows == map[] then table else table[id := RowsAt(table, id) + rows]
  }

  // What a write into a sound database answers for a payload that ends this way.
  function WriteOutcome(id: string, payload: bytes, end: Source.End, maxBytes: int): WriteResult {
    if payload != [] && |payload| > maxBytes then TooLarge
    else if end == Source.Failed then ReadFailed
    else Written(id, |payload|)
  }

  /* ── Layout, row by row ──────────────────────────────────────────────── */

  lemma RowsOfWhole(n: nat)
    ensures Rows(n * CHUNK_SIZE) == n
  {
  }

  // Appending one chunk to a payload of whole chunks adds one row.
  lemma LayoutGrows(whole: bytes, n: nat, last: bytes)
    requires |whole| == n * CHUNK_SIZE && 0 < |last| <= CHUNK_SIZE
    ensures Layout(whole + last) == Layout(whole)[n := last]
  {
    var payload := whole + last;
    assert Rows(|payload|) == n + 1;
    RowsOfWhole(n);
    forall k | 0 <= k < n ensures Chunk(payload, k) == Chunk(whole, k) {
      WholeChunkKept(whole, last, k, n);
    }
    assert Chunk(payload, n) == payload[|whole|..|payload|] == last;
  }

  lemma WholeChunkKept(whole: bytes, last: bytes, k: nat, n: nat)
    requires |whole| == n * CHUNK_SIZE && k < n
    ensures Chunk(whole + last, k) == Chunk(whole, k)
  {
    assert (k + 1) * CHUNK_SIZE <= n * CHUNK_SIZE;
    assert (whole + last)[k * CHUNK_SIZE..(k + 1) * CHUNK_SIZE] == whole[k * CHUNK_SIZE..(k + 1) * CHUNK_SIZE];
  }

  function Joined(rows: map<nat, bytes>, n: nat): bytes {
    if n == 0 then [] else Joined(rows, n - 1) + (if n - 1 in rows then rows[n - 1] else [])
  }

  // The rows of a payload, numbered from 0 without gaps: joined they are the payload,
  // and all but the last are exactly one mebibyte long.
  lemma LayoutIsExact(payload: bytes)
    ensures var n := Rows(|payload|);
      && (forall k: nat :: k in Layout(payload) <==> k < n)
      && Joined(Layout(payload), n) == payload
      && (forall k :: 0 <= k < n - 1 ==> |Layout(payload)[k]| == 1_048_576)
      && (n > 0 ==> 0 < |Layout(payload)[n - 1]| <= 1_048_576)
  {
    JoinedPrefix(payload, Rows(|payload|));
  }

  lemma {:induction false} JoinedPrefix(payload: bytes, k: nat)
    requires k <= Rows(|payload|)
    ensures Joined(Layout(payload), k) == payload[..Min(k * CHUNK_SIZE, |payload|)]
  {
    if k > 0 {
      JoinedPrefix(payload, k - 1);
      var lo, hi := Min((k - 1) * CHUNK_SIZE, |payload|), Min(k * CHUNK_SIZE, |payload|);
      assert payload[..hi] == payload[..lo] + payload[lo..hi];
    }
  }

  // SELECT sum(length(data)) over the rows of one blob.
  ghost function SumLengths(rows: map<nat, bytes>): nat
    decreases |rows|
  {
    if rows == map[] then 0
    else var k :| k in rows; |rows[k]| + SumLengths(rows - {k})
  }

  lemma {:induction false} SumLengthsOf(rows: map<nat, bytes>, k: nat)
    requires k in rows
    ensures SumLengths(rows) == |rows[k]| + SumLengths(rows - {k})
    decreases |rows|
  {
    var first :| first in rows && SumLengths(rows) == |rows[first]| + SumLengths(rows - {first});
    if first != k {
      SumLengthsOf(rows - {first}, k);
      SumLengthsOf(rows - {k}, first);
      assert rows - {first} - {k} == rows - {k} - {first};
    }
  }

  // The aggregate that Open runs recovers the size of the payload.
  lemma {:induction false} SumOfLayout(payload: bytes)
    ensures SumLengths(Layout(payload)) == |payload|
    ensures |Layout(payload)| == Rows(|payload|)
    decreases |payload|
  {
    if payload == [] {
      assert Layout(payload) == map[];
    } else {
      var n := Rows(|payload|) - 1;
      var whole, last := payload[..n * CHUNK_SIZE], payload[n * CHUNK_SIZE..];
      assert payload == whole + last;
      LayoutGrows(whole, n, last);
      RowsOfWhole(n);
      SumOfLayout(whole);
      assert Layout(payload) - {n} == Layout(whole);
      SumLengthsOf(Layout(payload), n);
    }
  }

  /* ── The store ───────────────────────────────────────────────────────── */

  // The statement that fails, if one does: begin is 0, the inserts follow, commit is last.
  // A commit may also be applied and reported as failed.
  datatype Fault = NoFault | FailsAt(statement: nat) | CommitInDoubt

  class Postgres {
    var table: Table

    constructor ()
      ensures table == map[]
    {
      table := map[];
    }

    method Write(id: string, r: Source.Reader, maxBytes: int, fault: Fault) returns (result: WriteResult)
      modifies this, r
      // atomicity: either the whole layout is written, or nothing
      ensures result.Written? ==>
        var payload := old(Flatten(r.upcoming));
        && result == Written(id, |payload|)
        && (payload != [] ==> |payload| <= maxBytes)
        && r.end != Source.Failed
        && table == Commit(old(table), id, Layout(payload))
      ensures !result.Written? ==>
        table == old(table) ||
        (fault.CommitInDoubt? && result.DatabaseFailed? &&
         table == Commit(old(table), id, Layout(old(Flatten(r.upcoming)))))
      // a sound database with a fresh id decides by size and source alone,
      ensures fault.NoFault? && id !in old(table) ==>
        result == WriteOutcome(id, old(Flatten(r.upcoming)), r.end, maxBytes)
      // and a commit in doubt writes exactly what that one would, behind an error
      ensures fault.CommitInDoubt? && id !in old(table) ==>
        var payload := old(Flatten(r.upcoming));
        var sound := WriteOutcome(id, payload, r.end, maxBytes);
        && result == (if sound.Written? then DatabaseFailed else sound)
        && table == (if sound.Written? then Commit(old(table), id, Layout(payload)) else old(table))
      ensures result.DatabaseFailed? ==> !fault.NoFault? || id in old(table)
    {
      if fault == FailsAt(0) {
        return DatabaseFailed;
      }
      var refused, tx, total, statements := InsertChunks(id, r, maxBytes, fault);
      if refused.Some? {
        return refused.value;
      }
      if fault == FailsAt(statements) {
        return DatabaseFailed;
      }
      table := Commit(table, id, tx);
      result := if fault.CommitInDoubt? then DatabaseFailed else Written(id, total);
    }

    // The inserts of the transaction, up to the commit.
    method InsertChunks(id: string, r: Source.Reader, maxBytes: int, fault: Fault)
      returns (refused: Option<WriteResult>, tx: map<nat, bytes>, total: nat, statements: nat)
      modifies r
      ensures refused.None? ==>
        var payload := old(Flatten(r.upcoming));
        && tx == Layout(payload) && total == |payload| && r.end != Source.Failed
        && (payload != [] ==> |payload| <= maxBytes)
      ensures refused.Some? ==> !refused.value.Written?
      ensures refused == Some(DatabaseFailed) ==> fault.FailsAt? || id in table
      ensures refused == Some(TooLarge) ==>
        old(Flatten(r.upcoming)) != [] && |old(Flatten(r.upcoming))| > maxBytes
      ensures refused == Some(ReadFailed) ==>
        r.end == Source.Failed && (old(Flatten(r.upcoming)) != [] ==> |old(Flatten(r.upcoming))| <= maxBytes)
    {
      ghost var payload := Flatten(r.upcoming);
      ghost var done: bytes := [];
      tx, total, statements := map[], 0, 1;
      while true
        invariant payload == done + Flatten(r.upcoming)
        invariant tx == Layout(done) && total == |done|
        invariant statements >= 1 && |done| == (statements - 1) * CHUNK_SIZE
        invariant done != [] ==> total <= maxBytes
        decreases |Flatten(r.upcoming)|
      {
        var data, err := r.ReadFull(CHUNK_SIZE);
        ghost var grown := done + data;
        assert payload == grown + Flatten(r.upcoming);
        if |data| > 0 {
          total := total + |data|;
          if total > maxBytes {
            return Some(TooLarge), tx, total, statements;
          }
          var seqNo := statements - 1;
          if fault == FailsAt(statements) || seqNo in RowsAt(table, id) {
            return Some(DatabaseFailed), tx, total, statements;
          }
          LayoutGrows(done, seqNo, data);
          tx := tx[seqNo := data];
          statements := statements + 1;
        } else {
          assert grown == done;
        }
        done := grown;
        if err == Source.EOF || err == Source.UnexpectedEOF {
          assert done == payload;
          return None, tx, total, statements;
        }
        if err != Source.NoError {
          assert done == payload;
          return Some(ReadFailed), tx, total, statements;
        }
      }
    }

    // None means there is no such payload.
    method Open(path: string) returns (stream: Option<ChunkStream>)
      ensures stream.None? <==> path == "" || RowsAt(table, path) == map[]
      ensures stream.Some? ==>
        var f := stream.value;
        fresh(f) && f.store == this && f.id == path && f.size == SumLengths(RowsAt(table, path))
        && f.State() == Reader(0, Empty)
    {
      if path == "" {
        return None;
      }
      var rows := RowsAt(table, path);
      var size, todo := 0, rows;
      while todo != map[]
        invariant todo.Keys <= rows.Keys && forall k :: k in todo ==> todo[k] == rows[k]
        invariant size + SumLengths(todo) == SumLengths(rows)
        decreases |todo|
      {
        var k :| k in todo;
        SumLengthsOf(todo, k);
        size := size + |todo[k]|;
        todo := todo - {k};
      }
      if |rows| == 0 {
        return None;
      }
      var f := new ChunkStream(this, path, size);
      return Some(f);
    }

    method Remove(path: string)
      modifies this
      ensures table == if path == "" then old(table) else old(table) - {path}
    {
      if path != "" {
        table := table - {path};
      }
    }
  }

  /* ── The stream over one blob ────────────────────────────────────────── */

  // The built-in copy: as much of data as fits the front of p.
  method CopyInto(p: array<byte>, data: bytes) returns (n: nat)
    modifies p
    ensures n == Min(p.Length, |data|)
    ensures p[..n] == data[..n]
    ensures forall j :: n <= j < p.Length ==> p[j] == old(p[j])
  {
    n := Min(p.Length, |data|);
    forall j | 0 <= j < n {
      p[j] := data[j];
    }
  }

  class ChunkStream {
    const store: Postgres
    const id: string
    const size: nat
    var pos: nat
    var chunk: int     // index of the row in buf, -1 when none
    var buf: bytes

    constructor (store: Postgres, id: string, size: nat)
      ensures this.store == store && this.id == id && this.size == size
      ensures State() == Reader(0, Empty)
    {
      this.store, this.id, this.size := store, id, size;
      pos, chunk, buf := 0, -1, [];
    }

    ghost function State(): Reader
      reads this
    {
      Reader(pos, if chunk < 0 then Empty else Loaded(chunk, buf))
    }

    method Load(want: nat) returns (found: bool)
      modifies this`chunk, this`buf
      ensures found <==> want in RowsAt(store.table, id)
      ensures found ==> chunk == want && buf == RowsAt(store.table, id)[want]
      ensures !found ==> chunk == old(chunk) && buf == old(buf)
    {
      var rows := RowsAt(store.table, id);
      found := want in rows;
      if found {
        chunk, buf := want, rows[want];
      }
    }

    // Fills the front of p and leaves the rest of it alone.
    method Read(p: array<byte>) returns (n: nat, result: ReadResult)
      modifies this`pos, this`chunk, this`buf, p
      ensures (State(), result) == ChunkReader.Read(RowsAt(store.table, id), size, old(State()), p.Length)
      ensures n == (if result.Got? then |result.data| else 0) <= p.Length
      ensures p[..n] == (if result.Got? then result.data else [])
      ensures forall j :: n <= j < p.Length ==> p[j] == old(p[j])
    {
      if pos >= size {
        return 0, Eof;
      }
      var want := pos / CHUNK_SIZE;
      if want != chunk {
        var found := Load(want);
        if !found {
          return 0, NotExist;
        }
      }
      var offset := pos % CHUNK_SIZE;
      if offset >= |buf| {
        return 0, Eof;
      }
      n := CopyInto(p, buf[offset..]);
      assert buf[offset..][..n] == buf[offset..offset + n];
      pos := pos + n;
      result := Got(buf[offset..offset + n]);
    }

    method Seek(offset: int, whence: Whence) returns (at: Option<nat>)
      modifies this`pos
      ensures (State(), at) == ChunkReader.Seek(size, old(State()), offset, whence)
      // within an int64, from the start it lands at offset, from here at pos + offset, from
      // the end at size + offset, and stays put if there is no such place
      ensures size <= MAX_INT64 && old(pos) <= MAX_INT64 && -MAX_INT64 - 1 <= offset <= MAX_INT64 ==>
        CursorSeek(size, old(pos), offset, whence, at)
      ensures pos == if at.Some? then at.value else old(pos)
    {
      var next: int;
      match whence {
        case SeekStart => next := offset;
        case SeekCurrent => next := Wrap64(pos + offset);
        case SeekEnd => next := Wrap64(size + offset);
        case Other(_) => return None;
      }
      if next < 0 {
        return None;
      }
      pos := next;
      return Some(next);
    }

    method Close()
      modifies this`chunk, this`buf
      ensures State() == old(State()).(cache := Empty)
    {
      buf, chunk := [], -1;
    }

    static lemma SliceJoin(s: bytes, a: nat, b: nat, c: nat)
      requires a <= b <= c <= |s|
      ensures s[a..b] + s[b..c] == s[a..c]
    {
    }

    // With every row in place a read is a read of the cursor.
    static lemma NeverMissing(payload: bytes, r: Reader, room: nat)
      requires ChunkReader.Valid(r, payload)
      ensures var (r', result) := ChunkReader.Read(Layout(payload), |payload|, r, room);
        ChunkReader.Valid(r', payload) && CursorRead(payload, r.pos, room, r'.pos, result)
    {
      if r.pos < |payload| {
        ChunkGeometry(|payload|, r.pos);
      }
      ReadRefines(payload, Layout(payload), r, room);
    }

    // How a range request is served: seek, then read until enough has come or the end is met.
    method ReadRange(start: nat, length: nat, bufferSize: nat, ghost payload: bytes) returns (data: bytes)
      requires bufferSize > 0 && start <= MAX_INT64
      requires size == |payload| && RowsAt(store.table, id) == Layout(payload)
      requires ChunkReader.Valid(State(), payload)
      modifies this`pos, this`chunk, this`buf
      ensures ChunkReader.Valid(State(), payload)
      ensures data == payload[Min(start, size)..Min(start + length, size)]
    {
      var at := Seek(start, SeekStart);
      data := [];
      while |data| < length
        invariant |data| <= length && ChunkReader.Valid(State(), payload)
        invariant pos == start + |data| && (data != [] ==> pos <= size)
        invariant data == payload[Min(start, size)..Min(pos, size)]
        decreases length - |data|
      {
        var p := new byte[Min(bufferSize, length - |data|)](_ => 0);
        ghost var before := State();
        var n, result := Read(p);
        NeverMissing(payload, before, p.Length);
        if result == Eof {
          return;
        }
        SliceJoin(payload, start, before.pos, pos);
        data := data + p[..n];
      }
    }
  }
}
