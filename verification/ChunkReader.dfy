/** Reading a chunked payload back as a seekable stream.

    A payload is stored in rows of CHUNK_SIZE bytes, the last one shorter. The
    reader keeps one row in memory; here it is shown to behave as a cursor over
    the plain payload, whatever order seeks and reads come in. */
module ChunkReader {
  import opened Bytes
  import opened Wrappers

  const CHUNK_SIZE: nat := 0x10_0000

  /* ── Layout ──────────────────────────────────────────────────────────── */

  function Rows(size: nat): nat { (size + CHUNK_SIZE - 1) / CHUNK_SIZE }

  function Min(a: int, b: int): int { if a <= b then a else b }

  // Row k of the layout of a payload.
  function Chunk(payload: bytes, k: nat): bytes {
    payload[Min(k * CHUNK_SIZE, |payload|)..Min((k + 1) * CHUNK_SIZE, |payload|)]
  }

  // The rows present are rows of the payload; some or all may be gone.
  ghost predicate RowsOf(rows: map<nat, bytes>, payload: bytes) {
    forall k :: k in rows ==> k < Rows(|payload|) && rows[k] == Chunk(payload, k)
  }

  function Layout(payload: bytes): map<nat, bytes> {
    map k: nat | 0 <= k < Rows(|payload|) :: Chunk(payload, k)
  }

  /* ── One read, one seek ──────────────────────────────────────────────── */

  datatype Cache = Empty | Loaded(chunk: nat, buf: bytes)
  datatype Reader = Reader(pos: nat, cache: Cache)

  datatype ReadResult = Got(data: bytes) | Eof | NotExist
  datatype Whence = SeekStart | SeekCurrent | SeekEnd | Other(code: int)

  // The cached buffer is the row its index names.
  ghost predicate Valid(r: Reader, payload: bytes) {
    && r.pos <= MAX_INT64 && |payload| <= MAX_INT64
    && (r.cache.Loaded? ==> r.cache.chunk < Rows(|payload|) && r.cache.buf == Chunk(payload, r.cache.chunk))
  }

  function Load(rows: map<nat, bytes>, r: Reader, want: nat): Option<Reader> {
    if r.cache.Loaded? && r.cache.chunk == want then Some(r)
    else if want in rows then Some(r.(cache := Loaded(want, rows[want])))
    else None
  }

  // Copies from the loaded row into a buffer with that much room.
  function Copy(l: Reader, room: nat): (Reader, ReadResult) {
    var offset := l.pos % CHUNK_SIZE;
    if l.cache.Empty? || offset >= |l.cache.buf| then (l, Eof)
    else
      var n := Min(room, |l.cache.buf| - offset);
      (l.(pos := l.pos + n), Got(l.cache.buf[offset..offset + n]))
  }

  function Read(rows: map<nat, bytes>, size: nat, r: Reader, room: nat): (Reader, ReadResult) {
    if r.pos >= size then (r, Eof)
    else match Load(rows, r, r.pos / CHUNK_SIZE)
      case None => (r, NotExist)
      case Some(l) => Copy(l, room)
  }

  // None is an error, which leaves the reader as it was.
  function SeekTarget(size: nat, pos: nat, offset: int, whence: Whence): Option<nat> {
    var next := match whence
      case SeekStart => Some(offset)
      case SeekCurrent => Some(Wrap64(pos + offset))
      case SeekEnd => Some(Wrap64(size + offset))
      case Other(_) => None;
    if next.Some? && next.value >= 0 then Some(next.value) else None
  }

  function Seek(size: nat, r: Reader, offset: int, whence: Whence): (Reader, Option<nat>) {
    var next := SeekTarget(size, r.pos, offset, whence);
    (if next.Some? then r.(pos := next.value) else r, next)
  }

  /* ── The plain cursor it refines ─────────────────────────────────────── */

  // What a reader over the bare payload may answer: some of what remains (never
  // nothing, unless nothing was asked for), and Eof exactly past the end.
  ghost predicate CursorRead(payload: bytes, pos: nat, room: nat, pos': nat, result: ReadResult) {
    match result
    case Eof => pos >= |payload| && pos' == pos
    case NotExist => false
    case Got(data) =>
      && pos < |payload| && pos' == pos + |data| <= |payload|
      && data == payload[pos..pos']
      && |data| <= room && (room > 0 ==> |data| > 0)
  }

  // The place sought is where the seek ends, unless it is negative or wraps.
  predicate LandsAt(target: int, at: Option<nat>) {
    if 0 <= target <= MAX_INT64 then at == Some(target) else at == None
  }

  // What a seek may answer: a place counted from the start, from here, or from the end.
  predicate CursorSeek(size: nat, pos: nat, offset: int, whence: Whence, at: Option<nat>) {
    match whence
    case SeekStart => LandsAt(offset, at)
    case SeekCurrent => LandsAt(pos + offset, at)
    case SeekEnd => LandsAt(size + offset, at)
    case Other(_) => at == None
  }

  lemma ChunkGeometry(size: nat, pos: nat)
    requires pos < size
    ensures pos / CHUNK_SIZE < Rows(size)
    ensures (pos / CHUNK_SIZE) * CHUNK_SIZE + pos % CHUNK_SIZE == pos
    ensures pos % CHUNK_SIZE < CHUNK_SIZE
  {
  }

  lemma SliceOfSlice(s: bytes, lo: nat, hi: nat, a: nat, n: nat)
    requires lo <= hi <= |s| && a + n <= hi - lo
    ensures s[lo..hi][a..a + n] == s[lo + a..lo + a + n]
  {
    var inner, outer := s[lo..hi][a..a + n], s[lo + a..lo + a + n];
    assert forall j :: 0 <= j < n ==> inner[j] == s[lo..hi][a + j] == outer[j];
  }

  lemma ChunkSlice(payload: bytes, pos: nat, n: nat)
    requires pos < |payload|
    requires n <= |Chunk(payload, pos / CHUNK_SIZE)| - pos % CHUNK_SIZE
    ensures Chunk(payload, pos / CHUNK_SIZE)[pos % CHUNK_SIZE..pos % CHUNK_SIZE + n] == payload[pos..pos + n]
  {
    ChunkGeometry(|payload|, pos);
    var lo := (pos / CHUNK_SIZE) * CHUNK_SIZE;
    SliceOfSlice(payload, lo, Min(lo + CHUNK_SIZE, |payload|), pos % CHUNK_SIZE, n);
  }

  lemma ChunkCovers(payload: bytes, pos: nat)
    requires pos < |payload|
    ensures pos % CHUNK_SIZE < |Chunk(payload, pos / CHUNK_SIZE)|
  {
    ChunkGeometry(|payload|, pos);
  }

  lemma ChunkEnds(payload: bytes, pos: nat, n: nat)
    requires pos < |payload| && n <= |Chunk(payload, pos / CHUNK_SIZE)| - pos % CHUNK_SIZE
    ensures pos + n <= |payload|
  {
    ChunkGeometry(|payload|, pos);
  }

  // Copying out of the right row is a read of the cursor.
  lemma CopyRefines(payload: bytes, l: Reader, room: nat)
    requires Valid(l, payload) && l.pos < |payload|
    requires l.cache == Loaded(l.pos / CHUNK_SIZE, Chunk(payload, l.pos / CHUNK_SIZE))
    ensures var (r', result) := Copy(l, room);
      Valid(r', payload) && CursorRead(payload, l.pos, room, r'.pos, result)
  {
    ChunkCovers(payload, l.pos);
    var n := Min(room, |l.cache.buf| - l.pos % CHUNK_SIZE);
    ChunkSlice(payload, l.pos, n);
    ChunkEnds(payload, l.pos, n);
  }

  lemma LoadsTheRightRow(payload: bytes, rows: map<nat, bytes>, r: Reader, want: nat)
    requires Valid(r, payload) && RowsOf(rows, payload) && want < Rows(|payload|)
    ensures var l := Load(rows, r, want);
      && (l.None? <==> want !in rows && !(r.cache.Loaded? && r.cache.chunk == want))
      && (l.Some? ==> l.value == r.(cache := Loaded(want, Chunk(payload, want))) && Valid(l.value, payload))
  {
  }

  // A read refines the cursor, or fails because the row it needs is neither cached nor stored.
  lemma ReadRefines(payload: bytes, rows: map<nat, bytes>, r: Reader, room: nat)
    requires Valid(r, payload) && RowsOf(rows, payload)
    ensures var (r', result) := Read(rows, |payload|, r, room);
      && Valid(r', payload)
      && (result == NotExist ==> r' == r)
      && (result == NotExist <==>
          r.pos < |payload| && r.pos / CHUNK_SIZE !in rows
          && !(r.cache.Loaded? && r.cache.chunk == r.pos / CHUNK_SIZE))
      && (result != NotExist ==> CursorRead(payload, r.pos, room, r'.pos, result))
  {
    if r.pos < |payload| {
      ChunkGeometry(|payload|, r.pos);
      LoadsTheRightRow(payload, rows, r, r.pos / CHUNK_SIZE);
      var l := Load(rows, r, r.pos / CHUNK_SIZE);
      if l.Some? {
        CopyRefines(payload, l.value, room);
      }
    }
  }

  lemma SeekLands(size: nat, pos: nat, offset: int, whence: Whence)
    requires size <= MAX_INT64 && pos <= MAX_INT64 && -MAX_INT64 - 1 <= offset <= MAX_INT64
    ensures CursorSeek(size, pos, offset, whence, SeekTarget(size, pos, offset, whence))
  {
  }

  // How a server learns the length of a payload: it seeks to the end.
  lemma SeekingTheEndTellsTheSize(payload: bytes, r: Reader)
    requires Valid(r, payload)
    ensures Seek(|payload|, r, 0, SeekEnd) == (r.(pos := |payload|), Some(|payload|))
    ensures Seek(|payload|, r, 0, SeekStart) == (r.(pos := 0), Some(0))
    ensures Seek(|payload|, r, 0, SeekCurrent) == (r, Some(r.pos))
  {
    SeekLands(|payload|, r.pos, 0, SeekEnd);
    SeekLands(|payload|, r.pos, 0, SeekCurrent);
  }

  lemma SeekKeepsValid(payload: bytes, r: Reader, offset: int, whence: Whence)
    requires Valid(r, payload) && -MAX_INT64 - 1 <= offset <= MAX_INT64
    ensures Valid(Seek(|payload|, r, offset, whence).0, payload)
  {
  }

  /* ── Any sequence of calls ───────────────────────────────────────────── */

  datatype Call = ReadCall(room: nat) | SeekCall(offset: int, whence: Whence)
  datatype Answer = Reads(result: ReadResult) | Seeks(at: Option<nat>)

  function Step(rows: map<nat, bytes>, size: nat, r: Reader, call: Call): (Reader, Answer) {
    match call
    case ReadCall(room) => var (r', result) := Read(rows, size, r, room); (r', Reads(result))
    case SeekCall(offset, whence) => var (r', at) := Seek(size, r, offset, whence); (r', Seeks(at))
  }

  function Answers(rows: map<nat, bytes>, size: nat, r: Reader, calls: seq<Call>): (answers: seq<Answer>)
    ensures |answers| == |calls|
    decreases |calls|
  {
    if calls == [] then []
    else var (r', a) := Step(rows, size, r, calls[0]); [a] + Answers(rows, size, r', calls[1..])
  }

  // The answers could have come from a cursor over the payload itself.
  ghost predicate CursorRun(payload: bytes, pos: nat, calls: seq<Call>, answers: seq<Answer>)
    requires |answers| == |calls|
    decreases |calls|
  {
    calls == [] ||
    match (calls[0], answers[0])
    case (ReadCall(room), Reads(result)) =>
      exists pos' :: CursorRead(payload, pos, room, pos', result) && CursorRun(payload, pos', calls[1..], answers[1..])
    case (SeekCall(offset, whence), Seeks(at)) =>
      && CursorSeek(|payload|, pos, offset, whence, at)
      && CursorRun(payload, if at.Some? then at.value else pos, calls[1..], answers[1..])
    case _ => false
  }

  lemma {:induction false} ReaderIsACursor(payload: bytes, r: Reader, calls: seq<Call>)
    requires Valid(r, payload)
    requires forall j :: 0 <= j < |calls| && calls[j].SeekCall? ==>
               -MAX_INT64 - 1 <= calls[j].offset <= MAX_INT64
    ensures CursorRun(payload, r.pos, calls, Answers(Layout(payload), |payload|, r, calls))
    decreases |calls|
  {
    if calls != [] {
      var (r', a) := Step(Layout(payload), |payload|, r, calls[0]);
      var rest := Answers(Layout(payload), |payload|, r', calls[1..]);
      match calls[0] {
        case ReadCall(room) =>
          if r.pos < |payload| { ChunkGeometry(|payload|, r.pos); }
          ReadRefines(payload, Layout(payload), r, room);
        case SeekCall(offset, whence) =>
          SeekKeepsValid(payload, r, offset, whence);
          SeekLands(|payload|, r.pos, offset, whence);
      }
      ReaderIsACursor(payload, r', calls[1..]);
      assert ([a] + rest)[1..] == rest;
    }
  }
}
