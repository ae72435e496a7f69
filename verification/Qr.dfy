/** Rendering a QR matrix as SVG path data (section 8.3 of SVG 1.1), one closed
    rectangle per horizontal run of dark modules, inside a four-module margin. */
module Qr {
  import opened Wrappers
  import opened Decimal

  const QUIET_ZONE: nat := 4

  // The encoder's matrix; black is asked by column and row.
  datatype Code = Code(size: nat, black: (nat, nat) -> bool)

  datatype Run = Run(x: nat, y: nat, length: nat)

  /* ── Runs ────────────────────────────────────────────────────────────── */

  // How many dark modules follow each other from (x, y) on.
  function DarkFrom(code: Code, x: nat, y: nat): (n: nat)
    ensures x <= code.size ==> x + n <= code.size
    ensures forall k :: x <= k < x + n ==> code.black(k, y)
    ensures x + n < code.size ==> !code.black(x + n, y)
    decreases code.size - x
  {
    if x < code.size && code.black(x, y) then 1 + DarkFrom(code, x + 1, y) else 0
  }

  function RowRuns(code: Code, x: nat, y: nat): seq<Run>
    decreases code.size - x
  {
    if x >= code.size then []
    else if !code.black(x, y) then RowRuns(code, x + 1, y)
    else var n := DarkFrom(code, x, y); [Run(x, y, n)] + RowRuns(code, x + n, y)
  }

  function RunsFrom(code: Code, y: nat): seq<Run>
    decreases code.size - y
  {
    if y >= code.size then [] else RowRuns(code, 0, y) + RunsFrom(code, y + 1)
  }

  function Segment(r: Run): string {
    "M" + Itoa(r.x + QUIET_ZONE) + " " + Itoa(r.y + QUIET_ZONE) + "h" + Itoa(r.length)
    + "v1h-" + Itoa(r.length) + "z"
  }

  function Path(runs: seq<Run>): string {
    if runs == [] then "" else Segment(runs[0]) + Path(runs[1..])
  }

  // One row: skip light modules, and emit each stretch of dark ones whole.
  method RenderRow(code: Code, y: nat) returns (row: string)
    ensures row == Path(RowRuns(code, 0, y))
  {
    row := "";
    var x := 0;
    ghost var done := [];
    while x < code.size
      invariant 0 <= x <= code.size
      invariant row == Path(done) && done + RowRuns(code, x, y) == RowRuns(code, 0, y)
      decreases code.size - x
    {
      if !code.black(x, y) {
        x := x + 1;
        continue;
      }
      var run := 1;
      while x + run < code.size && code.black(x + run, y)
        invariant 1 <= run && x + run <= code.size
        invariant DarkFrom(code, x, y) == run + DarkFrom(code, x + run, y)
      {
        run := run + 1;
      }
      RunEmitted(code, x, y, run, done);
      row := row + Segment(Run(x, y, run));
      done := done + [Run(x, y, run)];
      x := x + run;
    }
    assert done + [] == done;
  }

  lemma RunEmitted(code: Code, x: nat, y: nat, run: nat, done: seq<Run>)
    requires x < code.size && code.black(x, y) && run == DarkFrom(code, x, y)
    ensures Path(done + [Run(x, y, run)]) == Path(done) + Segment(Run(x, y, run))
    ensures (done + [Run(x, y, run)]) + RowRuns(code, x + run, y) == done + RowRuns(code, x, y)
  {
    PathGrows(done, Run(x, y, run));
    Regroup(done, [Run(x, y, run)], RowRuns(code, x + run, y));
  }

  method QrPath(code: Code) returns (path: string)
    ensures path == Path(RunsFrom(code, 0))
  {
    path := "";
    var y := 0;
    ghost var done := [];
    while y < code.size
      invariant 0 <= y <= code.size
      invariant path == Path(done) && done + RunsFrom(code, y) == RunsFrom(code, 0)
    {
      var row := RenderRow(code, y);
      PathJoin(done, RowRuns(code, 0, y));
      Regroup(done, RowRuns(code, 0, y), RunsFrom(code, y + 1));
      path := path + row;
      done := done + RowRuns(code, 0, y);
      y := y + 1;
    }
    assert done + [] == done;
  }

  lemma Regroup<T>(a: seq<T>, b: seq<T>, c: seq<T>)
    ensures (a + b) + c == a + (b + c)
  {
  }

  lemma PathGrows(done: seq<Run>, r: Run)
    ensures Path(done + [r]) == Path(done) + Segment(r)
  {
    PathJoin(done, [r]);
    assert Path([r]) == Segment(r) + "";
  }

  lemma {:induction false} PathJoin(a: seq<Run>, b: seq<Run>)
    ensures Path(a + b) == Path(a) + Path(b)
  {
    if a == [] {
      assert a + b == b;
    } else {
      assert (a + b)[1..] == a[1..] + b;
      PathJoin(a[1..], b);
    }
  }

  /* ── The runs are the dark modules ───────────────────────────────────── */

  predicate Covers(r: Run, x: nat, y: nat) { r.y == y && r.x <= x < r.x + r.length }

  // A stretch of dark modules that cannot be made longer on either side.
  predicate Maximal(code: Code, r: Run) {
    && r.length > 0 && r.y < code.size && r.x + r.length <= code.size
    && (forall k :: r.x <= k < r.x + r.length ==> code.black(k, r.y))
    && (r.x > 0 ==> !code.black(r.x - 1, r.y))
    && (r.x + r.length < code.size ==> !code.black(r.x + r.length, r.y))
  }

  // Row by row, and left to right with a gap between.
  predicate Before(a: Run, b: Run) { a.y < b.y || (a.y == b.y && a.x + a.length < b.x) }

  predicate InOrder(runs: seq<Run>) { forall i, j :: 0 <= i < j < |runs| ==> Before(runs[i], runs[j]) }

  ghost predicate SomeCovers(runs: seq<Run>, x: nat, y: nat) {
    exists i :: 0 <= i < |runs| && Covers(runs[i], x, y)
  }

  ghost predicate ExactRow(code: Code, x: nat, y: nat, runs: seq<Run>) {
    && InOrder(runs)
    && (forall i :: 0 <= i < |runs| ==> Maximal(code, runs[i]) && runs[i].y == y && runs[i].x >= x)
    && (forall k :: x <= k < code.size && code.black(k, y) ==> SomeCovers(runs, k, y))
  }

  lemma {:induction false} RowRunsAreExact(code: Code, x: nat, y: nat)
    requires y < code.size
    requires 0 < x < code.size ==> !code.black(x, y) || !code.black(x - 1, y)
    ensures ExactRow(code, x, y, RowRuns(code, x, y))
    decreases code.size - x
  {
    if x < code.size {
      if !code.black(x, y) {
        RowRunsAreExact(code, x + 1, y);
      } else {
        var n := DarkFrom(code, x, y);
        RowRunsAreExact(code, x + n, y);
        RunInFront(code, x, y, n, RowRuns(code, x + n, y));
      }
    }
  }

  lemma RunInFront(code: Code, x: nat, y: nat, n: nat, rest: seq<Run>)
    requires x < code.size && y < code.size && n > 0 && Maximal(code, Run(x, y, n))
    requires ExactRow(code, x + n, y, rest)
    ensures ExactRow(code, x, y, [Run(x, y, n)] + rest)
  {
    var r := Run(x, y, n);
    RestStartsPast(code, r, rest);
    forall k | x <= k < code.size && code.black(k, y)
      ensures SomeCovers([r] + rest, k, y)
    {
      if k < x + n {
        assert Covers(([r] + rest)[0], k, y);
      } else {
        var i :| 0 <= i < |rest| && Covers(rest[i], k, y);
        assert Covers(([r] + rest)[i + 1], k, y);
      }
    }
  }

  // The next run of the row starts past the light module that ended this one.
  lemma RestStartsPast(code: Code, r: Run, rest: seq<Run>)
    requires Maximal(code, r) && InOrder(rest)
    requires forall i :: 0 <= i < |rest| ==>
      Maximal(code, rest[i]) && rest[i].y == r.y && rest[i].x >= r.x + r.length
    ensures InOrder([r] + rest)
  {
    forall i | 0 <= i < |rest| ensures Before(r, rest[i]) {
      assert code.black(rest[i].x, r.y);
    }
  }

  ghost predicate ExactFrom(code: Code, y: nat, runs: seq<Run>) {
    && InOrder(runs)
    && (forall i :: 0 <= i < |runs| ==> Maximal(code, runs[i]) && runs[i].y >= y)
    && (forall k, l :: 0 <= k < code.size && y <= l < code.size && code.black(k, l) ==> SomeCovers(runs, k, l))
  }

  lemma RowInFront(code: Code, y: nat, row: seq<Run>, rest: seq<Run>)
    requires y < code.size && ExactRow(code, 0, y, row) && ExactFrom(code, y + 1, rest)
    ensures ExactFrom(code, y, row + rest)
  {
    forall k, l | 0 <= k < code.size && y <= l < code.size && code.black(k, l)
      ensures SomeCovers(row + rest, k, l)
    {
      if l == y {
        var i :| 0 <= i < |row| && Covers(row[i], k, l);
        assert Covers((row + rest)[i], k, l);
      } else {
        var i :| 0 <= i < |rest| && Covers(rest[i], k, l);
        assert Covers((row + rest)[|row| + i], k, l);
      }
    }
  }

  lemma {:induction false} RunsAreExact(code: Code, y: nat)
    ensures ExactFrom(code, y, RunsFrom(code, y))
    decreases code.size - y
  {
    if y < code.size {
      RowRunsAreExact(code, 0, y);
      RunsAreExact(code, y + 1);
      RowInFront(code, y, RowRuns(code, 0, y), RunsFrom(code, y + 1));
    }
  }

  // Runs that are in order share no module.
  lemma InOrderRunsAreDisjoint(runs: seq<Run>, i: nat, j: nat, x: nat, y: nat)
    requires InOrder(runs) && i < |runs| && j < |runs|
    requires Covers(runs[i], x, y) && Covers(runs[j], x, y)
    ensures i == j
  {
  }

  /* ── Reading path data ───────────────────────────────────────────────── */

  datatype Command = MoveTo(x: int, y: int) | Across(dx: int) | Down(dy: int) | ClosePath

  function DigitSpan(s: string): (n: nat)
    ensures n <= |s| && AllDigits(s[..n]) && (n < |s| ==> !IsDigit(s[n]))
  {
    if s != "" && IsDigit(s[0]) then 1 + DigitSpan(s[1..]) else 0
  }

  // A signed number at the front, and what follows it.
  function ReadInt(s: string): Option<(int, string)> {
    var sign := if s != "" && s[0] == '-' then 1 else 0;
    var n := DigitSpan(s[sign..]);
    if n == 0 then None
    else
      var value: int := Number(s[sign..][..n]);
      Some((if sign == 1 then -value else value, s[sign..][n..]))
  }

  function ReadCommand(s: string): (r: Option<(Command, string)>)
    ensures r.Some? ==> |r.value.1| < |s|
  {
    if s == "" then None
    else if s[0] == 'z' then Some((ClosePath, s[1..]))
    else match ReadInt(s[1..])
      case None => None
      case Some((a, rest)) =>
        if s[0] == 'h' then Some((Across(a), rest))
        else if s[0] == 'v' then Some((Down(a), rest))
        else if s[0] == 'M' && rest != "" && rest[0] == ' ' then
          match ReadInt(rest[1..])
          case None => None
          case Some((b, more)) => Some((MoveTo(a, b), more))
        else None
  }

  function ReadCommands(s: string): Option<seq<Command>>
    decreases |s|
  {
    if s == "" then Some([])
    else match ReadCommand(s)
      case None => None
      case Some((c, rest)) =>
        match ReadCommands(rest)
        case None => None
        case Some(cs) => Some([c] + cs)
  }

  datatype Rect = Rect(x: int, y: int, width: int, height: int)

  // Each subpath must be a closed rectangle drawn from its top left corner.
  function Draw(cs: seq<Command>): Option<seq<Rect>> {
    if cs == [] then Some([])
    else if |cs| >= 5 && cs[0].MoveTo? && cs[1].Across? && cs[2].Down? && cs[3] == Across(-cs[1].dx) && cs[4].ClosePath?
            && cs[1].dx > 0 && cs[2].dy > 0 then
      match Draw(cs[5..])
      case None => None
      case Some(rs) => Some([Rect(cs[0].x, cs[0].y, cs[1].dx, cs[2].dy)] + rs)
    else None
  }

  predicate Fills(r: Rect, x: int, y: int) { r.x <= x < r.x + r.width && r.y <= y < r.y + r.height }

  function RectOf(r: Run): Rect { Rect(r.x + QUIET_ZONE, r.y + QUIET_ZONE, r.length, 1) }

  function RectsOf(runs: seq<Run>): (rects: seq<Rect>)
    ensures |rects| == |runs| && forall i :: 0 <= i < |runs| ==> rects[i] == RectOf(runs[i])
  {
    if runs == [] then [] else [RectOf(runs[0])] + RectsOf(runs[1..])
  }

  lemma {:induction false} SpanOfDigits(digits: string, rest: string)
    requires AllDigits(digits) && (rest != "" ==> !IsDigit(rest[0]))
    ensures DigitSpan(digits + rest) == |digits|
  {
    if digits == "" {
      assert digits + rest == rest;
    } else {
      assert (digits + rest)[1..] == digits[1..] + rest;
      SpanOfDigits(digits[1..], rest);
    }
  }

  lemma ReadIntReads(n: nat, rest: string)
    requires rest != "" ==> !IsDigit(rest[0])
    ensures ReadInt(Itoa(n) + rest) == Some((n, rest))
    ensures ReadInt("-" + (Itoa(n) + rest)) == Some((-(n as int), rest))
  {
    ItoaReadsBack(n);
    SpanOfDigits(Itoa(n), rest);
    var s := Itoa(n) + rest;
    assert IsDigit(s[0]);
    assert s[0..] == s && s[..|Itoa(n)|] == Itoa(n) && s[|Itoa(n)|..] == rest;
    assert ("-" + s)[1..] == s;
  }

  // The commands of one segment, followed by those of the rest.
  function CommandsOf(r: Run): seq<Command> {
    [MoveTo(r.x + QUIET_ZONE, r.y + QUIET_ZONE), Across(r.length), Down(1), Across(-(r.length as int)), ClosePath]
  }

  // What the reader makes of the text after one more command.
  function Prepend(c: Command, cs: Option<seq<Command>>): Option<seq<Command>> {
    if cs.Some? then Some([c] + cs.value) else None
  }

  lemma OneCommand(s: string, c: Command, rest: string)
    requires ReadCommand(s) == Some((c, rest))
    ensures ReadCommands(s) == Prepend(c, ReadCommands(rest))
  {
  }

  lemma ReadsAcross(text: string, n: int, rest: string)
    requires ReadInt(text) == Some((n, rest))
    ensures ReadCommands("h" + text) == Prepend(Across(n), ReadCommands(rest))
  {
    assert ("h" + text)[1..] == text;
    OneCommand("h" + text, Across(n), rest);
  }

  lemma ReadsDown(text: string, n: int, rest: string)
    requires ReadInt(text) == Some((n, rest))
    ensures ReadCommands("v" + text) == Prepend(Down(n), ReadCommands(rest))
  {
    assert ("v" + text)[1..] == text;
    OneCommand("v" + text, Down(n), rest);
  }

  lemma ReadsMove(text: string, x: int, after: string, y: int, rest: string)
    requires ReadInt(text) == Some((x, " " + after)) && ReadInt(after) == Some((y, rest))
    ensures ReadCommands("M" + text) == Prepend(MoveTo(x, y), ReadCommands(rest))
  {
    assert ("M" + text)[1..] == text;
    assert (" " + after)[1..] == after;
    OneCommand("M" + text, MoveTo(x, y), rest);
  }

  lemma ReadsClose(rest: string)
    ensures ReadCommands("z" + rest) == Prepend(ClosePath, ReadCommands(rest))
  {
    assert ("z" + rest)[1..] == rest;
  }

  // The segment's text, grouped from the right the way it is read.
  lemma SegmentGrouped(r: Run, rest: string)
    ensures Segment(r) + rest ==
      "M" + (Itoa(r.x + QUIET_ZONE) + (" " + (Itoa(r.y + QUIET_ZONE) +
        ("h" + (Itoa(r.length) + ("v" + (Itoa(1) + ("h" + ("-" + (Itoa(r.length) + ("z" + rest)))))))))))
  {
    assert Itoa(1) == "1";
  }

  // The second half of a segment: down, back and close.
  function Tail(n: nat, rest: string): string {
    "v" + (Itoa(1) + ("h" + ("-" + (Itoa(n) + ("z" + rest)))))
  }

  lemma TailReads(n: nat, rest: string)
    ensures ReadCommands(Tail(n, rest)) ==
      Prepend(Down(1), Prepend(Across(-(n as int)), Prepend(ClosePath, ReadCommands(rest))))
  {
    var close := "z" + rest;
    var back := "-" + (Itoa(n) + close);
    ReadsClose(rest);
    ReadIntReads(n, close);
    ReadsAcross(back, -(n as int), close);
    ReadIntReads(1, "h" + back);
    ReadsDown(Itoa(1) + ("h" + back), 1, "h" + back);
  }

  lemma HeadReads(x: nat, y: nat, n: nat, rest: string)
    requires rest != "" && !IsDigit(rest[0])
    ensures ReadCommands("M" + (Itoa(x) + (" " + (Itoa(y) + ("h" + (Itoa(n) + rest)))))) ==
      Prepend(MoveTo(x, y), Prepend(Across(n), ReadCommands(rest)))
  {
    var across := "h" + (Itoa(n) + rest);
    ReadIntReads(n, rest);
    ReadsAcross(Itoa(n) + rest, n, rest);
    ReadIntReads(y, across);
    ReadIntReads(x, " " + (Itoa(y) + across));
    ReadsMove(Itoa(x) + (" " + (Itoa(y) + across)), x, Itoa(y) + across, y, across);
  }

  lemma SegmentReads(r: Run, rest: string, cs: seq<Command>)
    requires ReadCommands(rest) == Some(cs)
    ensures ReadCommands(Segment(r) + rest) == Some(CommandsOf(r) + cs)
  {
    TailReads(r.length, rest);
    HeadReads(r.x + QUIET_ZONE, r.y + QUIET_ZONE, r.length, Tail(r.length, rest));
    SegmentGrouped(r, rest);
    HalvesMeet(r, cs, ReadCommands(Tail(r.length, rest)), ReadCommands(Segment(r) + rest));
  }

  lemma HalvesMeet(r: Run, cs: seq<Command>, tail: Option<seq<Command>>, whole: Option<seq<Command>>)
    requires tail == Prepend(Down(1), Prepend(Across(-(r.length as int)), Prepend(ClosePath, Some(cs))))
    requires whole == Prepend(MoveTo(r.x + QUIET_ZONE, r.y + QUIET_ZONE), Prepend(Across(r.length), tail))
    ensures whole == Some(CommandsOf(r) + cs)
  {
    FiveInFront(CommandsOf(r), cs);
  }

  lemma FiveInFront(c: seq<Command>, cs: seq<Command>)
    requires |c| == 5
    ensures [c[0]] + ([c[1]] + ([c[2]] + ([c[3]] + ([c[4]] + cs)))) == c + cs
  {
  }

  lemma DrawsOne(r: Run, cs: seq<Command>, rects: seq<Rect>)
    requires r.length > 0 && Draw(cs) == Some(rects)
    ensures Draw(CommandsOf(r) + cs) == Some([RectOf(r)] + rects)
  {
    assert (CommandsOf(r) + cs)[5..] == cs;
  }

  // Reading the path data of any runs gives those runs as rectangles.
  lemma {:induction false} PathReadsBack(runs: seq<Run>) returns (cs: seq<Command>)
    requires forall i :: 0 <= i < |runs| ==> runs[i].length > 0
    ensures ReadCommands(Path(runs)) == Some(cs) && Draw(cs) == Some(RectsOf(runs))
  {
    if runs == [] {
      cs := [];
    } else {
      var rest := PathReadsBack(runs[1..]);
      SegmentReads(runs[0], Path(runs[1..]), rest);
      DrawsOne(runs[0], rest, RectsOf(runs[1..]));
      cs := CommandsOf(runs[0]) + rest;
    }
  }

  /* ── The round trip ──────────────────────────────────────────────────── */

  // What the rendered path means: a list of rectangles, or nothing.
  function Rendered(code: Code): Option<seq<Rect>> {
    match ReadCommands(Path(RunsFrom(code, 0)))
    case Some(cs) => Draw(cs)
    case None => None
  }

  ghost predicate Filled(rects: seq<Rect>, x: int, y: int) {
    exists i :: 0 <= i < |rects| && Fills(rects[i], x, y)
  }

  lemma RenderedIsRects(code: Code)
    ensures Rendered(code) == Some(RectsOf(RunsFrom(code, 0)))
  {
    RunsAreExact(code, 0);
    var cs := PathReadsBack(RunsFrom(code, 0));
  }

  // Reading the rendered path back fills exactly the dark modules, each four to the right and
  // four down of its place in the matrix.
  lemma RenderingFillsTheDarkModules(code: Code, x: nat, y: nat)
    requires x < code.size && y < code.size
    ensures Rendered(code).Some?
    ensures code.black(x, y) <==> Filled(Rendered(code).value, x + 4, y + 4)
  {
    RenderedIsRects(code);
    RunsAreExact(code, 0);
    var runs, rects := RunsFrom(code, 0), RectsOf(RunsFrom(code, 0));
    if code.black(x, y) {
      var i :| 0 <= i < |runs| && Covers(runs[i], x, y);
      assert Fills(rects[i], x + QUIET_ZONE, y + QUIET_ZONE);
    }
    forall i | 0 <= i < |rects| && Fills(rects[i], x + QUIET_ZONE, y + QUIET_ZONE)
      ensures code.black(x, y)
    {
      assert Covers(runs[i], x, y) && Maximal(code, runs[i]);
    }
  }

  // No point is drawn twice, and nothing is drawn in the margin.
  lemma RenderingIsDisjoint(code: Code, x: int, y: int)
    ensures Rendered(code).Some?
    ensures var rects := Rendered(code).value;
      forall i :: 0 <= i < |rects| && Fills(rects[i], x, y) ==>
        && 4 <= x < code.size + 4 && 4 <= y < code.size + 4
        && forall j :: 0 <= j < |rects| && Fills(rects[j], x, y) ==> i == j
  {
    RenderedIsRects(code);
    RunsAreExact(code, 0);
    var runs, rects := RunsFrom(code, 0), Rendered(code).value;
    forall i | 0 <= i < |rects| && Fills(rects[i], x, y)
      ensures QUIET_ZONE <= x < code.size + QUIET_ZONE && QUIET_ZONE <= y < code.size + QUIET_ZONE
    {
      assert Maximal(code, runs[i]);
    }
    forall i, j | 0 <= i < |rects| && Fills(rects[i], x, y) && 0 <= j < |rects| && Fills(rects[j], x, y)
      ensures i == j
    {
      assert Maximal(code, runs[i]);
      assert Covers(runs[i], x - QUIET_ZONE, y - QUIET_ZONE) && Covers(runs[j], x - QUIET_ZONE, y - QUIET_ZONE);
      InOrderRunsAreDisjoint(runs, i, j, x - QUIET_ZONE, y - QUIET_ZONE);
    }
  }
}
