/** Importing a whole CSV file of logins in the browser. */
module CsvImport {
  import opened Csv

  /* ── Lines ───────────────────────────────────────────────────────────── */

  // split(/\r?\n/), with the line gathered so far.
  function Break(text: string, current: string): (lines: seq<string>)
    ensures |lines| >= 1
    decreases |text|
  {
    if text == "" then [current]
    else if text[0] == '\n' then [current] + Break(text[1..], "")
    else if text[0] == '\r' && |text| > 1 && text[1] == '\n' then [current] + Break(text[2..], "")
    else Break(text[1..], current + [text[0]])
  }

  function Lines(text: string): seq<string> { Break(text, "") }

  function NonBlank(lines: seq<string>): seq<string> {
    if lines == [] then []
    else (if Trim(lines[0]) != "" then [lines[0]] else []) + NonBlank(lines[1..])
  }

  function Rows(lines: seq<string>): (rows: seq<seq<string>>)
    ensures |rows| == |lines| && forall j :: 0 <= j < |rows| ==> rows[j] == Tokens(lines[j])
  {
    if lines == [] then [] else [Tokens(lines[0])] + Rows(lines[1..])
  }

  // The records a text is taken to hold.
  function Records(text: string): seq<seq<string>> { Rows(NonBlank(Lines(text))) }

  /* ── Columns and entries ─────────────────────────────────────────────── */

  datatype Columns = Columns(title: int, url: int, user: int, pass: int, notes: int)
  datatype Entry = Entry(title: string, url: string, username: string, value: string, notes: string)

  function IndexOf(headers: seq<string>, name: string): (idx: int)
    ensures -1 <= idx < |headers|
    ensures idx >= 0 ==> headers[idx] == name && name !in headers[..idx]
    ensures idx == -1 ==> name !in headers
  {
    if headers == [] then -1
    else if headers[0] == name then 0
    else var rest := IndexOf(headers[1..], name); if rest == -1 then -1 else rest + 1
  }

  // The first candidate that names a column.
  function ColIdx(headers: seq<string>, candidates: seq<string>): (idx: int)
    ensures -1 <= idx < |headers|
  {
    if candidates == [] then -1
    else if IndexOf(headers, candidates[0]) != -1 then IndexOf(headers, candidates[0])
    else ColIdx(headers, candidates[1..])
  }

  // Candidate k names a column, none before it does, and idx is the first so named.
  predicate Chosen(headers: seq<string>, candidates: seq<string>, idx: nat, k: nat) {
    && idx < |headers| && k < |candidates| && headers[idx] == candidates[k]
    && candidates[k] !in headers[..idx] && forall i :: 0 <= i < k ==> candidates[i] !in headers
  }

  lemma {:induction false} ColIdxIsTheFirst(headers: seq<string>, candidates: seq<string>)
    ensures var idx := ColIdx(headers, candidates);
      if idx == -1 then forall k :: 0 <= k < |candidates| ==> candidates[k] !in headers
      else exists k: nat :: Chosen(headers, candidates, idx, k)
  {
    if candidates != [] {
      if IndexOf(headers, candidates[0]) != -1 {
        assert Chosen(headers, candidates, IndexOf(headers, candidates[0]), 0);
      } else {
        ColIdxIsTheFirst(headers, candidates[1..]);
        var idx := ColIdx(headers, candidates[1..]);
        if idx != -1 {
          var k: nat :| Chosen(headers, candidates[1..], idx, k);
          assert Chosen(headers, candidates, idx, k + 1);
        }
      }
    }
  }

  function ColumnsOf(headers: seq<string>): Columns {
    Columns(ColIdx(headers, ["name", "title", "folder"]),
            ColIdx(headers, ["url", "login_uri", "uri", "website", "formactionorigin"]),
            ColIdx(headers, ["username", "login_username", "user", "login", "email"]),
            ColIdx(headers, ["password", "login_password", "pass"]),
            ColIdx(headers, ["notes", "note"]))
  }

  // A missing column or cell reads as the empty string.
  function Cell(cols: seq<string>, idx: int): string {
    if 0 <= idx < |cols| then cols[idx] else ""
  }

  // The page's own helpers for host names and case.
  datatype Helpers = Helpers(lower: string -> string, cleanDomain: string -> string)

  function Or(a: string, b: string): string { if a != "" then a else b }

  function EntryOf(h: Helpers, c: Columns, cols: seq<string>): Entry {
    Entry(Or(Or(Cell(cols, c.title), h.cleanDomain(Cell(cols, c.url))), "Imported Account"),
          Cell(cols, c.url), Cell(cols, c.user), Cell(cols, c.pass), Cell(cols, c.notes))
  }

  // One entry per row with a password.
  function Entries(h: Helpers, c: Columns, rows: seq<seq<string>>): seq<Entry> {
    if rows == [] then []
    else
      var last := rows[|rows| - 1];
      Entries(h, c, rows[..|rows| - 1]) + (if Cell(last, c.pass) != "" then [EntryOf(h, c, last)] else [])
  }

  function Import(h: Helpers, records: seq<seq<string>>): seq<Entry> {
    if |records| < 2 then []
    else
      var c := ColumnsOf(Map(h.lower, records[0]));
      if c.pass == -1 then [] else Entries(h, c, records[1..])
  }

  // The rows after the header, one entry for each that has a password.
  method ImportRows(lines: seq<string>, c: Columns, h: Helpers) returns (results: seq<Entry>)
    requires |lines| >= 1
    ensures results == Entries(h, c, Rows(lines)[1..])
  {
    ghost var rows := Rows(lines)[1..];
    results := [];
    var i := 1;
    while i < |lines|
      invariant 1 <= i <= |lines|
      invariant results == Entries(h, c, rows[..i - 1])
    {
      var cols := TokenizeLine(lines[i]);
      assert rows[..i][..i - 1] == rows[..i - 1] && rows[..i][i - 1] == cols;
      if Cell(cols, c.pass) != "" {
        results := results + [EntryOf(h, c, cols)];
      }
      i := i + 1;
    }
    assert rows[..i - 1] == rows;
  }

  method ParseClientCSV(text: string, h: Helpers) returns (results: seq<Entry>)
    ensures results == Import(h, Records(text))
  {
    var lines := NonBlank(Lines(text));
    if |lines| < 2 {
      return [];
    }
    var first := TokenizeLine(lines[0]);
    var c := ColumnsOf(Map(h.lower, first));
    if c.pass == -1 {
      return [];
    }
    results := ImportRows(lines, c, h);
  }

  /* ── Reading back a file of the standard ─────────────────────────────── */

  datatype Row = Row(fields: seq<string>, quoted: seq<bool>)

  predicate OneLine(r: Row) { forall j :: 0 <= j < |r.fields| ==> '\n' !in r.fields[j] }

  predicate AllTidy(r: Row) { forall j :: 0 <= j < |r.fields| ==> Tidy(r.fields[j]) }

  // A row on one line, all of whose fields survive cleaning, and whose line is not blank.
  predicate Portable(r: Row) {
    && Allowed(r.fields, r.quoted) && OneLine(r) && AllTidy(r)
    && (|r.fields| > 1 || r.quoted[0] || r.fields[0] != "")
  }

  predicate AllAllowed(rows: seq<Row>) {
    forall j :: 0 <= j < |rows| ==> Allowed(rows[j].fields, rows[j].quoted)
  }

  // Any file of the standard: each record ends with CRLF.
  function EncodeFile(rows: seq<Row>): string
    requires AllAllowed(rows)
  {
    if rows == [] then ""
    else EncodeLine(rows[0].fields, rows[0].quoted) + "\r\n" + EncodeFile(rows[1..])
  }

  function FieldsOf(rows: seq<Row>): (records: seq<seq<string>>)
    ensures |records| == |rows| && forall j :: 0 <= j < |rows| ==> records[j] == rows[j].fields
  {
    if rows == [] then [] else [rows[0].fields] + FieldsOf(rows[1..])
  }

  lemma {:induction false} BreakLine(line: string, rest: string, current: string)
    requires '\n' !in line
    ensures Break(line + "\r\n" + rest, current) == [current + line] + Break(rest, "")
    decreases |line|
  {
    var text := line + "\r\n" + rest;
    if line == "" {
      assert text == "\r\n" + rest && text[2..] == rest && current + line == current;
    } else {
      assert text[1..] == line[1..] + "\r\n" + rest;
      assert text[1] == if |line| > 1 then line[1] else '\r';
      BreakLine(line[1..], rest, current + [line[0]]);
      assert current + [line[0]] + line[1..] == current + line;
    }
  }

  lemma {:induction false} DoubleAddsNoBreak(s: string)
    requires '\n' !in s
    ensures '\n' !in Double(s)
  {
    if s != "" {
      DoubleAddsNoBreak(s[1..]);
    }
  }

  lemma {:induction false} EncodedLineHasNoBreak(fields: seq<string>, quoted: seq<bool>)
    requires Allowed(fields, quoted)
    requires forall j :: 0 <= j < |fields| ==> '\n' !in fields[j]
    ensures '\n' !in EncodeLine(fields, quoted)
    decreases |fields|
  {
    DoubleAddsNoBreak(fields[0]);
    if |fields| > 1 {
      EncodedLineHasNoBreak(fields[1..], quoted[1..]);
    }
  }

  lemma {:induction false} TrimLeftKeeps(s: string, j: nat)
    requires j < |s| && !IsSpace(s[j])
    ensures TrimLeft(s) != "" && !IsSpace(TrimLeft(s)[0])
  {
    if IsSpace(s[0]) {
      TrimLeftKeeps(s[1..], j - 1);
    }
  }

  lemma {:induction false} TrimRightKeeps(s: string, j: nat)
    requires j < |s| && !IsSpace(s[j])
    ensures TrimRight(s) != ""
  {
    if IsSpace(s[|s| - 1]) {
      TrimRightKeeps(s[..|s| - 1], j);
    }
  }

  lemma VisibleIsNotBlank(s: string, j: nat)
    requires j < |s| && !IsSpace(s[j])
    ensures Trim(s) != ""
  {
    TrimLeftKeeps(s, j);
    TrimRightKeeps(TrimLeft(s), 0);
  }

  lemma PortableIsNotBlank(r: Row)
    requires Portable(r)
    ensures Trim(EncodeLine(r.fields, r.quoted)) != ""
  {
    var line := EncodeLine(r.fields, r.quoted);
    var first := EncodeField(r.fields[0], r.quoted[0]);
    if r.quoted[0] {
      assert line[0] == '"';
      VisibleIsNotBlank(line, 0);
    } else if |r.fields| > 1 {
      assert line[|first|] == ',';
      VisibleIsNotBlank(line, |first|);
    } else {
      assert line[0] == r.fields[0][0];
      VisibleIsNotBlank(line, 0);
    }
  }

  lemma BlankOrPortable(r: Row)
    requires Allowed(r.fields, r.quoted) && OneLine(r)
    ensures Portable(r) <==> Trim(EncodeLine(r.fields, r.quoted)) != "" && AllTidy(r)
  {
    if Portable(r) {
      PortableIsNotBlank(r);
    } else if AllTidy(r) {
      assert EncodeLine(r.fields, r.quoted) == "";
    }
  }

  // The records of a file, if its first record takes one line.
  lemma FirstRecord(rows: seq<Row>)
    requires rows != [] && AllAllowed(rows) && OneLine(rows[0])
    ensures var rest := Records(EncodeFile(rows[1..]));
      Records(EncodeFile(rows)) ==
        (if Trim(EncodeLine(rows[0].fields, rows[0].quoted)) != "" then [Map(Clean, rows[0].fields)] else []) + rest
  {
    var line := EncodeLine(rows[0].fields, rows[0].quoted);
    var rest := EncodeFile(rows[1..]);
    EncodedLineHasNoBreak(rows[0].fields, rows[0].quoted);
    BreakLine(line, rest, "");
    assert "" + line == line;
    TokensInvertEncoding(rows[0].fields, rows[0].quoted);
    var all := [line] + Lines(rest);
    assert all[1..] == Lines(rest);
    assert ([line] + NonBlank(Lines(rest)))[1..] == NonBlank(Lines(rest));
  }

  // Without line breaks in fields, records can only be dropped or cleaned.
  lemma {:induction false} OneLineRecords(rows: seq<Row>)
    requires AllAllowed(rows) && forall j :: 0 <= j < |rows| ==> OneLine(rows[j])
    ensures |Records(EncodeFile(rows))| <= |rows|
    ensures Records(EncodeFile(rows)) == FieldsOf(rows) <==> forall j :: 0 <= j < |rows| ==> Portable(rows[j])
  {
    if rows == [] {
      assert Lines("") == [""];
    } else {
      var rest := rows[1..];
      OneLineRecords(rest);
      FirstRecord(rows);
      BlankOrPortable(rows[0]);
      TokensInvertEncoding(rows[0].fields, rows[0].quoted);
      PortableAllButFirst(rows);
      var first := Map(Clean, rows[0].fields);
      assert ([first] + Records(EncodeFile(rest)))[0] == first;
      assert ([first] + Records(EncodeFile(rest)))[1..] == Records(EncodeFile(rest));
      assert FieldsOf(rows)[1..] == FieldsOf(rest);
    }
  }

  lemma PortableAllButFirst(rows: seq<Row>)
    requires rows != []
    ensures (forall j :: 0 <= j < |rows| ==> Portable(rows[j])) <==>
      Portable(rows[0]) && forall j :: 0 <= j < |rows[1..]| ==> Portable(rows[1..][j])
  {
    if Portable(rows[0]) && forall j :: 0 <= j < |rows[1..]| ==> Portable(rows[1..][j]) {
      forall j | 0 <= j < |rows| ensures Portable(rows[j]) {
        if j > 0 { assert rows[j] == rows[1..][j - 1]; }
      }
    }
  }

  lemma {:induction false} LinesHaveNoBreak(text: string, current: string)
    requires '\n' !in current
    ensures forall j :: 0 <= j < |Break(text, current)| ==> '\n' !in Break(text, current)[j]
    decreases |text|
  {
    if text != "" {
      if text[0] == '\n' {
        LinesHaveNoBreak(text[1..], "");
      } else if text[0] == '\r' && |text| > 1 && text[1] == '\n' {
        LinesHaveNoBreak(text[2..], "");
      } else {
        LinesHaveNoBreak(text[1..], current + [text[0]]);
      }
    }
  }

  lemma {:induction false} NonBlankAreLines(lines: seq<string>)
    ensures forall j :: 0 <= j < |NonBlank(lines)| ==> NonBlank(lines)[j] in lines
  {
    if lines != [] {
      NonBlankAreLines(lines[1..]);
    }
  }

  lemma {:induction false} ScanAddsNoBreak(s: string, current: string, inside: bool)
    requires '\n' !in s && '\n' !in current
    ensures forall j :: 0 <= j < |Scan(s, current, inside)| ==> '\n' !in Scan(s, current, inside)[j]
    decreases |s|
  {
    if s != "" {
      if s[0] == '"' {
        if inside && |s| > 1 && s[1] == '"' {
          ScanAddsNoBreak(s[2..], current + ['"'], inside);
        } else {
          ScanAddsNoBreak(s[1..], current, !inside);
        }
      } else if s[0] == ',' && !inside {
        ScanAddsNoBreak(s[1..], "", inside);
      } else {
        ScanAddsNoBreak(s[1..], current + [s[0]], inside);
      }
    }
  }

  lemma {:induction false} TrimLeftAddsNoBreak(s: string)
    requires '\n' !in s
    ensures '\n' !in TrimLeft(s)
  {
    if s != "" { TrimLeftAddsNoBreak(s[1..]); }
  }

  lemma {:induction false} TrimRightAddsNoBreak(s: string)
    requires '\n' !in s
    ensures '\n' !in TrimRight(s)
  {
    if s != "" { TrimRightAddsNoBreak(s[..|s| - 1]); }
  }

  lemma CleanAddsNoBreak(s: string)
    requires '\n' !in s
    ensures '\n' !in Clean(s)
  {
    TrimLeftAddsNoBreak(s);
    TrimRightAddsNoBreak(TrimLeft(s));
    var t := StripQuotes(Trim(s));
    TrimLeftAddsNoBreak(t);
    TrimRightAddsNoBreak(TrimLeft(t));
  }

  // No cell that is read holds a line break, whatever the text.
  lemma RecordsAreOneLine(text: string, j: nat, k: nat)
    requires j < |Records(text)| && k < |Records(text)[j]|
    ensures '\n' !in Records(text)[j][k]
  {
    var lines := NonBlank(Lines(text));
    LinesHaveNoBreak(text, "");
    NonBlankAreLines(Lines(text));
    ScanAddsNoBreak(lines[j], "", false);
    CleanAddsNoBreak(Scan(lines[j], "", false)[k]);
  }

  // A file of the standard reads back field for field if and only if each record is on one
  // line and not blank, and its fields have no outer white space and no outer quotes.
  lemma RecordsInvertFile(rows: seq<Row>)
    requires AllAllowed(rows)
    ensures Records(EncodeFile(rows)) == FieldsOf(rows) <==> forall j :: 0 <= j < |rows| ==> Portable(rows[j])
  {
    if forall j :: 0 <= j < |rows| ==> OneLine(rows[j]) {
      OneLineRecords(rows);
    } else {
      var j, k :| 0 <= j < |rows| && 0 <= k < |rows[j].fields| && '\n' in rows[j].fields[k];
      QuotedLineBreakSplitsTheRecord(rows, j, k);
      assert !Portable(rows[j]);
    }
  }

  // The standard allows a line break inside quotes; no file that has one reads back.
  lemma QuotedLineBreakSplitsTheRecord(rows: seq<Row>, j: nat, k: nat)
    requires AllAllowed(rows) && j < |rows| && k < |rows[j].fields| && '\n' in rows[j].fields[k]
    ensures Records(EncodeFile(rows)) != FieldsOf(rows)
  {
    if Records(EncodeFile(rows)) == FieldsOf(rows) {
      RecordsAreOneLine(EncodeFile(rows), j, k);
    }
  }

  /* ── What is imported ────────────────────────────────────────────────── */

  datatype Login = Login(title: string, url: string, username: string, password: string, notes: string)

  // A record holds a login under the columns of its file.
  predicate Holds(c: Columns, cols: seq<string>, l: Login) {
    && Cell(cols, c.title) == l.title && Cell(cols, c.url) == l.url && Cell(cols, c.user) == l.username
    && Cell(cols, c.pass) == l.password && Cell(cols, c.notes) == l.notes
  }

  function WithPassword(logins: seq<Login>): (kept: seq<Login>)
    ensures forall l :: l in kept <==> l in logins && l.password != ""
  {
    if logins == [] then []
    else
      var last := logins[|logins| - 1];
      WithPassword(logins[..|logins| - 1]) + (if last.password != "" then [last] else [])
  }

  // Its own title, or else its site, or else a fixed one.
  function Title(h: Helpers, l: Login): string {
    if l.title != "" then l.title
    else if h.cleanDomain(l.url) != "" then h.cleanDomain(l.url)
    else "Imported Account"
  }

  function Imported(h: Helpers, logins: seq<Login>): (entries: seq<Entry>)
    ensures |entries| == |logins| && forall k :: 0 <= k < |logins| ==>
      entries[k] == Entry(Title(h, logins[k]), logins[k].url, logins[k].username, logins[k].password, logins[k].notes)
  {
    if logins == [] then []
    else
      var l := logins[|logins| - 1];
      Imported(h, logins[..|logins| - 1]) + [Entry(Title(h, l), l.url, l.username, l.password, l.notes)]
  }

  lemma EntryOfLogin(h: Helpers, c: Columns, cols: seq<string>, l: Login)
    requires Holds(c, cols, l)
    ensures EntryOf(h, c, cols) == Entry(Title(h, l), l.url, l.username, l.password, l.notes)
  {
  }

  lemma OneMoreImported(h: Helpers, kept: seq<Login>, l: Login)
    ensures Imported(h, kept + [l]) ==
      Imported(h, kept) + [Entry(Title(h, l), l.url, l.username, l.password, l.notes)]
  {
    assert (kept + [l])[..|kept|] == kept;
  }

  lemma {:induction false} EntriesOfLogins(h: Helpers, c: Columns, rows: seq<seq<string>>, logins: seq<Login>)
    requires |rows| == |logins| && forall j :: 0 <= j < |rows| ==> Holds(c, rows[j], logins[j])
    ensures Entries(h, c, rows) == Imported(h, WithPassword(logins))
    decreases |rows|
  {
    if rows != [] {
      var n := |rows| - 1;
      EntriesOfLogins(h, c, rows[..n], logins[..n]);
      EntryOfLogin(h, c, rows[n], logins[n]);
      OneMoreImported(h, WithPassword(logins[..n]), logins[n]);
    }
  }

  // Logins exported under a header that names a password column come back: those with a
  // password, in order, each under its title or what stands in for it.
  lemma ImportInvertsExport(h: Helpers, rows: seq<Row>, logins: seq<Login>)
    requires |rows| == |logins| + 1 && AllAllowed(rows) && forall j :: 0 <= j < |rows| ==> Portable(rows[j])
    requires var c := ColumnsOf(Map(h.lower, rows[0].fields));
      c.pass != -1 && forall j :: 0 <= j < |logins| ==> Holds(c, rows[j + 1].fields, logins[j])
    ensures Import(h, Records(EncodeFile(rows))) == Imported(h, WithPassword(logins))
  {
    RecordsInvertFile(rows);
    var records := FieldsOf(rows);
    if logins != [] {
      EntriesOfLogins(h, ColumnsOf(Map(h.lower, rows[0].fields)), records[1..], logins);
    }
  }

  // A plain export names its columns so.
  lemma PlainHeaderNamesTheColumns()
    ensures var header := ["name", "url", "username", "password", "notes"];
      ColumnsOf(header) == Columns(0, 1, 2, 3, 4)
  {
    var header := ["name", "url", "username", "password", "notes"];
    assert IndexOf(header, "name") == 0;
    assert IndexOf(header, "url") == 1;
    assert IndexOf(header, "username") == 2;
    assert IndexOf(header, "password") == 3;
    assert IndexOf(header, "notes") == 4;
  }

  // An export of Bitwarden names the columns of a login with "login_" in front.
  lemma LoginHeaderNamesTheColumns()
    ensures var header := ["name", "login_uri", "login_username", "login_password", "notes"];
      ColumnsOf(header) == Columns(0, 1, 2, 3, 4)
  {
    var header := ["name", "login_uri", "login_username", "login_password", "notes"];
    assert IndexOf(header, "name") == 0 && IndexOf(header, "notes") == 4;
    assert IndexOf(header, "url") == -1 && IndexOf(header, "login_uri") == 1;
    assert IndexOf(header, "username") == -1 && IndexOf(header, "login_username") == 2;
    assert IndexOf(header, "password") == -1 && IndexOf(header, "login_password") == 3;
  }

  lemma {:induction false} OneHeader(name: string, candidates: seq<string>)
    ensures ColIdx([name], candidates) == if name in candidates then 0 else -1
  {
    if candidates != [] {
      assert [name][1..] == [];
      OneHeader(name, candidates[1..]);
    }
  }

  // The names each column goes by.
  lemma EachColumnHasItsNames(name: string)
    ensures var c := ColumnsOf([name]);
      && (c.title == 0 <==> name in ["name", "title", "folder"])
      && (c.url == 0 <==> name in ["url", "login_uri", "uri", "website", "formactionorigin"])
      && (c.user == 0 <==> name in ["username", "login_username", "user", "login", "email"])
      && (c.pass == 0 <==> name in ["password", "login_password", "pass"])
      && (c.notes == 0 <==> name in ["notes", "note"])
  {
    OneHeader(name, ["name", "title", "folder"]);
    OneHeader(name, ["url", "login_uri", "uri", "website", "formactionorigin"]);
    OneHeader(name, ["username", "login_username", "user", "login", "email"]);
    OneHeader(name, ["password", "login_password", "pass"]);
    OneHeader(name, ["notes", "note"]);
  }

  // kept are the logins at these places, in order, and every login with a password is among them.
  ghost predicate InOrder(logins: seq<Login>, kept: seq<Login>, at: seq<nat>) {
    && |at| == |kept|
    && (forall i :: 0 <= i < |at| ==> at[i] < |logins| && kept[i] == logins[at[i]])
    && (forall i, j :: 0 <= i < j < |at| ==> at[i] < at[j])
    && (forall k :: 0 <= k < |logins| && logins[k].password != "" ==> k in at)
  }

  lemma OneMoreKept(logins: seq<Login>, last: Login, kept: seq<Login>, at: seq<nat>)
    requires InOrder(logins, kept, at)
    ensures InOrder(logins + [last], kept + [last], at + [|logins|])
  {
    var all, places := logins + [last], at + [|logins|];
    forall k | 0 <= k < |all| && all[k].password != "" ensures k in places {
      if k < |logins| { assert logins[k] == all[k] && k in at; } else { assert places[|at|] == k; }
    }
  }

  lemma NoMoreKept(logins: seq<Login>, last: Login, kept: seq<Login>, at: seq<nat>)
    requires InOrder(logins, kept, at) && last.password == ""
    ensures InOrder(logins + [last], kept, at)
  {
    var all := logins + [last];
    forall k | 0 <= k < |all| && all[k].password != "" ensures k in at {
      assert k < |logins| && logins[k] == all[k];
    }
  }

  lemma {:induction false} WithPasswordKeepsOrder(logins: seq<Login>) returns (at: seq<nat>)
    ensures InOrder(logins, WithPassword(logins), at)
  {
    if logins == [] {
      at := [];
    } else {
      var n := |logins| - 1;
      at := WithPasswordKeepsOrder(logins[..n]);
      assert logins == logins[..n] + [logins[n]];
      if logins[n].password != "" {
        OneMoreKept(logins[..n], logins[n], WithPassword(logins[..n]), at);
        at := at + [n];
      } else {
        NoMoreKept(logins[..n], logins[n], WithPassword(logins[..n]), at);
        assert WithPassword(logins[..n]) + [] == WithPassword(logins[..n]);
      }
    }
  }
}
