/** The browser's CSV reader, against the format of section 2 of RFC 4180. */
module Csv {

  /* ── Trimming ────────────────────────────────────────────────────────── */

  // White space and line terminators as String.prototype.trim sees them.
  predicate IsSpace(c: char) {
    var n := c as int;
    || 9 <= n <= 13 || n == 0x20 || n == 0xA0 || n == 0x1680 || 0x2000 <= n <= 0x200A
    || n == 0x2028 || n == 0x2029 || n == 0x202F || n == 0x205F || n == 0x3000 || n == 0xFEFF
  }

  predicate IsQuote(c: char) { c == '"' || c == '\'' }

  function TrimLeft(s: string): string {
    if s != "" && IsSpace(s[0]) then TrimLeft(s[1..]) else s
  }

  function TrimRight(s: string): string {
    if s != "" && IsSpace(s[|s| - 1]) then TrimRight(s[..|s| - 1]) else s
  }

  function Trim(s: string): string { TrimRight(TrimLeft(s)) }

  // replace(/^["']|["']$/g, "")
  function StripQuotes(s: string): string {
    var t := if s != "" && IsQuote(s[0]) then s[1..] else s;
    if t != "" && IsQuote(t[|t| - 1]) then t[..|t| - 1] else t
  }

  // What becomes of a raw token.
  function Clean(token: string): string { Trim(StripQuotes(Trim(token))) }

  // No outer white space, no outer quote character.
  predicate Tidy(s: string) {
    s != "" ==> !IsSpace(s[0]) && !IsSpace(s[|s| - 1]) && !IsQuote(s[0]) && !IsQuote(s[|s| - 1])
  }

  lemma {:induction false} TrimLeftShrinks(s: string)
    ensures TrimLeft(s) == s || |TrimLeft(s)| < |s|
    ensures TrimLeft(s) == s <==> (s == "" || !IsSpace(s[0]))
  {
    if s != "" && IsSpace(s[0]) {
      TrimLeftShrinks(s[1..]);
    }
  }

  lemma {:induction false} TrimRightShrinks(s: string)
    ensures TrimRight(s) == s || |TrimRight(s)| < |s|
    ensures TrimRight(s) == s <==> (s == "" || !IsSpace(s[|s| - 1]))
  {
    if s != "" && IsSpace(s[|s| - 1]) {
      TrimRightShrinks(s[..|s| - 1]);
    }
  }

  lemma TrimShrinks(s: string)
    ensures Trim(s) == s || |Trim(s)| < |s|
    ensures Trim(s) == s <==> s == "" || (!IsSpace(s[0]) && !IsSpace(s[|s| - 1]))
  {
    TrimLeftShrinks(s);
    TrimRightShrinks(TrimLeft(s));
  }

  // Cleaning keeps exactly the tidy fields.
  lemma CleanKeepsTidy(s: string)
    ensures Clean(s) == s <==> Tidy(s)
  {
    TrimShrinks(s);
    TrimShrinks(StripQuotes(Trim(s)));
    assert StripQuotes(Trim(s)) == Trim(s) || |StripQuotes(Trim(s))| < |Trim(s)|;
  }

  predicate Blank(s: string) { forall j :: 0 <= j < |s| ==> IsSpace(s[j]) }

  // Trimming takes all the white space around a text and no more.
  lemma {:induction false} TrimLeftTakes(blank: string, s: string)
    requires Blank(blank) && (s == "" || !IsSpace(s[0]))
    ensures TrimLeft(blank + s) == s
  {
    if blank == "" {
      assert blank + s == s;
    } else {
      assert (blank + s)[1..] == blank[1..] + s;
      TrimLeftTakes(blank[1..], s);
    }
  }

  lemma {:induction false} TrimRightTakes(s: string, blank: string)
    requires Blank(blank) && (s == "" || !IsSpace(s[|s| - 1]))
    ensures TrimRight(s + blank) == s
  {
    if blank == "" {
      assert s + blank == s;
    } else {
      assert (s + blank)[..|s + blank| - 1] == s + blank[..|blank| - 1];
      TrimRightTakes(s, blank[..|blank| - 1]);
    }
  }

  lemma TrimTakes(before: string, s: string, after: string)
    requires Blank(before) && Blank(after) && s != "" && !IsSpace(s[0]) && !IsSpace(s[|s| - 1])
    ensures Trim(before + s + after) == s
  {
    assert before + s + after == before + (s + after);
    TrimLeftTakes(before, s + after);
    TrimRightTakes(s, after);
  }

  // So cleaning takes white space, one quote at either end, and white space within these.
  lemma CleanPeels(a: string, open: string, b: string, s: string, c: string, close: string, d: string)
    requires Blank(a) && Blank(b) && Blank(c) && Blank(d) && s != "" && Tidy(s)
    requires |open| == 1 && IsQuote(open[0]) && |close| == 1 && IsQuote(close[0])
    ensures Clean(a + s + d) == s
    ensures Clean(a + (open + (b + s + c) + close) + d) == s
  {
    TrimTakes(a, s, d);
    CleanKeepsTidy(s);
    var quoted, inner := open + (b + s + c) + close, b + s + c;
    assert quoted[0] == open[0] && quoted[|quoted| - 1] == close[0];
    TrimTakes(a, quoted, d);
    assert quoted[1..] == inner + close && (inner + close)[..|inner|] == inner;
    TrimTakes(b, s, c);
    TrimTakes("", s, "");
    assert "" + s + "" == s;
  }

  /* ── The tokenizer ───────────────────────────────────────────────────── */

  // The raw tokens still to come, given the one being gathered.
  function Scan(s: string, current: string, inside: bool): (tokens: seq<string>)
    ensures |tokens| >= 1
    decreases |s|
  {
    if s == "" then [current]
    else if s[0] == '"' then
      if inside && |s| > 1 && s[1] == '"' then Scan(s[2..], current + ['"'], inside)
      else Scan(s[1..], current, !inside)
    else if s[0] == ',' && !inside then [current] + Scan(s[1..], "", inside)
    else Scan(s[1..], current + [s[0]], inside)
  }

  function Map(f: string -> string, tokens: seq<string>): (out: seq<string>)
    ensures |out| == |tokens| && forall j :: 0 <= j < |out| ==> out[j] == f(tokens[j])
  {
    seq(|tokens|, j requires 0 <= j < |tokens| => f(tokens[j]))
  }

  function Tokens(line: string): seq<string> { Map(Clean, Scan(line, "", false)) }

  method TokenizeLine(line: string) returns (tokens: seq<string>)
    ensures tokens == Tokens(line)
  {
    tokens := [];
    ghost var raw: seq<string> := [];
    var current := "";
    var insideQuotes := false;
    var i := 0;
    while i < |line|
      invariant 0 <= i <= |line|
      invariant raw + Scan(line[i..], current, insideQuotes) == Scan(line, "", false)
      invariant tokens == Map(Trim, raw)
    {
      var c := line[i];
      if c == '"' {
        if insideQuotes && i + 1 < |line| && line[i + 1] == '"' {
          current := current + ['"'];
          i := i + 1;
        } else {
          insideQuotes := !insideQuotes;
        }
      } else if c == ',' && !insideQuotes {
        tokens := tokens + [Trim(current)];
        raw := raw + [current];
        current := "";
      } else {
        current := current + [c];
      }
      i := i + 1;
    }
    tokens := tokens + [Trim(current)];
    raw := raw + [current];
    var k := 0;
    while k < |tokens|
      invariant 0 <= k <= |tokens| == |raw|
      invariant forall j :: 0 <= j < k ==> tokens[j] == Clean(raw[j])
      invariant forall j :: k <= j < |raw| ==> tokens[j] == Trim(raw[j])
    {
      tokens := tokens[k := Trim(StripQuotes(tokens[k]))];
      k := k + 1;
    }
  }

  /* ── The encoder of the standard ─────────────────────────────────────── */

  function Double(s: string): string {
    if s == "" then "" else (if s[0] == '"' then "\"\"" else [s[0]]) + Double(s[1..])
  }

  // Fields with a quote, a comma or a line break must be quoted; others may be.
  predicate MayStandPlain(s: string) {
    forall j :: 0 <= j < |s| ==> s[j] != '"' && s[j] != ',' && s[j] != '\r' && s[j] != '\n'
  }

  function EncodeField(s: string, quoted: bool): string {
    if quoted then "\"" + Double(s) + "\"" else s
  }

  predicate Allowed(fields: seq<string>, quoted: seq<bool>) {
    && |quoted| == |fields| >= 1
    && forall j :: 0 <= j < |fields| ==> quoted[j] || MayStandPlain(fields[j])
  }

  function EncodeLine(fields: seq<string>, quoted: seq<bool>): string
    requires Allowed(fields, quoted)
  {
    if |fields| == 1 then EncodeField(fields[0], quoted[0])
    else EncodeField(fields[0], quoted[0]) + "," + EncodeLine(fields[1..], quoted[1..])
  }

  lemma {:induction false} ScanPlain(s: string, rest: string, current: string)
    requires MayStandPlain(s)
    ensures Scan(s + rest, current, false) == Scan(rest, current + s, false)
    decreases |s|
  {
    if s == "" {
      assert s + rest == rest && current + s == current;
    } else {
      assert (s + rest)[1..] == s[1..] + rest;
      ScanPlain(s[1..], rest, current + [s[0]]);
      assert current + [s[0]] + s[1..] == current + s;
    }
  }

  lemma {:induction false} ScanDoubled(s: string, rest: string, current: string)
    requires rest == "" || rest[0] != '"'
    ensures Scan(Double(s) + "\"" + rest, current, true) == Scan(rest, current + s, false)
    decreases |s|
  {
    var text := Double(s) + "\"" + rest;
    if s == "" {
      assert text == "\"" + rest && text[1..] == rest;
      assert current + s == current;
    } else {
      var tail := Double(s[1..]) + "\"" + rest;
      if s[0] == '"' {
        assert text == "\"\"" + tail && text[2..] == tail;
      } else {
        assert text == [s[0]] + tail && text[1..] == tail;
      }
      ScanDoubled(s[1..], rest, current + [s[0]]);
      assert current + [s[0]] + s[1..] == current + s;
    }
  }

  lemma ScanField(s: string, quoted: bool, rest: string)
    requires quoted || MayStandPlain(s)
    requires rest == "" || rest[0] != '"'
    ensures Scan(EncodeField(s, quoted) + rest, "", false) == Scan(rest, s, false)
  {
    if quoted {
      var text := EncodeField(s, quoted) + rest;
      assert text == "\"" + (Double(s) + "\"" + rest);
      assert text[1..] == Double(s) + "\"" + rest;
      ScanDoubled(s, rest, "");
      assert "" + s == s;
    } else {
      ScanPlain(s, rest, "");
      assert "" + s == s;
    }
  }

  // The tokenizer finds the fields, whatever commas and quotes they hold.
  lemma {:induction false} ScanFindsFields(fields: seq<string>, quoted: seq<bool>)
    requires Allowed(fields, quoted)
    ensures Scan(EncodeLine(fields, quoted), "", false) == fields
    decreases |fields|
  {
    var first := EncodeField(fields[0], quoted[0]);
    if |fields| == 1 {
      ScanField(fields[0], quoted[0], "");
      assert first + "" == first;
    } else {
      var rest := EncodeLine(fields[1..], quoted[1..]);
      ScanField(fields[0], quoted[0], "," + rest);
      assert first + ("," + rest) == EncodeLine(fields, quoted);
      assert ("," + rest)[1..] == rest;
      ScanFindsFields(fields[1..], quoted[1..]);
    }
  }

  // Every encoded record comes back cleaned, and unchanged exactly when each of its
  // fields is free of outer white space and outer quotes.
  lemma TokensInvertEncoding(fields: seq<string>, quoted: seq<bool>)
    requires Allowed(fields, quoted)
    ensures Tokens(EncodeLine(fields, quoted)) == Map(Clean, fields)
    ensures Tokens(EncodeLine(fields, quoted)) == fields <==> forall j :: 0 <= j < |fields| ==> Tidy(fields[j])
  {
    ScanFindsFields(fields, quoted);
    var cleaned := Map(Clean, fields);
    if forall j :: 0 <= j < |fields| ==> Tidy(fields[j]) {
      forall j | 0 <= j < |fields| ensures cleaned[j] == fields[j] {
        CleanKeepsTidy(fields[j]);
      }
    } else {
      var j :| 0 <= j < |fields| && !Tidy(fields[j]);
      CleanKeepsTidy(fields[j]);
      assert cleaned[j] != fields[j];
    }
  }
}
