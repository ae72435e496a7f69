/** base64url without padding (section 5 of RFC 4648). */
module Base64Url {
  import opened Bytes
  import opened Wrappers

  type sextet = v: nat | v < 64

  function Digit(v: sextet): char {
    if v < 26 then 'A' + v as char
    else if v < 52 then 'a' + (v - 26) as char
    else if v < 62 then '0' + (v - 52) as char
    else if v == 62 then '-' else '_'
  }

  function Value(c: char): Option<sextet> {
    if 'A' <= c <= 'Z' then Some((c - 'A') as int)
    else if 'a' <= c <= 'z' then Some((c - 'a') as int + 26)
    else if '0' <= c <= '9' then Some((c - '0') as int + 52)
    else if c == '-' then Some(62) else if c == '_' then Some(63) else None
  }

  lemma ValueOfDigit(v: sextet)
    ensures Value(Digit(v)) == Some(v)
    ensures Digit(v) != '$' && Digit(v) != '\r' && Digit(v) != '\n'
  {
  }

  // The alphabet of table 2 of RFC 4648: A to Z, a to z, 0 to 9, "-" and "_", in this order,
  // and no other character has a value.
  lemma DigitsAreTheAlphabet(v: sextet, c: char)
    ensures Digit(0) == 'A' && Digit(25) == 'Z' && Digit(26) == 'a' && Digit(51) == 'z'
    ensures Digit(52) == '0' && Digit(61) == '9' && Digit(62) == '-' && Digit(63) == '_'
    ensures v < 61 && v != 25 && v != 51 ==> Digit(v + 1) as int == Digit(v) as int + 1
    ensures Value(c).Some? <==> 'A' <= c <= 'Z' || 'a' <= c <= 'z' || '0' <= c <= '9' || c == '-' || c == '_'
  {
  }

  // Three bytes make four groups of six bits.
  function Split(b: bytes): seq<sextet> {
    if |b| == 0 then []
    else if |b| == 1 then [First(b[0]), Second(b[0], 0)]
    else if |b| == 2 then [First(b[0]), Second(b[0], b[1]), Third(b[1], 0)]
    else [First(b[0]), Second(b[0], b[1]), Third(b[1], b[2]), Fourth(b[2])] + Split(b[3..])
  }

  function First(x: nat): sextet requires x < 256 { x / 4 }
  function Second(x: nat, y: nat): sextet requires x < 256 && y < 256 { x % 4 * 16 + y / 16 }
  function Third(y: nat, z: nat): sextet requires y < 256 && z < 256 { y % 16 * 4 + z / 64 }
  function Fourth(z: nat): sextet requires z < 256 { z % 64 }

  function High(a: nat, b: nat): byte requires a < 64 && b < 64 { a * 4 + b / 16 }
  function Middle(b: nat, c: nat): byte requires b < 64 && c < 64 { b % 16 * 16 + c / 4 }
  function Low(c: nat, d: nat): byte requires c < 64 && d < 64 { c % 4 * 64 + d }

  function Spell(v: seq<sextet>): string {
    if v == [] then "" else [Digit(v[0])] + Spell(v[1..])
  }

  function Encode(b: bytes): string { Spell(Split(b)) }

  // The decoder skips line breaks, wherever they stand.
  function SkipBreaks(s: string): string {
    if s == "" then ""
    else (if s[0] == '\r' || s[0] == '\n' then "" else [s[0]]) + SkipBreaks(s[1..])
  }

  function Sextets(s: string): Option<seq<sextet>> {
    if s == "" then Some([])
    else match (Value(s[0]), Sextets(s[1..]))
      case (Some(v), Some(vs)) => Some([v] + vs)
      case _ => None
  }

  // Left-over bits of a last short group are ignored.
  function Pack(v: seq<sextet>): Option<bytes> {
    if |v| == 0 then Some([])
    else if |v| == 1 then None
    else if |v| == 2 then Some([High(v[0], v[1])])
    else if |v| == 3 then Some([High(v[0], v[1]), Middle(v[1], v[2])])
    else match Pack(v[4..])
      case Some(rest) => Some([High(v[0], v[1]), Middle(v[1], v[2]), Low(v[2], v[3])] + rest)
      case None => None
  }

  function Decode(s: string): Option<bytes> {
    match Sextets(SkipBreaks(s))
    case Some(v) => Pack(v)
    case None => None
  }

  // Only characters of the alphabet.
  predicate Plain(s: string) { forall j :: 0 <= j < |s| ==> Value(s[j]).Some? }

  lemma {:induction false} SpellingReadsBack(v: seq<sextet>)
    ensures Plain(Spell(v))
    ensures SkipBreaks(Spell(v)) == Spell(v)
    ensures Sextets(Spell(v)) == Some(v)
  {
    if v != [] {
      ValueOfDigit(v[0]);
      SpellingReadsBack(v[1..]);
      assert v == [v[0]] + v[1..];
    }
  }

  lemma GroupsReadBack(x: byte, y: byte, z: byte)
    ensures High(First(x), Second(x, y)) == x
    ensures Middle(Second(x, y), Third(y, z)) == y
    ensures Low(Third(y, z), Fourth(z)) == z
  {
  }

  lemma PackOne(x: byte)
    ensures Pack([First(x), Second(x, 0)]) == Some([x])
  {
    assert High(First(x), Second(x, 0)) == x;
  }

  lemma PackPair(x: byte, y: byte)
    ensures Pack([First(x), Second(x, y), Third(y, 0)]) == Some([x, y])
  {
    GroupsReadBack(x, y, 0);
  }

  lemma PackFour(a: sextet, b: sextet, c: sextet, d: sextet, rest: seq<sextet>)
    ensures Pack([a, b, c, d] + rest) ==
      match Pack(rest) case Some(r) => Some([High(a, b), Middle(b, c), Low(c, d)] + r) case None => None
  {
    assert ([a, b, c, d] + rest)[4..] == rest;
  }

  lemma PackGroup(x: byte, y: byte, z: byte, rest: seq<sextet>)
    ensures Pack([First(x), Second(x, y), Third(y, z), Fourth(z)] + rest) ==
      match Pack(rest) case Some(b) => Some([x, y, z] + b) case None => None
  {
    GroupsReadBack(x, y, z);
    PackFour(First(x), Second(x, y), Third(y, z), Fourth(z), rest);
  }

  lemma {:induction false} PackUndoesSplit(b: bytes)
    ensures Pack(Split(b)) == Some(b)
    decreases |b|
  {
    if |b| == 1 {
      PackOne(b[0]);
      assert b == [b[0]];
    } else if |b| == 2 {
      PackPair(b[0], b[1]);
      assert b == [b[0], b[1]];
    } else if |b| >= 3 {
      PackUndoesSplit(b[3..]);
      PackGroup(b[0], b[1], b[2], Split(b[3..]));
      assert b == [b[0], b[1], b[2]] + b[3..];
    }
  }

  // Decoding undoes encoding, for every byte string.
  lemma DecodeUndoesEncode(b: bytes)
    ensures Decode(Encode(b)) == Some(b)
    ensures Plain(Encode(b))
  {
    SpellingReadsBack(Split(b));
    PackUndoesSplit(b);
  }

  lemma SpellCons(a: sextet, rest: seq<sextet>)
    ensures Spell([a] + rest) == [Digit(a)] + Spell(rest)
  {
  }

  lemma SpellTwo(a: sextet, b: sextet, rest: seq<sextet>)
    ensures Spell([a, b] + rest) == [Digit(a), Digit(b)] + Spell(rest)
  {
    assert [a, b] + rest == [a] + ([b] + rest);
    SpellCons(a, [b] + rest);
    SpellCons(b, rest);
  }

  lemma EncodeOne(x: byte)
    ensures Encode([x]) == [Digit(First(x)), Digit(Second(x, 0))]
  {
    SpellTwo(First(x), Second(x, 0), []);
    assert [First(x), Second(x, 0)] + [] == [First(x), Second(x, 0)];
  }

  lemma EncodePair(x: byte, y: byte)
    ensures Encode([x, y]) == [Digit(First(x)), Digit(Second(x, y)), Digit(Third(y, 0))]
  {
    SpellTwo(First(x), Second(x, y), [Third(y, 0)]);
    SpellCons(Third(y, 0), []);
    assert [Third(y, 0)] + [] == [Third(y, 0)];
    assert [First(x), Second(x, y)] + [Third(y, 0)] == [First(x), Second(x, y), Third(y, 0)];
  }

  lemma EncodeGroup(x: byte, y: byte, z: byte, rest: bytes)
    ensures Encode([x, y, z] + rest) ==
      [Digit(First(x)), Digit(Second(x, y)), Digit(Third(y, z)), Digit(Fourth(z))] + Encode(rest)
  {
    var a, b, c, d, tail := First(x), Second(x, y), Third(y, z), Fourth(z), Split(rest);
    assert ([x, y, z] + rest)[3..] == rest;
    assert [a, b, c, d] + tail == [a, b] + ([c, d] + tail);
    SpellTwo(a, b, [c, d] + tail);
    SpellTwo(c, d, tail);
  }

  // The examples of section 10 of RFC 4648, without their padding.
  lemma ExamplesOfTheStandard()
    ensures Encode([]) == "" && Encode([102]) == "Zg" && Encode([102, 111]) == "Zm8"
    ensures Encode([102, 111, 111]) == "Zm9v"
  {
    EncodeOne(102);
    EncodePair(102, 111);
    EncodeGroup(102, 111, 111, []);
    var foo: bytes := [102, 111, 111];
    assert foo + [] == foo;
  }

  lemma LongerExamplesOfTheStandard()
    ensures Encode([102, 111, 111, 98]) == "Zm9vYg"
    ensures Encode([102, 111, 111, 98, 97]) == "Zm9vYmE"
  {
    EncodeOne(98);
    EncodeGroup(102, 111, 111, [98]);
    EncodePair(98, 97);
    EncodeGroup(102, 111, 111, [98, 97]);
    var foo: bytes := [102, 111, 111];
    assert foo + [98] == [102, 111, 111, 98] && foo + [98, 97] == [102, 111, 111, 98, 97];
  }

  lemma LongestExampleOfTheStandard()
    ensures Encode([102, 111, 111, 98, 97, 114]) == "Zm9vYmFy"
  {
    BarEncodes();
    EncodeGroup(102, 111, 111, [98, 97, 114]);
    var foo: bytes, bar: bytes := [102, 111, 111], [98, 97, 114];
    assert foo + bar == [102, 111, 111, 98, 97, 114];
  }

  lemma BarEncodes()
    ensures Encode([98, 97, 114]) == "YmFy"
  {
    EncodeGroup(98, 97, 114, []);
    var bar: bytes := [98, 97, 114];
    assert bar + [] == bar;
  }

  /* ── What else is decoded ────────────────────────────────────────────── */

  lemma {:induction false} SkipJoin(a: string, b: string)
    ensures SkipBreaks(a + b) == SkipBreaks(a) + SkipBreaks(b)
  {
    if a == "" {
      assert a + b == b;
    } else {
      assert (a + b)[1..] == a[1..] + b;
      SkipJoin(a[1..], b);
    }
  }

  // A line break anywhere changes nothing.
  lemma BreaksAreSkipped(a: string, b: string, c: char)
    requires c == '\r' || c == '\n'
    ensures Decode(a + [c] + b) == Decode(a + b)
  {
    SkipJoin(a + [c], b);
    SkipJoin(a, [c]);
    SkipJoin(a, b);
    assert SkipBreaks([c]) == "";
    assert SkipBreaks(a) + "" == SkipBreaks(a);
  }

  // The last of two digits has four bits left over, the last of three has two.
  function Trim(v: seq<sextet>): seq<sextet> {
    if |v| < 2 then v
    else if |v| == 2 then [v[0], v[1] / 16 * 16]
    else if |v| == 3 then [v[0], v[1], v[2] / 4 * 4]
    else v[..4] + Trim(v[4..])
  }

  lemma GroupSplitsBack(a: sextet, b: sextet, c: sextet, d: sextet)
    ensures First(High(a, b)) == a
    ensures Second(High(a, b), Middle(b, c)) == b && Second(High(a, b), 0) == b / 16 * 16
    ensures Third(Middle(b, c), Low(c, d)) == c && Third(Middle(b, c), 0) == c / 4 * 4
    ensures Fourth(Low(c, d)) == d
  {
  }

  lemma {:induction false} SplitUndoesPack(v: seq<sextet>)
    requires |v| % 4 != 1
    ensures Pack(v).Some? && Split(Pack(v).value) == Trim(v)
    decreases |v|
  {
    if |v| == 2 {
      GroupSplitsBack(v[0], v[1], 0, 0);
    } else if |v| == 3 {
      GroupSplitsBack(v[0], v[1], v[2], 0);
    } else if |v| >= 4 {
      SplitUndoesPack(v[4..]);
      var group := [High(v[0], v[1]), Middle(v[1], v[2]), Low(v[2], v[3])];
      var rest := Pack(v[4..]).value;
      assert (group + rest)[3..] == rest;
      GroupSplitsBack(v[0], v[1], v[2], v[3]);
    }
  }

  // Encoding what was decoded clears the left-over bits,
  lemma EncodeAfterDecode(v: seq<sextet>)
    requires |v| % 4 != 1
    ensures Decode(Spell(v)).Some? && Encode(Decode(Spell(v)).value) == Spell(Trim(v))
  {
    SpellingReadsBack(v);
    SplitUndoesPack(v);
  }

  // and two texts without line breaks decode to the same bytes exactly if they differ in
  // left-over bits only.
  lemma LeftOverBitsAreIgnored(v: seq<sextet>, w: seq<sextet>)
    requires |v| % 4 != 1 && |w| % 4 != 1
    ensures Decode(Spell(v)) == Decode(Spell(w)) <==> Trim(v) == Trim(w)
  {
    SpellingReadsBack(v);
    SpellingReadsBack(w);
    SplitUndoesPack(v);
    SplitUndoesPack(w);
    PackUndoesSplit(Pack(v).value);
    PackUndoesSplit(Pack(w).value);
  }
}
