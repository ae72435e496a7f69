/** The stored form of a password, and how a password is checked against it. */
module PasswordHash {
  import opened Bytes
  import opened Wrappers
  import opened Decimal
  import opened Pbkdf2
  import Base64Url

  const ITERATIONS: nat := 600000
  const KEY_LEN: nat := 32
  const HASH_LEN: nat := 32

  const SCHEME := "pbkdf2-sha256"

  // HMAC-SHA256, keyed.
  type Hmac = bytes -> Prf

  ghost predicate IsHmac(hmac: Hmac) { forall key :: OfLength(hmac(key), HASH_LEN) }

  function Derive(hmac: Hmac, password: bytes, salt: bytes, iter: nat, kLen: nat): bytes
    requires IsHmac(hmac) && iter >= 1
  {
    DerivedKey(hmac(password), HASH_LEN, salt, iter, kLen)
  }

  function Format(iter: nat, salt: bytes, dk: bytes): string {
    "$" + SCHEME + "$i=" + Itoa(iter) + "$" + Base64Url.Encode(salt) + "$" + Base64Url.Encode(dk)
  }

  // The salt comes from the system's random source.
  function HashPassword(hmac: Hmac, password: bytes, salt: bytes): string
    requires IsHmac(hmac)
  {
    Format(ITERATIONS, salt, Derive(hmac, password, salt, ITERATIONS, KEY_LEN))
  }

  function Split(s: string, sep: char): (parts: seq<string>)
    ensures |parts| >= 1
  {
    if s == "" then [""]
    else if s[0] == sep then [""] + Split(s[1..], sep)
    else var rest := Split(s[1..], sep); [[s[0]] + rest[0]] + rest[1..]
  }

  function TrimPrefix(s: string, prefix: string): string {
    if prefix <= s then s[|prefix|..] else s
  }

  datatype Stored = Stored(iter: nat, salt: bytes, dk: bytes)

  function Parse(encoded: string): Option<Stored> {
    var parts := Split(encoded, '$');
    if |parts| != 5 || parts[1] != SCHEME then None
    else match Atoi(TrimPrefix(parts[2], "i="))
      case None => None
      case Some(iter) =>
        if iter <= 0 then None
        else match (Base64Url.Decode(parts[3]), Base64Url.Decode(parts[4]))
          case (Some(salt), Some(dk)) => Some(Stored(iter, salt, dk))
          case _ => None
  }

  predicate VerifyPassword(hmac: Hmac, password: bytes, encoded: string)
    requires IsHmac(hmac)
  {
    match Parse(encoded)
    case None => false
    case Some(st) => (assert st.iter >= 1; Derive(hmac, password, st.salt, st.iter, |st.dk|) == st.dk)
  }

  /* ── Reading back what was written ───────────────────────────────────── */

  lemma {:induction false} SplitFirst(field: string, rest: string, sep: char)
    requires sep !in field
    ensures Split(field + [sep] + rest, sep) == [field] + Split(rest, sep)
  {
    var s := field + [sep] + rest;
    if field == "" {
      assert s[1..] == rest;
    } else {
      assert s[1..] == field[1..] + [sep] + rest;
      SplitFirst(field[1..], rest, sep);
      assert [field[0]] + field[1..] == field;
    }
  }

  lemma {:induction false} SplitLast(field: string, sep: char)
    requires sep !in field
    ensures Split(field, sep) == [field]
  {
    if field != "" {
      SplitLast(field[1..], sep);
      assert [field[0]] + field[1..] == field;
    }
  }

  lemma NoSeparatorInBase64(b: bytes)
    ensures '$' !in Base64Url.Encode(b)
  {
    Base64Url.DecodeUndoesEncode(b);
    var e := Base64Url.Encode(b);
    forall j | 0 <= j < |e| ensures e[j] != '$' {
      assert Base64Url.Value(e[j]).Some?;
    }
  }

  lemma SplitFive(a: string, b: string, c: string, d: string, e: string, sep: char)
    requires sep !in a && sep !in b && sep !in c && sep !in d && sep !in e
    ensures Split(a + [sep] + (b + [sep] + (c + [sep] + (d + [sep] + e))), sep) == [a, b, c, d, e]
  {
    var de := d + [sep] + e;
    var cde := c + [sep] + de;
    var bcde := b + [sep] + cde;
    SplitLast(e, sep);
    SplitFirst(d, e, sep);
    SplitFirst(c, de, sep);
    SplitFirst(b, cde, sep);
    SplitFirst(a, bcde, sep);
  }

  lemma SplitFormat(iter: nat, salt: bytes, dk: bytes)
    ensures Split(Format(iter, salt, dk), '$') ==
      ["", SCHEME, "i=" + Itoa(iter), Base64Url.Encode(salt), Base64Url.Encode(dk)]
  {
    var i, s, d := "i=" + Itoa(iter), Base64Url.Encode(salt), Base64Url.Encode(dk);
    ItoaReadsBack(iter);
    NoSeparatorInBase64(salt);
    NoSeparatorInBase64(dk);
    SplitFive("", SCHEME, i, s, d, '$');
    FormatNests(Itoa(iter), s, d);
  }

  lemma FormatNests(i: string, s: string, d: string)
    ensures "$" + SCHEME + "$i=" + i + "$" + s + "$" + d
      == "" + ['$'] + (SCHEME + ['$'] + ("i=" + i + ['$'] + (s + ['$'] + d)))
  {
    assert "$i=" == "$" + "i=";
    assert "$" + SCHEME + "$i=" + i == "$" + SCHEME + "$" + ("i=" + i);
  }

  // Every hash string that is written parses back to what it was written from.
  lemma ParseUndoesFormat(iter: nat, salt: bytes, dk: bytes)
    requires 1 <= iter <= MAX_INT64
    ensures Parse(Format(iter, salt, dk)) == Some(Stored(iter, salt, dk))
  {
    SplitFormat(iter, salt, dk);
    AtoiUndoesItoa(iter);
    assert TrimPrefix("i=" + Itoa(iter), "i=") == Itoa(iter);
    Base64Url.DecodeUndoesEncode(salt);
    Base64Url.DecodeUndoesEncode(dk);
  }

  // A password verifies against its own hash, whatever the salt; and another one does
  // exactly when it derives the same key.
  lemma HashVerifies(hmac: Hmac, password: bytes, other: bytes, salt: bytes)
    requires IsHmac(hmac)
    ensures var encoded := HashPassword(hmac, password, salt);
      && VerifyPassword(hmac, password, encoded)
      && (VerifyPassword(hmac, other, encoded) <==>
          Derive(hmac, other, salt, ITERATIONS, KEY_LEN) == Derive(hmac, password, salt, ITERATIONS, KEY_LEN))
  {
    ParseUndoesFormat(ITERATIONS, salt, Derive(hmac, password, salt, ITERATIONS, KEY_LEN));
  }

  lemma CountInDigits()
    ensures Itoa(ITERATIONS) == "600000"
  {
    ItoaAppends(6, 0);
    ItoaAppends(60, 0);
    ItoaAppends(600, 0);
    ItoaAppends(6000, 0);
    ItoaAppends(60000, 0);
  }

  lemma HeadFirst(count: string, s: string, d: string)
    ensures var head := "$" + SCHEME + "$i=" + count + "$"; head + s + "$" + d == head + (s + "$" + d)
  {
  }

  // What a stored hash looks like: the scheme, the count, and then salt and key.
  lemma HashStartsWithSchemeAndCount(hmac: Hmac, password: bytes, salt: bytes)
    requires IsHmac(hmac)
    ensures "$pbkdf2-sha256$i=600000$" <= HashPassword(hmac, password, salt)
  {
    CountInDigits();
    HeadFirst("600000", Base64Url.Encode(salt), Base64Url.Encode(Derive(hmac, password, salt, ITERATIONS, KEY_LEN)));
    assert "$" + SCHEME + "$i=" + "600000" + "$" == "$pbkdf2-sha256$i=600000$";
  }

  // What it holds: the count, the salt as given, and 32 bytes derived from the password.
  lemma HashHoldsItsParts(hmac: Hmac, password: bytes, salt: bytes)
    requires IsHmac(hmac)
    ensures Parse(HashPassword(hmac, password, salt)) == Some(Stored(600000, salt, Derive(hmac, password, salt, 600000, 32)))
  {
    ParseUndoesFormat(600000, salt, Derive(hmac, password, salt, 600000, 32));
  }

  // Two hashes are the same string only if salt and key are the same.
  lemma FormatIsInjective(iter: nat, salt: bytes, dk: bytes, iter': nat, salt': bytes, dk': bytes)
    requires 1 <= iter <= MAX_INT64 && 1 <= iter' <= MAX_INT64
    requires Format(iter, salt, dk) == Format(iter', salt', dk')
    ensures iter == iter' && salt == salt' && dk == dk'
  {
    ParseUndoesFormat(iter, salt, dk);
    ParseUndoesFormat(iter', salt', dk');
  }

  /* ── What else is accepted ───────────────────────────────────────────── */

  // Any text of the five parts.
  function Text(count: string, salt: string, dk: string): string {
    "$" + SCHEME + "$" + count + "$" + salt + "$" + dk
  }

  lemma ParseReads(count: string, salt: string, dk: string)
    requires '$' !in count && '$' !in salt && '$' !in dk
    ensures Parse(Text(count, salt, dk)) ==
      match (Atoi(TrimPrefix(count, "i=")), Base64Url.Decode(salt), Base64Url.Decode(dk))
      case (Some(iter), Some(s), Some(d)) => if iter <= 0 then None else Some(Stored(iter, s, d))
      case _ => None
  {
    SplitFive("", SCHEME, count, salt, dk, '$');
    assert Text(count, salt, dk) == "" + ['$'] + (SCHEME + ['$'] + (count + ['$'] + (salt + ['$'] + dk)));
  }

  lemma PlusIsRead(n: nat)
    requires n <= MAX_INT64
    ensures Atoi("+" + Itoa(n)) == Some(n)
  {
    ItoaReadsBack(n);
    assert ("+" + Itoa(n))[1..] == Itoa(n);
  }

  lemma PrefixGoes(text: string)
    ensures TrimPrefix("i=" + text, "i=") == text
    ensures text == "" || text[0] != 'i' ==> TrimPrefix(text, "i=") == text
  {
    assert ("i=" + text)[2..] == text;
  }

  lemma CountsReadAlike(n: nat)
    requires n <= MAX_INT64
    ensures Atoi(TrimPrefix("i=" + Itoa(n), "i=")) == Some(n)
    ensures Atoi(TrimPrefix(Itoa(n), "i=")) == Some(n)
    ensures Atoi(TrimPrefix("i=+" + Itoa(n), "i=")) == Some(n)
    ensures '$' !in Itoa(n)
  {
    ItoaReadsBack(n);
    AtoiUndoesItoa(n);
    PlusIsRead(n);
    PrefixGoes(Itoa(n));
    PrefixGoes("+" + Itoa(n));
    assert "i=+" + Itoa(n) == "i=" + ("+" + Itoa(n));
  }

  // The "i=" may be missing, and the count may carry a plus sign.
  lemma CountIsReadLiberally(n: nat, salt: string, dk: string)
    requires n <= MAX_INT64 && '$' !in salt && '$' !in dk
    ensures Parse(Text(Itoa(n), salt, dk)) == Parse(Text("i=" + Itoa(n), salt, dk))
    ensures Parse(Text("i=+" + Itoa(n), salt, dk)) == Parse(Text("i=" + Itoa(n), salt, dk))
  {
    CountsReadAlike(n);
    ParseReads("i=" + Itoa(n), salt, dk);
    ParseReads(Itoa(n), salt, dk);
    ParseReads("i=+" + Itoa(n), salt, dk);
  }

  // Line breaks inside the stored key are skipped.
  lemma BrokenKeyIsReadAlike(count: string, salt: string, a: string, b: string)
    requires '$' !in count && '$' !in salt && '$' !in a && '$' !in b
    ensures Parse(Text(count, salt, a + ['\n'] + b)) == Parse(Text(count, salt, a + b))
  {
    ParseReads(count, salt, a + ['\n'] + b);
    ParseReads(count, salt, a + b);
    Base64Url.BreaksAreSkipped(a, b, '\n');
  }

  // The stored key sets the length that is compared: every password derives the empty one.
  lemma EmptyKeyVerifies(hmac: Hmac, password: bytes, iter: nat, salt: bytes)
    requires IsHmac(hmac) && 1 <= iter <= MAX_INT64
    ensures VerifyPassword(hmac, password, Format(iter, salt, []))
  {
    ParseUndoesFormat(iter, salt, []);
  }
}
