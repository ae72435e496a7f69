/** PBKDF2 (section 5.2 of RFC 8018) and the loop that computes it.

    The pseudorandom function is any function with outputs of one length; for the
    server it is HMAC-SHA256 keyed with the password. */
module Pbkdf2 {
  import opened Bytes

  type Prf = bytes -> bytes

  ghost predicate OfLength(prf: Prf, hLen: nat) {
    hLen > 0 && forall message :: |prf(message)| == hLen
  }

  /* ── The standard's definition ───────────────────────────────────────── */

  function Xor(a: byte, b: byte): byte { ((a as bv8) ^ (b as bv8)) as byte }

  function XorAll(a: bytes, b: bytes): bytes
    requires |a| == |b|
  {
    seq(|a|, k requires 0 <= k < |a| => Xor(a[k], b[k]))
  }

  // INT(i): four octets, most significant first.
  function Int32(i: nat): bytes {
    [i / 0x100_0000 % 0x100, i / 0x1_0000 % 0x100, i / 0x100 % 0x100, i % 0x100]
  }

  // U_j of block i.
  function U(prf: Prf, salt: bytes, i: nat, j: nat): bytes
    requires j >= 1
  {
    if j == 1 then prf(salt + Int32(i)) else prf(U(prf, salt, i, j - 1))
  }

  // T_i = U_1 xor ... xor U_c
  function T(prf: Prf, hLen: nat, salt: bytes, c: nat, i: nat): (t: bytes)
    requires OfLength(prf, hLen) && c >= 1
    ensures |t| == hLen
  {
    if c == 1 then U(prf, salt, i, 1) else XorAll(T(prf, hLen, salt, c - 1, i), U(prf, salt, i, c))
  }

  // T_1 || ... || T_l
  function Blocks(prf: Prf, hLen: nat, salt: bytes, c: nat, l: nat): (t: bytes)
    requires OfLength(prf, hLen) && c >= 1
    ensures |t| == l * hLen
  {
    if l == 0 then [] else Blocks(prf, hLen, salt, c, l - 1) + T(prf, hLen, salt, c, l)
  }

  function BlockCount(dkLen: nat, hLen: nat): (l: nat)
    requires hLen > 0
    ensures l * hLen >= dkLen && (l > 0 ==> (l - 1) * hLen < dkLen)
  {
    (dkLen + hLen - 1) / hLen
  }

  function DerivedKey(prf: Prf, hLen: nat, salt: bytes, c: nat, dkLen: nat): (dk: bytes)
    requires OfLength(prf, hLen) && c >= 1
    ensures |dk| == dkLen
  {
    Blocks(prf, hLen, salt, c, BlockCount(dkLen, hLen))[..dkLen]
  }

  // INT(i) is i itself, big-endian, within the range of block indexes.
  lemma Int32IsBigEndian(i: nat)
    requires i < 0x1_0000_0000
    ensures var o := Int32(i);
      o[0] as int * 0x100_0000 + o[1] as int * 0x1_0000 + o[2] as int * 0x100 + o[3] as int == i
  {
  }

  // Written out for two blocks and two rounds: block indexes count from 1, and each round is
  // fed the one before.
  lemma TwoBlocksOfTwoRounds(prf: Prf, hLen: nat, salt: bytes)
    requires OfLength(prf, hLen)
    ensures var first, second := prf(salt + [0, 0, 0, 1]), prf(salt + [0, 0, 0, 2]);
      && DerivedKey(prf, hLen, salt, 1, 2 * hLen) == first + second
      && DerivedKey(prf, hLen, salt, 2, 2 * hLen) == XorAll(first, prf(first)) + XorAll(second, prf(second))
  {
    TwoBlocks(prf, hLen, salt, 1);
    TwoBlocks(prf, hLen, salt, 2);
    assert Int32(1) == [0, 0, 0, 1] && Int32(2) == [0, 0, 0, 2];
  }

  lemma TwoBlocks(prf: Prf, hLen: nat, salt: bytes, c: nat)
    requires OfLength(prf, hLen) && c >= 1
    ensures DerivedKey(prf, hLen, salt, c, 2 * hLen) == T(prf, hLen, salt, c, 1) + T(prf, hLen, salt, c, 2)
  {
    assert BlockCount(2 * hLen, hLen) == 2 by {
      var l := BlockCount(2 * hLen, hLen);
      if l < 2 { MulMonotone(l, 1, hLen); } else if l > 2 { MulMonotone(2, l - 1, hLen); }
    }
    assert Blocks(prf, hLen, salt, c, 1) == Blocks(prf, hLen, salt, c, 0) + T(prf, hLen, salt, c, 1);
    assert Blocks(prf, hLen, salt, c, 2) == T(prf, hLen, salt, c, 1) + T(prf, hLen, salt, c, 2);
  }

  lemma {:induction false} BlocksPrefix(prf: Prf, hLen: nat, salt: bytes, c: nat, l: nat, m: nat)
    requires OfLength(prf, hLen) && c >= 1 && l <= m
    ensures Blocks(prf, hLen, salt, c, l) <= Blocks(prf, hLen, salt, c, m)
  {
    if l < m {
      BlocksPrefix(prf, hLen, salt, c, l, m - 1);
    }
  }

  // A shorter key is the front of a longer one.
  lemma ShorterKeyIsAPrefix(prf: Prf, hLen: nat, salt: bytes, c: nat, short: nat, long: nat)
    requires OfLength(prf, hLen) && c >= 1 && short <= long
    ensures DerivedKey(prf, hLen, salt, c, short) <= DerivedKey(prf, hLen, salt, c, long)
  {
    var l, m := BlockCount(short, hLen), BlockCount(long, hLen);
    if l <= m {
      BlocksPrefix(prf, hLen, salt, c, l, m);
    } else {
      assert (l - 1) * hLen < short;
      assert m <= l - 1;
      MulMonotone(m, l - 1, hLen);
    }
  }

  lemma MulMonotone(a: nat, b: nat, n: nat)
    requires a <= b
    ensures a * n <= b * n
  {
  }

  /* ── The server's loop ───────────────────────────────────────────────── */

  // A keyed hash being fed.
  class Mac {
    const prf: Prf
    var fed: bytes

    constructor (prf: Prf)
      ensures this.prf == prf && fed == []
    {
      this.prf, fed := prf, [];
    }

    method Reset()
      modifies this
      ensures fed == []
    {
      fed := [];
    }

    method Write(more: bytes)
      modifies this
      ensures fed == old(fed) + more
    {
      fed := fed + more;
    }

    method Sum() returns (digest: bytes)
      ensures digest == prf(fed)
    {
      digest := prf(fed);
    }
  }

  method Store(target: array<byte>, data: bytes)
    requires target.Length == |data|
    modifies target
    ensures target[..] == data
  {
    forall k | 0 <= k < |data| {
      target[k] := data[k];
    }
  }

  // block ^= u, in place.
  method XorInto(block: array<byte>, u: array<byte>)
    requires block != u && block.Length == u.Length
    modifies block
    ensures block[..] == XorAll(old(block[..]), u[..])
  {
    for k := 0 to block.Length
      invariant forall j :: 0 <= j < k ==> block[j] == Xor(old(block[j]), u[j])
      invariant forall j :: k <= j < block.Length ==> block[j] == old(block[j])
    {
      block[k] := Xor(block[k], u[k]);
    }
  }

  // U_c from U_(c-1), in the same buffer, and its share of the xor.
  method NextRound(mac: Mac, u: array<byte>, dkBlock: array<byte>, ghost salt: bytes, ghost index: nat, ghost c: nat)
    requires u != dkBlock && u.Length == dkBlock.Length && OfLength(mac.prf, u.Length) && c >= 2
    requires u[..] == U(mac.prf, salt, index, c - 1)
    requires dkBlock[..] == T(mac.prf, u.Length, salt, c - 1, index)
    modifies mac, u, dkBlock
    ensures u[..] == U(mac.prf, salt, index, c)
    ensures dkBlock[..] == T(mac.prf, u.Length, salt, c, index)
  {
    mac.Reset();
    mac.Write(u[..]);
    assert [] + u[..] == u[..];
    var next := mac.Sum();
    Store(u, next);
    XorInto(dkBlock, u);
  }

  method FirstRound(mac: Mac, salt: bytes, index: nat, u: array<byte>, dkBlock: array<byte>)
    requires u != dkBlock && u.Length == dkBlock.Length && OfLength(mac.prf, u.Length)
    modifies mac, u, dkBlock
    ensures u[..] == U(mac.prf, salt, index, 1)
    ensures dkBlock[..] == T(mac.prf, u.Length, salt, 1, index)
  {
    mac.Reset();
    mac.Write(salt);
    mac.Write(Int32(index));
    var first := mac.Sum();
    assert [] + salt + Int32(index) == salt + Int32(index);
    Store(dkBlock, first);
    Store(u, first);
  }

  // One block: u is overwritten by each U_j in turn, dkBlock gathers their xor.
  method DeriveBlock(mac: Mac, hashLen: nat, salt: bytes, iter: int, index: nat, u: array<byte>, dkBlock: array<byte>)
    requires OfLength(mac.prf, hashLen) && u != dkBlock && u.Length == hashLen == dkBlock.Length
    modifies mac, u, dkBlock
    ensures dkBlock[..] == T(mac.prf, hashLen, salt, if iter < 1 then 1 else iter, index)
  {
    FirstRound(mac, salt, index, u, dkBlock);
    ghost var c: nat := if iter < 1 then 1 else iter;
    var i := 2;
    while i <= iter
      invariant 2 <= i <= c + 1
      invariant u[..] == U(mac.prf, salt, index, i - 1)
      invariant dkBlock[..] == T(mac.prf, hashLen, salt, i - 1, index)
    {
      NextRound(mac, u, dkBlock, salt, index, i);
      i := i + 1;
    }
  }

  // Fewer than one iteration is taken as one.
  method DerivePbkdf2(prf: Prf, hashLen: nat, salt: bytes, iter: int, kLen: nat) returns (dk: bytes)
    requires OfLength(prf, hashLen)
    ensures dk == DerivedKey(prf, hashLen, salt, if iter < 1 then 1 else iter, kLen)
  {
    var c := if iter < 1 then 1 else iter;
    var mac := new Mac(prf);
    var numBlocks := (kLen + hashLen - 1) / hashLen;
    var u, dkBlock := new byte[hashLen](_ => 0), new byte[hashLen](_ => 0);
    dk := [];
    var block := 1;
    while block <= numBlocks
      invariant 1 <= block <= numBlocks + 1
      invariant dk == Blocks(prf, hashLen, salt, c, block - 1)
    {
      DeriveBlock(mac, hashLen, salt, iter, block, u, dkBlock);
      dk := dk + dkBlock[..];
      block := block + 1;
    }
    assert numBlocks == BlockCount(kLen, hashLen);
    dk := dk[..kLen];
  }
}
