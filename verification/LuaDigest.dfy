/** The second SHA-256, in Lua: one-shot, on 64-bit integers with explicit masking. It computes the same digest. */
module LuaDigest {
  import opened Bytes
  import opened Bits
  import opened Sha256
  import opened Hex

  // ------------------------------------------------- Lua's 64-bit integers

  const LONG: nat := 64
  const TWO64: nat := 0x1_0000_0000_0000_0000
  const MASK: nat := 0xffff_ffff

  function Gated64(g: Gate, x: nat, y: nat): nat { Bitwise(g, x, y, LONG) }
  function Plus64(x: nat, y: nat): nat { (x + y) % TWO64 }
  function Not64(x: nat): nat requires x < TWO64 { TWO64 - 1 - x }
  function Shr64(x: nat, n: nat): nat { Shrinks(x, Pow2(n)); x / Pow2(n) }
  function Shl64(x: nat, n: nat): nat { x * Pow2(n) % TWO64 }

  /** Masking is reduction modulo 2^32. */
  lemma Masked(x: nat)
    ensures Gated64(AndGate, x, MASK) == x % TWO32
  {
    WordRange();
    NarrowAnd(x, MASK, WORD, LONG);
    AndOnes(x, MASK, WORD);
  }

  // ------------------------------------------------------ masked arithmetic

  /** `value & MASK` */
  method Mask(x: nat) returns (r: word)
    ensures r == x % TWO32
  {
    Masked(x);
    r := Gated64(AndGate, x, MASK);
  }

  /** `rotr` */
  method LuaRotr(x: word, n: nat) returns (r: word)
    requires n <= 32
    ensures r == Rotr(x, n)
  {
    ghost var y := x * Pow2(32 - n);
    LowHalf(y);
    LowOr(Shr(x, n), y % TWO64, Shl(x, 32 - n));
    r := Mask(Gated64(OrGate, Shr64(x, n), Shl64(x, 32 - n)));
  }

  lemma LowHalf(y: nat)
    ensures (y % TWO64) % TWO32 == y % TWO32
  {
    ModTwice(y, TWO32, TWO32);
  }

  lemma LowOr(a: word, b: nat, c: word)
    requires b % TWO32 == c
    ensures Gated64(OrGate, a, b) % TWO32 == Or(a, c)
  {
    WordRange();
    LowBits(OrGate, a, b, WORD, LONG);
    LowArguments(OrGate, a, b, WORD);
    Below(a, TWO32);
  }

  lemma Below(a: nat, m: nat)
    requires a < m
    ensures a % m == a
  {}

  /** The sum that the variadic `add` computes, modulo 2^32 at every step. */
  function Sum(xs: seq<word>): word {
    if xs == [] then 0 else Add(Sum(xs[..|xs| - 1]), xs[|xs| - 1])
  }

  /** `add(...)` */
  method LuaAdd(xs: seq<word>) returns (value: word)
    ensures value == Sum(xs)
  {
    value := 0;
    var index := 0;
    while index < |xs|
      invariant 0 <= index <= |xs|
      invariant value == Sum(xs[..index])
    {
      assert xs[..index + 1][..index] == xs[..index];
      Below(value + xs[index], TWO64);
      value := Mask(Plus64(value, xs[index]));
      index := index + 1;
    }
    assert xs[..|xs|] == xs;
  }

  lemma SumOf2(p: word, q: word)
    ensures Sum([p, q]) == Add(p, q)
  {
    assert [p, q][..1] == [p] && [p][..0] == [];
    Below(p, TWO32);
    assert Sum([p]) == p;
  }

  lemma SumOf4(p: word, q: word, r: word, s: word)
    ensures Sum([p, q, r, s]) == Add(Add(Add(p, q), r), s)
  {
    SumOf2(p, q);
    assert [p, q, r, s][..3] == [p, q, r] && [p, q, r][..2] == [p, q];
  }

  lemma SumOf5(p: word, q: word, r: word, s: word, t: word)
    ensures Sum([p, q, r, s, t]) == Add(Add(Add(Add(p, q), r), s), t)
  {
    SumOf4(p, q, r, s);
    assert [p, q, r, s, t][..4] == [p, q, r, s];
  }

  method LuaXor(x: word, y: word) returns (r: word)
    ensures r == Xor(x, y)
  {
    WordRange();
    Narrow(XorGate, x, y, WORD, LONG);
    r := Gated64(XorGate, x, y);
  }

  method LuaAnd(x: word, y: word) returns (r: word)
    ensures r == And(x, y)
  {
    WordRange();
    Narrow(AndGate, x, y, WORD, LONG);
    r := Gated64(AndGate, x, y);
  }

  /** `(~x) & y`: the complement sets the high half; the conjunction with a word clears it again. */
  method LuaAndNot(x: word, y: word) returns (r: word)
    ensures r == And(Not(x), y)
  {
    AndNotSame(x, y);
    r := Gated64(AndGate, Not64(x), y);
  }

  lemma AndNotSame(x: word, y: word)
    ensures Gated64(AndGate, Not64(x), y) == And(Not(x), y)
  {
    WordRange();
    NarrowAnd(Not64(x), y, WORD, LONG);
    ModIs(Not64(x), TWO32, 0xffff_ffff, Not(x));
    LowArguments(AndGate, Not64(x), y, WORD);
    Below(y, TWO32);
  }

  method Xor3(x: word, y: word, z: word) returns (r: word)
    ensures r == Xor(Xor(x, y), z)
  {
    r := LuaXor(x, y);
    r := LuaXor(r, z);
  }

  /** `rotr(x, i) ~ rotr(x, j) ~ rotr(x, k)` */
  method Rotr3(x: word, i: nat, j: nat, k: nat) returns (r: word)
    requires i <= 32 && j <= 32 && k <= 32
    ensures r == Xor(Xor(Rotr(x, i), Rotr(x, j)), Rotr(x, k))
  {
    var p := LuaRotr(x, i);
    var q := LuaRotr(x, j);
    var s := LuaRotr(x, k);
    r := Xor3(p, q, s);
  }

  /** `rotr(x, i) ~ rotr(x, j) ~ (x >> k)` */
  method Rotr2Shift(x: word, i: nat, j: nat, k: nat) returns (r: word)
    requires i <= 32 && j <= 32
    ensures r == Xor(Xor(Rotr(x, i), Rotr(x, j)), Shr(x, k))
  {
    var p := LuaRotr(x, i);
    var q := LuaRotr(x, j);
    r := Xor3(p, q, Shr(x, k));
  }

  method Choose(e: word, f: word, g: word) returns (r: word)
    ensures r == Ch(e, f, g)
  {
    var p := LuaAnd(e, f);
    var q := LuaAndNot(e, g);
    r := LuaXor(p, q);
  }

  method Majority(a: word, b: word, c: word) returns (r: word)
    ensures r == Maj(a, b, c)
  {
    var p := LuaAnd(a, b);
    var q := LuaAnd(a, c);
    var s := LuaAnd(b, c);
    r := Xor3(p, q, s);
  }

  // -------------------------------------------------------------- one block

  method Temp1(v: Words, k: word, w: word) returns (r: word)
    ensures r == T1(v, k, w)
  {
    var sum1 := Rotr3(v.e, 6, 11, 25);
    var choose := Choose(v.e, v.f, v.g);
    r := LuaAdd([v.h, sum1, choose, k, w]);
    SumOf5(v.h, sum1, choose, k, w);
  }

  method Temp2(v: Words) returns (r: word)
    ensures r == T2(v)
  {
    var sum0 := Rotr3(v.a, 2, 13, 22);
    var majority := Majority(v.a, v.b, v.c);
    r := LuaAdd([sum0, majority]);
    SumOf2(sum0, majority);
  }

  method LuaAdd2(x: word, y: word) returns (r: word)
    ensures r == Add(x, y)
  {
    r := LuaAdd([x, y]);
    SumOf2(x, y);
  }

  /** One iteration of the round loop. */
  method LuaRound(v: Words, k: word, w: word) returns (r: Words)
    ensures r == Ops().round(v, k, w)
  {
    var temp1 := Temp1(v, k, w);
    var temp2 := Temp2(v);
    var e := LuaAdd2(v.d, temp1);
    var a := LuaAdd2(temp1, temp2);
    r := Words(a, v.a, v.b, v.c, e, v.e, v.f, v.g);
    assert r == Round(v, k, w);
  }

  method LuaAddWords(x: Words, y: Words) returns (r: Words)
    ensures r == Ops().add(x, y)
  {
    var a := LuaAdd2(x.a, y.a);
    var b := LuaAdd2(x.b, y.b);
    var c := LuaAdd2(x.c, y.c);
    var d := LuaAdd2(x.d, y.d);
    var e := LuaAdd2(x.e, y.e);
    var f := LuaAdd2(x.f, y.f);
    var g := LuaAdd2(x.g, y.g);
    var h := LuaAdd2(x.h, y.h);
    r := Words(a, b, c, d, e, f, g, h);
    assert r == AddWords(x, y);
  }

  method LuaStep(w2: word, w7: word, w15: word, w16: word) returns (w: word)
    ensures w == Ops().step(w2, w7, w15, w16)
  {
    var s0 := Rotr2Shift(w15, 7, 18, 3);
    var s1 := Rotr2Shift(w2, 17, 19, 10);
    w := LuaAdd([w16, s0, w7, s1]);
    SumOf4(w16, s0, w7, s1);
    SumOrder(w16, s0, w7, s1);
    assert w == ScheduleStep(w2, w7, w15, w16);
  }

  /** The `words` table of one chunk. */
  method LuaSchedule(message: seq<byte>, start: nat) returns (words: seq<word>)
    requires start + 64 <= |message|
    ensures words == Schedule(message[start..start + 64], 64)
  {
    ghost var block := message[start..start + 64];
    words := [];
    var index := 0;
    while index < 16
      invariant 0 <= index <= 16 && words == Schedule(block, index)
    {
      var p := start + 4 * index;
      assert message[p..p + 4] == block[4 * index..4 * index + 4];
      words := words + [GetU32(message[p..p + 4])];
      index := index + 1;
    }
    while index < 64
      invariant 16 <= index <= 64 && words == Schedule(block, index)
    {
      var w := LuaStep(words[index - 2], words[index - 7], words[index - 15], words[index - 16]);
      words := words + [w];
      index := index + 1;
    }
  }

  method LuaBlock(h: Words, message: seq<byte>, start: nat) returns (h': Words)
    requires start + 64 <= |message|
    ensures h' == Sha().compress(h, message[start..start + 64])
  {
    ghost var block := message[start..start + 64];
    var words := LuaSchedule(message, start);
    var k := RoundConstants();
    var v := h;
    var index := 0;
    while index < 64
      invariant 0 <= index <= 64
      invariant v == Rounds(h, words, index)
    {
      v := LuaRound(v, k[index], words[index]);
      index := index + 1;
    }
    h' := LuaAddWords(h, v);
    assert h' == Compress(h, block);
  }

  /** `digest.sha256`: the same digest as the streaming implementation, printed the same way. */
  method LuaSha256(text: seq<byte>) returns (result: string)
    ensures result == HexText(Digest(text))
  {
    var padLength := LuaPadLength(|text|);
    var message := text + [0x80] + Zeros(padLength) + ToBE(8 * |text|, 8);
    assert |message| / 64 == PadBlocks(|text|) && message == Pad(text);
    var h := LuaHash(message);
    result := Digits(h.a, 8) + Digits(h.b, 8) + Digits(h.c, 8) + Digits(h.d, 8)
      + Digits(h.e, 8) + Digits(h.f, 8) + Digits(h.g, 8) + Digits(h.h, 8);
    HexOfWords(h);
    HashOfText(text, Blocks(message, |message| / 64), h);
  }

  /** The loop over the blocks of a padded message. */
  method LuaHash(message: seq<byte>) returns (h: Words)
    requires |message| % 64 == 0
    ensures h == HashBlocks(Blocks(message, |message| / 64))
  {
    var n := |message| / 64;
    h := H0;
    ghost var blocks := Blocks(message, n);
    BlockCount(message, n);
    var i := 0;
    while i < n
      invariant 0 <= i <= n
      invariant h == HashBlocks(blocks[..i])
    {
      BlockAt(message, n, i);
      h := LuaBlock(h, message, 64 * i);
      assert blocks[..i + 1] == blocks[..i] + [blocks[i]];
      FlattenSnoc(blocks[..i], blocks[i]);
      i := i + 1;
    }
    assert blocks[..n] == blocks;
  }

  lemma HashOfText(text: seq<byte>, blocks: seq<seq<byte>>, h: Words)
    requires |Pad(text)| == 64 * PadBlocks(|text|)
    requires blocks == Blocks(Pad(text), PadBlocks(|text|)) && h == HashBlocks(blocks)
    ensures Sha().store(h) == Digest(text)
  {
    DigestIsFips(text);
  }

  lemma HexOfWords(h: Words)
    ensures Digits(h.a, 8) + Digits(h.b, 8) + Digits(h.c, 8) + Digits(h.d, 8)
            + Digits(h.e, 8) + Digits(h.f, 8) + Digits(h.g, 8) + Digits(h.h, 8) == HexText(Sha().store(h))
  {
    HexOfNumber(h.a, 4); HexOfNumber(h.b, 4); HexOfNumber(h.c, 4); HexOfNumber(h.d, 4);
    HexOfNumber(h.e, 4); HexOfNumber(h.f, 4); HexOfNumber(h.g, 4); HexOfNumber(h.h, 4);
    var ab, abc := U32(h.a) + U32(h.b), U32(h.a) + U32(h.b) + U32(h.c);
    var abcd := abc + U32(h.d);
    var abcde := abcd + U32(h.e);
    var f := abcde + U32(h.f);
    HexConcat(U32(h.a), U32(h.b)); HexConcat(ab, U32(h.c)); HexConcat(abc, U32(h.d)); HexConcat(abcd, U32(h.e));
    HexConcat(abcde, U32(h.f)); HexConcat(f, U32(h.g)); HexConcat(f + U32(h.g), U32(h.h));
    assert Sha().store(h) == StoreWords(h);
  }

  method LuaPadLength(length: nat) returns (k: nat)
    ensures k == 64 * PadBlocks(length) - length - 9
  {
    k := (56 - (length + 1) % 64) % 64;
    ghost var q, r := length / 64, length % 64;
    assert length == 64 * q + r;
    if r <= 55 {
      assert (length + 1) % 64 == r + 1;
    } else {
      assert (length + 1) % 64 == if r == 63 then 0 else r + 1;
    }
  }

  lemma {:induction false} BlockCount(m: seq<byte>, n: nat)
    requires |m| == 64 * n
    ensures |Blocks(m, n)| == n
    decreases n
  {
    if n > 0 {
      BlockCount(m[..64 * (n - 1)], n - 1);
    }
  }

  lemma {:induction false} BlockAt(m: seq<byte>, n: nat, i: nat)
    requires |m| == 64 * n && i < n
    ensures |Blocks(m, n)| == n && Blocks(m, n)[i] == m[64 * i..64 * i + 64]
    decreases n
  {
    var init := m[..64 * (n - 1)];
    if n > 1 {
      BlockAt(init, n - 1, if i < n - 1 then i else 0);
    }
    if i < n - 1 {
      assert init[64 * i..64 * i + 64] == m[64 * i..64 * i + 64];
    } else {
      assert m[64 * (n - 1)..] == m[64 * i..64 * i + 64];
    }
  }
}
