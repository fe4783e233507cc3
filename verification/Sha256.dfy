/** SHA-256: the definition of FIPS 180-4, and the buffered streaming implementation. */
module Sha256 {
  import opened Bytes
  import opened Bits

  type word = u32

  const WORD: nat := 32
  const TWO32: nat := 0x1_0000_0000

  // ------------------------------------------------ FIPS 180-4 definition

  /** Section 4.2.2 */
  function RoundConstants(): (k: seq<word>)
    ensures |k| == 64
  {
    RoundConstants0() + RoundConstants1() + RoundConstants2() + RoundConstants3()
  }

  function RoundConstants0(): (k: seq<word>)
    ensures |k| == 16
  {
    [0x428a2f98, 0x71374491, 0xb5c0fbcf, 0xe9b5dba5, 0x3956c25b, 0x59f111f1, 0x923f82a4, 0xab1c5ed5,
     0xd807aa98, 0x12835b01, 0x243185be, 0x550c7dc3, 0x72be5d74, 0x80deb1fe, 0x9bdc06a7, 0xc19bf174]
  }

  function RoundConstants1(): (k: seq<word>)
    ensures |k| == 16
  {
    [0xe49b69c1, 0xefbe4786, 0x0fc19dc6, 0x240ca1cc, 0x2de92c6f, 0x4a7484aa, 0x5cb0a9dc, 0x76f988da,
     0x983e5152, 0xa831c66d, 0xb00327c8, 0xbf597fc7, 0xc6e00bf3, 0xd5a79147, 0x06ca6351, 0x14292967]
  }

  function RoundConstants2(): (k: seq<word>)
    ensures |k| == 16
  {
    [0x27b70a85, 0x2e1b2138, 0x4d2c6dfc, 0x53380d13, 0x650a7354, 0x766a0abb, 0x81c2c92e, 0x92722c85,
     0xa2bfe8a1, 0xa81a664b, 0xc24b8b70, 0xc76c51a3, 0xd192e819, 0xd6990624, 0xf40e3585, 0x106aa070]
  }

  function RoundConstants3(): (k: seq<word>)
    ensures |k| == 16
  {
    [0x19a4c116, 0x1e376c08, 0x2748774c, 0x34b0bcb5, 0x391c0cb3, 0x4ed8aa4a, 0x5b9cca4f, 0x682e6ff3,
     0x748f82ee, 0x78a5636f, 0x84c87814, 0x8cc70208, 0x90befffa, 0xa4506ceb, 0xbef9a3f7, 0xc67178f2]
  }

  /** The hash value H(i), and also the eight working variables a..h. */
  datatype Words = Words(a: word, b: word, c: word, d: word, e: word, f: word, g: word, h: word)

  const H0 := Words(0x6a09e667, 0xbb67ae85, 0x3c6ef372, 0xa54ff53a, 0x510e527f, 0x9b05688c, 0x1f83d9ab, 0x5be0cd19)

  // Section 3.2: operations on 32-bit words

  lemma WordRange()
    ensures Pow2(WORD) == TWO32
  {
    assert Pow2(8) == 256 && Pow2(16) == 0x1_0000 && Pow2(24) == 0x100_0000;
  }

  function Gated(g: Gate, x: word, y: word): word { WordRange(); Bitwise(g, x, y, WORD) }
  function And(x: word, y: word): word { Gated(AndGate, x, y) }
  function Or(x: word, y: word): word { Gated(OrGate, x, y) }
  function Xor(x: word, y: word): word { Gated(XorGate, x, y) }
  function Not(x: word): word { U32_MAX - x }
  function Add(x: word, y: word): word { (x + y) % TWO32 }
  function Shr(x: word, n: nat): word { Shrinks(x, Pow2(n)); x / Pow2(n) }
  function Shl(x: word, n: nat): word { x * Pow2(n) % TWO32 }
  function Rotr(x: word, n: nat): word requires n <= 32 { Or(Shr(x, n), Shl(x, 32 - n)) }

  lemma Shrinks(x: nat, p: nat)
    requires p >= 1
    ensures 0 <= x / p <= x
  {}

  // Section 4.1.2
  function Ch(x: word, y: word, z: word): word { Xor(And(x, y), And(Not(x), z)) }
  function Maj(x: word, y: word, z: word): word { Xor(Xor(And(x, y), And(x, z)), And(y, z)) }
  function BigSigma0(x: word): word { Xor(Xor(Rotr(x, 2), Rotr(x, 13)), Rotr(x, 22)) }
  function BigSigma1(x: word): word { Xor(Xor(Rotr(x, 6), Rotr(x, 11)), Rotr(x, 25)) }
  function SmallSigma0(x: word): word { Xor(Xor(Rotr(x, 7), Rotr(x, 18)), Shr(x, 3)) }
  function SmallSigma1(x: word): word { Xor(Xor(Rotr(x, 17), Rotr(x, 19)), Shr(x, 10)) }

  /** Section 5.1.1 in bytes: a bit 1, the least number of zeros that completes a block, and the length
    * in bits as a 64-bit integer (modulo 2^64, where FIPS 180-4 leaves the hash undefined). */
  function PadBlocks(length: nat): (n: nat)
    ensures 64 * (n - 1) < length + 9 <= 64 * n
  {
    (length + 72) / 64
  }

  function Pad(message: seq<byte>): (padded: seq<byte>)
    ensures |padded| == 64 * PadBlocks(|message|)
  {
    message + [0x80] + Zeros(64 * PadBlocks(|message|) - |message| - 9) + ToBE(8 * |message|, 8)
  }

  type digest32 = s: seq<byte> | |s| == 32 witness Zeros(32)

  function StoreWords(h: Words): digest32 {
    U32(h.a) + U32(h.b) + U32(h.c) + U32(h.d) + U32(h.e) + U32(h.f) + U32(h.g) + U32(h.h)
  }

  /** Section 6.2.2, step 1: W_t from W_{t-2}, W_{t-7}, W_{t-15} and W_{t-16}. */
  function ScheduleStep(w2: word, w7: word, w15: word, w16: word): word {
    Add(Add(Add(SmallSigma1(w2), w7), SmallSigma0(w15)), w16)
  }

  /** Section 6.2.2, step 3: one round. */
  function Round(v: Words, k: word, w: word): Words {
    Words(Add(T1(v, k, w), T2(v)), v.a, v.b, v.c, Add(v.d, T1(v, k, w)), v.e, v.f, v.g)
  }
  function T1(v: Words, k: word, w: word): word { Add(Add(Add(Add(v.h, BigSigma1(v.e)), Ch(v.e, v.f, v.g)), k), w) }
  function T2(v: Words): word { Add(BigSigma0(v.a), Maj(v.a, v.b, v.c)) }

  function AddWords(x: Words, y: Words): Words {
    Words(Add(x.a, y.a), Add(x.b, y.b), Add(x.c, y.c), Add(x.d, y.d),
          Add(x.e, y.e), Add(x.f, y.f), Add(x.g, y.g), Add(x.h, y.h))
  }

  /** The same steps as values. Everything above the bit level is stated through `Ops()`, whose laws are
    * used only where a concrete step is named, so that proofs about the schedule see no bits. */
  datatype BitOps = BitOps(
    step: (word, word, word, word) -> word,
    round: (Words, word, word) -> Words,
    add: (Words, Words) -> Words)

  ghost predicate AreSha(o: BitOps) {
    && (forall p: word, q: word, r: word, s: word {:trigger ScheduleStep(p, q, r, s)} ::
          o.step(p, q, r, s) == ScheduleStep(p, q, r, s))
    && (forall v, k: word, w: word {:trigger Round(v, k, w)} :: o.round(v, k, w) == Round(v, k, w))
    && (forall x, y {:trigger AddWords(x, y)} :: o.add(x, y) == AddWords(x, y))
  }

  ghost function Ops(): (o: BitOps)
    ensures AreSha(o)
  {
    assert AreSha(BitOps(ScheduleStep, Round, AddWords));
    var o :| AreSha(o);
    o
  }

  /** The first `n` words W_0, W_1, … of the message schedule of a block. */
  ghost function Schedule(block: seq<byte>, n: nat): (w: seq<word>)
    requires |block| == 64 && n <= 64
    ensures |w| == n
  {
    if n == 0 then []
    else
      var w, t := Schedule(block, n - 1), n - 1;
      w + [if t < 16 then GetU32(block[4 * t..4 * t + 4]) else Ops().step(w[t - 2], w[t - 7], w[t - 15], w[t - 16])]
  }

  ghost function Rounds(v: Words, w: seq<word>, t: nat): Words
    requires |w| == 64 && t <= 64
  {
    if t == 0 then v else Ops().round(Rounds(v, w, t - 1), RoundConstants()[t - 1], w[t - 1])
  }

  /** Section 6.2.2: the hash value after one more block. */
  ghost function Compress(h: Words, block: seq<byte>): Words
    requires |block| == 64
  {
    Ops().add(h, Rounds(h, Schedule(block, 64), 64))
  }

  /** In the same way, proofs about buffering and padding see a block function and an output function. */
  datatype BlockOps = BlockOps(compress: (Words, seq<byte>) -> Words, store: Words -> digest32)

  ghost predicate AreShaBlocks(o: BlockOps) {
    && (forall h, b: seq<byte> {:trigger Compress(h, b)} :: |b| == 64 ==> o.compress(h, b) == Compress(h, b))
    && (forall h {:trigger StoreWords(h)} :: o.store(h) == StoreWords(h))
  }

  ghost function Sha(): (o: BlockOps)
    ensures AreShaBlocks(o)
  {
    assert AreShaBlocks(BlockOps((h, b: seq<byte>) => if |b| == 64 then Compress(h, b) else h, StoreWords));
    var o :| AreShaBlocks(o);
    o
  }

  /** The hash value after a list of blocks. */
  ghost function HashBlocks(blocks: seq<seq<byte>>): Words {
    if blocks == [] then H0 else Sha().compress(HashBlocks(blocks[..|blocks| - 1]), blocks[|blocks| - 1])
  }

  /** Section 5.2.1: parsing a padded message into 64-byte blocks. */
  function Blocks(m: seq<byte>, n: nat): (blocks: seq<seq<byte>>)
    requires |m| == 64 * n
    decreases n
  {
    if n == 0 then [] else Blocks(m[..64 * (n - 1)], n - 1) + [m[64 * (n - 1)..]]
  }

  /** Section 6.2: the digest of a message. */
  ghost function Fips(message: seq<byte>): digest32 {
    Sha().store(HashBlocks(Blocks(Pad(message), PadBlocks(|message|))))
  }

  function Flatten(blocks: seq<seq<byte>>): seq<byte> {
    if blocks == [] then [] else Flatten(blocks[..|blocks| - 1]) + blocks[|blocks| - 1]
  }

  predicate WholeBlocks(blocks: seq<seq<byte>>) { forall i :: 0 <= i < |blocks| ==> |blocks[i]| == 64 }

  lemma {:induction false} BlocksOfFlatten(blocks: seq<seq<byte>>)
    requires WholeBlocks(blocks)
    ensures |Flatten(blocks)| == 64 * |blocks|
    ensures Blocks(Flatten(blocks), |blocks|) == blocks
  {
    if blocks != [] {
      var init, last := blocks[..|blocks| - 1], blocks[|blocks| - 1];
      BlocksOfFlatten(init);
      var m := Flatten(blocks);
      assert m == Flatten(init) + last;
      assert m[..64 * |init|] == Flatten(init) && m[64 * |init|..] == last;
      assert blocks == init + [last];
    }
  }

  lemma FlattenSnoc(blocks: seq<seq<byte>>, b: seq<byte>)
    ensures Flatten(blocks + [b]) == Flatten(blocks) + b
    ensures HashBlocks(blocks + [b]) == Sha().compress(HashBlocks(blocks), b)
    ensures WholeBlocks(blocks) && |b| == 64 ==> WholeBlocks(blocks + [b])
  {
    assert (blocks + [b])[..|blocks|] == blocks;
  }

  /** The bytes fed so far are some whole blocks, already hashed into `state`, and a buffered rest. */
  ghost predicate Absorbed(fed: seq<byte>, blocks: seq<seq<byte>>, rest: seq<byte>, state: Words) {
    WholeBlocks(blocks) && fed == Flatten(blocks) + rest && state == HashBlocks(blocks)
  }

  /** Users of the hash see a digest function and a buffering relation, not their definitions. */
  datatype HashOps = HashOps(
    digest: seq<byte> -> digest32, absorbed: (seq<byte>, seq<seq<byte>>, seq<byte>, Words) -> bool)

  ghost predicate AreShaHash(o: HashOps) {
    && (forall m {:trigger Fips(m)} :: o.digest(m) == Fips(m))
    && (forall f, bs, r, s {:trigger Absorbed(f, bs, r, s)} :: o.absorbed(f, bs, r, s) == Absorbed(f, bs, r, s))
  }

  ghost function Hash(): (o: HashOps)
    ensures AreShaHash(o)
  {
    assert AreShaHash(HashOps(m => Fips(m), (f, bs, r, s) => Absorbed(f, bs, r, s)));
    var o :| AreShaHash(o);
    o
  }

  ghost function Digest(message: seq<byte>): (d: seq<byte>)
    ensures |d| == 32
  {
    Hash().digest(message)
  }

  lemma DigestIsFips(message: seq<byte>)
    ensures Digest(message) == Fips(message)
  {}

  lemma AbsorbNothing()
    ensures Hash().absorbed([], [], [], H0)
  {
    assert Absorbed([], [], [], H0);
  }

  lemma AbsorbBytes(fed: seq<byte>, blocks: seq<seq<byte>>, rest: seq<byte>, state: Words, piece: seq<byte>)
    requires Hash().absorbed(fed, blocks, rest, state)
    ensures Hash().absorbed(fed + piece, blocks, rest + piece, state)
  {
    assert Absorbed(fed, blocks, rest, state);
    assert Flatten(blocks) + rest + piece == Flatten(blocks) + (rest + piece);
    assert Absorbed(fed + piece, blocks, rest + piece, state);
  }

  lemma AbsorbBlock(fed: seq<byte>, blocks: seq<seq<byte>>, b: seq<byte>, state: Words)
    requires Hash().absorbed(fed, blocks, b, state) && |b| == 64
    ensures Hash().absorbed(fed, blocks + [b], [], Sha().compress(state, b))
  {
    assert Absorbed(fed, blocks, b, state);
    FlattenSnoc(blocks, b);
    assert fed + [] == fed;
    assert Absorbed(fed, blocks + [b], [], Sha().compress(state, b));
  }

  lemma AbsorbedDigest(message: seq<byte>, k: nat, fed: seq<byte>, blocks: seq<seq<byte>>, state: Words)
    requires k < 64 && Hash().absorbed(fed, blocks, [], state)
    requires fed == message + [0x80] + Zeros(k) + ToBE(8 * |message|, 8)
    ensures Sha().store(state) == Digest(message)
  {
    assert Absorbed(fed, blocks, [], state);
    assert Flatten(blocks) + [] == Flatten(blocks);
    PaddingIsPad(message, k, blocks);
    DigestIsFips(message);
  }

  // --------------------------------------------- streaming implementation

  /** One iteration of the schedule loop of `transform`, summed in the order of the code. */
  method ScheduleWord(w2: word, w7: word, w15: word, w16: word) returns (w: word)
    ensures w == Ops().step(w2, w7, w15, w16)
  {
    w := Add(Add(Add(w16, SmallSigma0(w15)), w7), SmallSigma1(w2));
    SumOrder(w16, SmallSigma0(w15), w7, SmallSigma1(w2));
    assert w == ScheduleStep(w2, w7, w15, w16);
  }

  lemma SumOrder(p: word, q: word, r: word, s: word)
    ensures Add(Add(Add(p, q), r), s) == Add(Add(Add(s, r), q), p)
  {
    Sum4(p, q, r, s);
    Sum4(s, r, q, p);
  }

  lemma Sum4(p: word, q: word, r: word, s: word)
    ensures Add(Add(Add(p, q), r), s) == (p + q + r + s) % TWO32
  {
    SumMod(p + q, r, TWO32);
    SumMod(p + q + r, s, TWO32);
  }

  /** One iteration of the round loop of `transform`. */
  method OneRound(v: Words, k: word, w: word) returns (r: Words)
    ensures r == Ops().round(v, k, w)
  {
    r := Round(v, k, w);
  }

  method AddAll(x: Words, y: Words) returns (r: Words)
    ensures r == Ops().add(x, y)
  {
    r := AddWords(x, y);
  }

  method Store(h: Words) returns (digest: seq<byte>)
    ensures digest == Sha().store(h)
  {
    digest := StoreWords(h);
  }

  /** `transform`, first half: the schedule, filled in place. */
  method FillSchedule(block: array<byte>) returns (words: array<word>)
    requires block.Length == 64
    ensures words[..] == Schedule(block[..], 64)
  {
    words := new word[64];
    ghost var b := block[..];
    var index := 0;
    while index < 16
      invariant 0 <= index <= 16 && block[..] == b
      invariant words[..index] == Schedule(b, index)
    {
      assert block[4 * index..4 * index + 4] == b[4 * index..4 * index + 4];
      words[index] := GetU32(block[4 * index..4 * index + 4]);
      assert words[..index + 1] == words[..index] + [words[index]];
      index := index + 1;
    }
    while index < 64
      invariant 16 <= index <= 64 && block[..] == b
      invariant words[..index] == Schedule(b, index)
    {
      words[index] := ScheduleWord(words[index - 2], words[index - 7], words[index - 15], words[index - 16]);
      assert words[..index + 1] == words[..index] + [words[index]];
      index := index + 1;
    }
    assert words[..64] == words[..];
  }

  /** `transform` */
  method Transform(state: Words, block: array<byte>) returns (state': Words)
    requires block.Length == 64
    ensures state' == Sha().compress(state, block[..])
  {
    var words := FillSchedule(block);
    ghost var b, w := block[..], words[..];
    var k := RoundConstants();
    var v := state;
    var index := 0;
    while index < 64
      invariant 0 <= index <= 64
      invariant words[..] == w && v == Rounds(state, w, index)
    {
      v := OneRound(v, k[index], words[index]);
      index := index + 1;
    }
    state' := AddAll(state, v);
    assert state' == Compress(state, b);
  }

  /** A 64-bit byte counter that has wrapped around `wraps` times. */
  ghost predicate Counted(length: nat, wraps: nat, totalBytes: u64) {
    length == 0x1_0000_0000_0000_0000 * wraps + totalBytes
  }

  class Context {
    var state: Words
    var totalBytes: u64
    const block: array<byte>
    var blockBytes: nat
    /** The bytes absorbed so far, the whole blocks among them, and how often
      * the 64-bit byte counter has wrapped around. */
    ghost var fed: seq<byte>
    ghost var blocks: seq<seq<byte>>
    ghost var wraps: nat

    ghost predicate Valid()
      reads this, block
    {
      ValidBlocks() && Counted(|fed|, wraps, totalBytes)
    }

    ghost predicate ValidBlocks()
      reads this, block
    {
      && block.Length == 64
      && blockBytes < 64
      && Hash().absorbed(fed, blocks, block[..blockBytes], state)
    }

    /** `proc17_sha256_init` */
    constructor ()
      ensures Valid() && fed == [] && fresh(block)
    {
      state := H0;
      totalBytes := 0;
      blockBytes := 0;
      block := new byte[64](_ => 0);
      fed, blocks, wraps := [], [], 0;
      new;
      AbsorbNothing();
      assert block[..0] == [];
    }

    /** The body of the loop of `update`: as many bytes as the block still takes. */
    method Absorb(piece: seq<byte>)
      requires ValidBlocks() && |piece| <= 64 - blockBytes
      modifies this, block
      ensures ValidBlocks()
      ensures blockBytes == if old(blockBytes) + |piece| == 64 then 0 else old(blockBytes) + |piece|
      ensures fed == old(fed) + piece && totalBytes == old(totalBytes) && wraps == old(wraps)
    {
      AbsorbBytes(fed, blocks, block[..blockBytes], state, piece);
      CopiedBehind(block[..], blockBytes, piece);
      Copy(block, blockBytes, piece);
      fed := fed + piece;
      blockBytes := blockBytes + |piece|;
      if blockBytes == 64 {
        FullBlock();
      }
    }

    method FullBlock()
      requires block.Length == 64 && blockBytes == 64
      requires Hash().absorbed(fed, blocks, block[..64], state)
      modifies this
      ensures ValidBlocks() && blockBytes == 0
      ensures fed == old(fed) && totalBytes == old(totalBytes) && wraps == old(wraps)
    {
      ghost var b := block[..];
      assert b == block[..64];
      ghost var more := blocks + [b];
      AbsorbBlock(fed, blocks, b, state);
      state := Transform(state, block);
      blockBytes, blocks := 0, more;
      assert block[..0] == [];
    }

    /** `proc17_sha256_update` */
    method Update(input: seq<byte>)
      requires Valid()
      modifies this, block
      ensures Valid() && fed == old(fed) + input
    {
      ghost var before := fed;
      wraps := wraps + (totalBytes + |input|) / 0x1_0000_0000_0000_0000;
      totalBytes := (totalBytes + |input|) % 0x1_0000_0000_0000_0000;
      ghost var total, turns := totalBytes, wraps;
      assert |before| + |input| == 0x1_0000_0000_0000_0000 * turns + total;
      var pos := 0;
      while pos < |input|
        invariant 0 <= pos <= |input|
        invariant ValidBlocks() && totalBytes == total && wraps == turns
        invariant fed == before + input[..pos]
      {
        var copied := Min(|input| - pos, 64 - blockBytes);
        Absorb(input[pos..pos + copied]);
        TakeMore(before, input, pos, pos + copied);
        pos := pos + copied;
      }
      assert input[..|input|] == input;
    }

    /** `proc17_sha256_final`, up to the length field. */
    method PadBlock() returns (ghost k: nat)
      requires ValidBlocks()
      modifies this, block
      ensures ValidBlocks() && blockBytes == 56
      ensures k < 64 && fed == old(fed) + [0x80] + Zeros(k)
    {
      ghost var first: nat := 0;
      Absorb([0x80]);
      if blockBytes > 56 {
        first := 64 - blockBytes;
        Absorb(Zeros(64 - blockBytes));
      }
      ghost var second := 56 - blockBytes;
      Absorb(Zeros(56 - blockBytes));
      k := first + second;
      assert Zeros(first) + Zeros(second) == Zeros(k);
    }

    /** `proc17_sha256_final`: padding, one or two more blocks, then the context is cleared. */
    method Final() returns (digest: seq<byte>)
      requires Valid()
      modifies this, block
      ensures digest == Digest(old(fed))
    {
      ghost var message := fed;
      var totalBits := (totalBytes * 8) % 0x1_0000_0000_0000_0000;
      LengthField(|message|, wraps, totalBytes, totalBits);
      ghost var k := PadBlock();
      Absorb(ToBE(totalBits, 8));
      digest := Store(state);
      assert block[..0] == [];
      AbsorbedDigest(message, k, fed, blocks, state);
      state := Words(0, 0, 0, 0, 0, 0, 0, 0);
      totalBytes, blockBytes := 0, 0;
      Copy(block, 0, Zeros(64));
    }
  }

  /** `proc17_sha256_bytes` */
  method OneShot(bytes: seq<byte>) returns (digest: seq<byte>)
    ensures digest == Digest(bytes)
  {
    var context := new Context();
    context.Update(bytes);
    assert [] + bytes == bytes;
    digest := context.Final();
  }

  /** Init, any sequence of updates, then final: the chunking does not matter. */
  method HashChunks(chunks: seq<seq<byte>>) returns (digest: seq<byte>)
    ensures digest == Digest(Flatten(chunks))
  {
    var context := new Context();
    var i := 0;
    while i < |chunks|
      invariant 0 <= i <= |chunks|
      invariant context.Valid() && fresh(context) && fresh(context.block)
      invariant context.fed == Flatten(chunks[..i])
    {
      context.Update(chunks[i]);
      assert chunks[..i + 1][..i] == chunks[..i];
      i := i + 1;
    }
    assert chunks[..|chunks|] == chunks;
    digest := context.Final();
  }

  lemma TakeMore(before: seq<byte>, input: seq<byte>, pos: nat, next: nat)
    requires pos <= next <= |input|
    ensures before + input[..pos] + input[pos..next] == before + input[..next]
  {}

  lemma CopiedBehind(block: seq<byte>, used: nat, piece: seq<byte>)
    requires |block| == 64 && used + |piece| <= 64
    ensures Splice(block, used, piece)[..used + |piece|] == block[..used] + piece
  {}

  lemma LengthField(length: nat, wraps: nat, totalBytes: u64, totalBits: nat)
    requires length == 0x1_0000_0000_0000_0000 * wraps + totalBytes
    requires totalBits == (totalBytes * 8) % 0x1_0000_0000_0000_0000
    ensures ToBE(totalBits, 8) == ToBE(8 * length, 8)
  {
    var m: nat := 0x1_0000_0000_0000_0000;
    var q := 8 * totalBytes / m;
    assert 8 * length == m * (8 * wraps + q) + totalBits;
    ModIs(8 * length, m, 8 * wraps + q, totalBits);
    PowerValues();
    ToBEModulo(totalBits, 8 * length, 8);
  }

  lemma PaddingIsPad(message: seq<byte>, k: nat, blocks: seq<seq<byte>>)
    requires k < 64 && WholeBlocks(blocks)
    requires Flatten(blocks) == message + [0x80] + Zeros(k) + ToBE(8 * |message|, 8)
    ensures blocks == Blocks(Pad(message), PadBlocks(|message|))
  {
    BlocksOfFlatten(blocks);
    assert |blocks| == PadBlocks(|message|);
    assert Flatten(blocks) == Pad(message);
  }
}
