/** Bytes, big-endian integers and fixed-size buffers: the vocabulary shared by every wire format.
  * A C buffer written at constant offsets is a chain of `Splice`s; a read is a `Slice`. */
module Bytes {
  import Bits

  type byte = x: int | 0 <= x < 256
  type u16 = x: int | 0 <= x < 0x1_0000
  type u32 = x: int | 0 <= x < 0x1_0000_0000
  type u64 = x: int | 0 <= x < 0x1_0000_0000_0000_0000

  const U32_MAX: u32 := 0xffff_ffff
  const U64_MAX: u64 := 0xffff_ffff_ffff_ffff

  function Min(a: int, b: int): int { if a < b then a else b }
  predicate Boolean(x: byte) { x == 0 || x == 1 }

  // ---------------------------------------------------------------- buffers

  function Zeros(n: nat): (s: seq<byte>)
    ensures |s| == n && forall i :: 0 <= i < n ==> s[i] == 0
  {
    seq(n, _ => 0)
  }

  predicate AllZero(s: seq<byte>) { forall i :: 0 <= i < |s| ==> s[i] == 0 }

  /** The `n` bytes at offset `off`. */
  function Slice(b: seq<byte>, off: nat, n: nat): (s: seq<byte>)
    requires off + n <= |b|
    ensures |s| == n
  {
    b[off..off + n]
  }

  /** Overwriting the bytes at `off` by `s`. */
  function Splice(b: seq<byte>, off: nat, s: seq<byte>): (r: seq<byte>)
    requires off + |s| <= |b|
    ensures |r| == |b|
  {
    b[..off] + s + b[off + |s|..]
  }

  lemma SpliceByIndex(b: seq<byte>, off: nat, s: seq<byte>, r: seq<byte>)
    requires off + |s| <= |b| == |r|
    requires forall i :: 0 <= i < |b| ==> r[i] == if off <= i < off + |s| then s[i - off] else b[i]
    ensures r == Splice(b, off, s)
  {}

  /** `memcpy(a + off, s, |s|)` */
  method Copy(a: array<byte>, off: nat, s: seq<byte>)
    requires off + |s| <= a.Length
    modifies a
    ensures a[..] == Splice(old(a[..]), off, s)
  {
    var i := 0;
    while i < |s|
      invariant 0 <= i <= |s|
      invariant forall k :: 0 <= k < a.Length ==> a[k] == if off <= k < off + i then s[k - off] else old(a[k])
    {
      a[off + i] := s[i];
      i := i + 1;
    }
    SpliceByIndex(old(a[..]), off, s, a[..]);
  }

  /** A zero-filled record of which the bytes `done` have been written so far. */
  predicate Built(b: seq<byte>, done: seq<byte>) {
    |done| <= |b| && b == done + Zeros(|b| - |done|)
  }

  /** Writing the next field of a record. */
  method Put(a: array<byte>, off: nat, s: seq<byte>, ghost done: seq<byte>) returns (ghost more: seq<byte>)
    requires Built(a[..], done) && |done| == off && off + |s| <= a.Length
    modifies a
    ensures more == done + s && Built(a[..], more)
  {
    more := done + s;
    BuiltNext(a[..], done, s);
    Copy(a, off, s);
  }

  lemma BuiltNext(b: seq<byte>, done: seq<byte>, s: seq<byte>)
    requires Built(b, done) && |done| + |s| <= |b|
    ensures Built(Splice(b, |done|, s), done + s)
  {}

  /** Leaving a gap of zeros in a record. */
  lemma BuiltGap(b: seq<byte>, done: seq<byte>, n: nat)
    requires Built(b, done) && |done| + n <= |b|
    ensures Built(b, done + Zeros(n))
  {}

  /** A whole record. */
  lemma BuiltAll(b: seq<byte>, done: seq<byte>)
    requires Built(b, done) && |done| == |b|
    ensures b == done
  {}

  // ---------------------------------------------------- big-endian integers

  function Pow256(n: nat): (p: nat)
    ensures p >= 1
  {
    if n == 0 then 1 else 256 * Pow256(n - 1)
  }

  /** The low `n` bytes of `v`, most significant first. */
  function ToBE(v: nat, n: nat): (s: seq<byte>)
    ensures |s| == n
    decreases n
  {
    if n == 0 then [] else ToBE(v / 256, n - 1) + [v % 256]
  }

  function FromBE(s: seq<byte>): (v: nat)
    ensures v < Pow256(|s|)
  {
    if s == [] then 0 else FromBE(s[..|s| - 1]) * 256 + s[|s| - 1]
  }

  lemma {:induction false} FromToBE(v: nat, n: nat)
    ensures FromBE(ToBE(v, n)) == v % Pow256(n)
    decreases n
  {
    if n > 0 {
      var s := ToBE(v, n);
      assert s[..n - 1] == ToBE(v / 256, n - 1);
      FromToBE(v / 256, n - 1);
      ModSplit(v, Pow256(n - 1));
    }
  }

  lemma ModSplit(v: nat, p: nat)
    requires p >= 1
    ensures (v / 256 % p) * 256 + v % 256 == v % (256 * p)
  {
    var q, r := v / 256 / p, v / 256 % p;
    assert v == 256 * (v / 256) + v % 256;
    assert v / 256 == p * q + r;
    assert v == (256 * p) * q + (256 * r + v % 256) by {
      assert 256 * (p * q) == (256 * p) * q;
    }
    assert 0 <= 256 * r + v % 256 < 256 * p;
    Bits.ModIs(v, 256 * p, q, 256 * r + v % 256);
  }

  lemma {:induction false} ToFromBE(s: seq<byte>)
    ensures ToBE(FromBE(s), |s|) == s
  {
    if s != [] {
      ToFromBE(s[..|s| - 1]);
      assert s == s[..|s| - 1] + [s[|s| - 1]];
    }
  }

  /** Only the low `n` bytes matter. */
  lemma ToBEModulo(v: nat, w: nat, n: nat)
    requires v % Pow256(n) == w % Pow256(n)
    ensures ToBE(v, n) == ToBE(w, n)
  {
    FromToBE(v, n);
    FromToBE(w, n);
    FieldInjective(ToBE(v, n), ToBE(w, n));
  }

  function U16(v: u16): (s: seq<byte>) ensures |s| == 2 ensures GetU16(s) == v
  {
    FromToBE(v, 2); PowerValues(); ToBE(v, 2)
  }
  function U32(v: u32): (s: seq<byte>) ensures |s| == 4 ensures GetU32(s) == v
  {
    FromToBE(v, 4); PowerValues(); ToBE(v, 4)
  }
  function U64(v: u64): (s: seq<byte>) ensures |s| == 8 ensures GetU64(s) == v
  {
    FromToBE(v, 8); PowerValues(); ToBE(v, 8)
  }
  function GetU16(s: seq<byte>): u16 requires |s| == 2 { PowerValues(); FromBE(s) }
  function GetU32(s: seq<byte>): u32 requires |s| == 4 { PowerValues(); FromBE(s) }
  function GetU64(s: seq<byte>): u64 requires |s| == 8 { PowerValues(); FromBE(s) }

  lemma PowerValues()
    ensures Pow256(2) == 0x1_0000
    ensures Pow256(4) == 0x1_0000_0000
    ensures Pow256(8) == 0x1_0000_0000_0000_0000
  {
    assert Pow256(1) == 256;
    assert Pow256(3) == 0x100_0000;
    assert Pow256(5) == 0x100_0000_0000;
    assert Pow256(6) == 0x1_0000_0000_0000;
    assert Pow256(7) == 0x100_0000_0000_0000;
  }

  /** Fixed-width fields are a bijection, so equal numbers mean equal bytes. */
  lemma FieldInjective(s: seq<byte>, t: seq<byte>)
    requires |s| == |t| && FromBE(s) == FromBE(t)
    ensures s == t
  {
    ToFromBE(s);
    ToFromBE(t);
  }

  /** `proc17_qa_wire_put_u16`, `_u32` and `_u64`: bytes are stored from the last position backwards. */
  method PutBE(a: array<byte>, off: nat, value: nat, n: nat)
    requires off + n <= a.Length
    modifies a
    ensures a[..] == Splice(old(a[..]), off, ToBE(value, n))
  {
    var index, rest: nat := 0, value;
    ghost var was := a[..];
    ghost var tail: seq<byte> := [];
    while index < n
      invariant 0 <= index <= n && |tail| == index
      invariant ToBE(value, n) == ToBE(rest, n - index) + tail
      invariant a[..] == Splice(was, off + n - index, tail)
    {
      var low: byte := rest % 256;
      SpliceCons(was, off + n - 1 - index, low, tail);
      a[off + n - 1 - index] := low;
      ToBEStep(rest, n - index, tail);
      tail := [low] + tail;
      rest := rest / 256;
      index := index + 1;
    }
    assert ToBE(rest, 0) + tail == tail;
  }

  method PutU16(a: array<byte>, off: nat, value: u16)
    requires off + 2 <= a.Length
    modifies a
    ensures a[..] == Splice(old(a[..]), off, U16(value))
  {
    PutBE(a, off, value, 2);
  }

  method PutU32(a: array<byte>, off: nat, value: u32)
    requires off + 4 <= a.Length
    modifies a
    ensures a[..] == Splice(old(a[..]), off, U32(value))
  {
    PutBE(a, off, value, 4);
  }

  method PutU64(a: array<byte>, off: nat, value: u64)
    requires off + 8 <= a.Length
    modifies a
    ensures a[..] == Splice(old(a[..]), off, U64(value))
  {
    PutBE(a, off, value, 8);
  }

  lemma SpliceCons(b: seq<byte>, off: nat, x: byte, s: seq<byte>)
    requires off + 1 + |s| <= |b|
    ensures Splice(b, off + 1, s)[off := x] == Splice(b, off, [x] + s)
  {}

  lemma ToBEStep(v: nat, n: nat, tail: seq<byte>)
    requires n > 0
    ensures ToBE(v, n) + tail == ToBE(v / 256, n - 1) + ([v % 256] + tail)
  {}

  /** `proc17_qa_wire_get_u64`: an accumulating loop. */
  method ReadU64(input: seq<byte>) returns (value: u64)
    requires |input| >= 8
    ensures value == GetU64(input[..8])
  {
    var index, acc: nat := 0, 0;
    while index < 8
      invariant 0 <= index <= 8
      invariant acc == FromBE(input[..index])
    {
      assert input[..index + 1][..index] == input[..index];
      acc := acc * 256 + input[index];
      index := index + 1;
    }
    PowerValues();
    value := acc;
  }

  method OrByte(a: byte, b: byte) returns (c: byte)
    ensures c == 0 <==> a == 0 && b == 0
  {
    Bits.OrZero(a, b, 8);
    c := Bits.Bitwise(Bits.OrGate, a, b, 8);
  }

  method XorByte(a: byte, b: byte) returns (c: byte)
    ensures c == 0 <==> a == b
  {
    Bits.XorZero(a, b, 8);
    c := Bits.Bitwise(Bits.XorGate, a, b, 8);
  }

  /** `proc17_qa_wire_bytes_zero`: OR of all bytes, tested once at the end. */
  method BytesZero(s: seq<byte>) returns (zero: bool)
    ensures zero <==> AllZero(s)
  {
    var combined: byte := 0;
    var index := 0;
    while index < |s|
      invariant 0 <= index <= |s|
      invariant combined == 0 <==> AllZero(s[..index])
    {
      assert s[..index + 1] == s[..index] + [s[index]];
      combined := OrByte(combined, s[index]);
      index := index + 1;
    }
    assert s[..|s|] == s;
    zero := combined == 0;
  }

  /** The digest comparison of `proc17_qa_wire_decode`: OR of XORs, with no early exit. */
  method SameBytes(s: seq<byte>, t: seq<byte>) returns (same: bool)
    requires |s| == |t|
    ensures same <==> s == t
  {
    var mismatch: byte := 0;
    var index := 0;
    while index < |s|
      invariant 0 <= index <= |s|
      invariant mismatch == 0 <==> s[..index] == t[..index]
    {
      SamePrefix(s, t, index);
      var differ := XorByte(s[index], t[index]);
      mismatch := OrByte(mismatch, differ);
      index := index + 1;
    }
    assert s[..|s|] == s && t[..|t|] == t;
    same := mismatch == 0;
  }

  lemma SamePrefix(s: seq<byte>, t: seq<byte>, i: nat)
    requires |s| == |t| && i < |s|
    ensures s[..i + 1] == t[..i + 1] <==> s[..i] == t[..i] && s[i] == t[i]
  {
    assert s[..i + 1] == s[..i] + [s[i]] && t[..i + 1] == t[..i] + [t[i]];
  }
}
