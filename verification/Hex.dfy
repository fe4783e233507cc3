/** Hexadecimal digests: printing, strict parsing, and the digits of a whole word. */
module Hex {
  import opened Bytes
  import opened Wrappers

  function Digit(n: nat): char
    requires n < 16
  {
    "0123456789abcdef"[n]
  }

  /** Two lower-case digits per byte. */
  function HexText(s: seq<byte>): (t: string)
    ensures |t| == 2 * |s|
  {
    if s == [] then []
    else
      var last := s[|s| - 1];
      HexText(s[..|s| - 1]) + [Digit(last / 16), Digit(last % 16)]
  }

  function Nibble(c: char): (n: Option<nat>)
    ensures n.Some? ==> n.value < 16 && Digit(n.value) == c
    ensures n.None? ==> forall k: nat :: k < 16 ==> Digit(k) != c
  {
    if '0' <= c <= '9' then Some((c - '0') as nat)
    else if 'a' <= c <= 'f' then Some((c - 'a') as nat + 10)
    else None
  }

  /** `proc17_sha256_hex`: the digits, then a NUL. */
  method Print(digest: seq<byte>) returns (output: string)
    ensures output == HexText(digest) + ['\0']
  {
    var alphabet := "0123456789abcdef";
    output := [];
    var index := 0;
    while index < |digest|
      invariant 0 <= index <= |digest|
      invariant output == HexText(digest[..index])
    {
      assert digest[..index + 1][..index] == digest[..index];
      output := output + [alphabet[digest[index] / 16], alphabet[digest[index] % 16]];
      index := index + 1;
    }
    assert digest[..|digest|] == digest;
    output := output + ['\0'];
  }

  /** `proc17_sha256_parse_hex`: accepts exactly what `Print` produces for 32 bytes. */
  method Parse(input: string) returns (r: Option<seq<byte>>)
    ensures r.Some? ==> |r.value| == 32 && HexText(r.value) == input
    ensures r.None? ==> forall d: seq<byte> :: |d| == 32 ==> HexText(d) != input
  {
    if |input| != 64 {
      return None;
    }
    var digest: seq<byte> := [];
    var index := 0;
    while index < 32
      invariant 0 <= index <= 32 && |digest| == index
      invariant HexText(digest) == input[..2 * index]
    {
      var high, low := Nibble(input[2 * index]), Nibble(input[2 * index + 1]);
      if high.None? || low.None? {
        forall d: seq<byte> | |d| == 32 ensures HexText(d) != input {
          HexAt(d, index);
        }
        return None;
      }
      var next: byte := high.value * 16 + low.value;
      assert next / 16 == high.value && next % 16 == low.value;
      assert (digest + [next])[..index] == digest;
      assert input[..2 * index + 2] == input[..2 * index] + [input[2 * index], input[2 * index + 1]];
      digest := digest + [next];
      index := index + 1;
    }
    assert input[..64] == input;
    r := Some(digest);
  }

  lemma {:induction false} HexAt(s: seq<byte>, i: nat)
    requires i < |s|
    ensures HexText(s)[2 * i] == Digit(s[i] / 16) && HexText(s)[2 * i + 1] == Digit(s[i] % 16)
  {
    var n := |s| - 1;
    if i < n {
      HexAt(s[..n], i);
    }
  }

  /** The `n` low hexadecimal digits of a number: `%0nx`. */
  function Digits(v: nat, n: nat): (t: string)
    ensures |t| == n
    decreases n
  {
    if n == 0 then [] else Digits(v / 16, n - 1) + [Digit(v % 16)]
  }

  lemma {:induction false} HexOfNumber(v: nat, n: nat)
    ensures HexText(ToBE(v, n)) == Digits(v, 2 * n)
    decreases n
  {
    if n > 0 {
      HexOfNumber(v / 256, n - 1);
      HexSnoc(ToBE(v / 256, n - 1), v % 256);
      LastTwo(v, 2 * n - 2);
    }
  }

  lemma HexSnoc(s: seq<byte>, b: byte)
    ensures HexText(s + [b]) == HexText(s) + [Digit(b / 16), Digit(b % 16)]
  {
    assert (s + [b])[..|s|] == s;
  }

  lemma LastTwo(v: nat, n: nat)
    ensures Digits(v, n + 2) == Digits(v / 256, n) + [Digit(v % 256 / 16), Digit(v % 256 % 16)]
  {
    TwoDigits(v);
    var d := Digits(v / 16 / 16, n);
    assert Digits(v / 16, n + 1) == d + [Digit(v / 16 % 16)];
  }

  lemma TwoDigits(v: nat)
    ensures v / 256 == v / 16 / 16 && v % 256 / 16 == v / 16 % 16 && v % 256 % 16 == v % 16
  {}

  lemma {:induction false} HexConcat(s: seq<byte>, t: seq<byte>)
    ensures HexText(s + t) == HexText(s) + HexText(t)
  {
    if t == [] {
      assert s + t == s;
    } else {
      var n := |t| - 1;
      assert (s + t)[..|s + t| - 1] == s + t[..n];
      HexConcat(s, t[..n]);
    }
  }
}
