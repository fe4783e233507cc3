/** The repository text check: UTF-8 as section 4 of RFC 3629 defines it, without NUL; and the split of a
  * target path into directory and name. */
module Utf8 {
  import opened Bytes
  import opened Wrappers

  // ------------------------------------------------- encoding of scalars

  /** A Unicode scalar value other than NUL. */
  predicate Scalar(c: nat) { 0 < c < 0xD800 || 0xDFFF < c <= 0x10FFFF }

  /** Section 3 of RFC 3629: the payload bits of a scalar, six to a continuation byte. */
  function Encode(c: nat): (s: seq<byte>)
    requires Scalar(c)
    ensures 1 <= |s| <= 4
  {
    if c < 0x80 then [c]
    else if c < 0x800 then [0xC0 + c / 64, 0x80 + c % 64]
    else if c < 0x10000 then [0xE0 + c / 4096, 0x80 + c / 64 % 64, 0x80 + c % 64]
    else [0xF0 + c / 262144, 0x80 + c / 4096 % 64, 0x80 + c / 64 % 64, 0x80 + c % 64]
  }

  predicate Scalars(cs: seq<nat>) { forall i :: 0 <= i < |cs| ==> Scalar(cs[i]) }

  function EncodeAll(cs: seq<nat>): seq<byte>
    requires Scalars(cs)
  {
    if cs == [] then [] else Encode(cs[0]) + EncodeAll(cs[1..])
  }

  // -------------------------------------------- the syntax, one character

  predicate In(x: byte, low: byte, high: byte) { low <= x <= high }

  /** How many bytes the first character of `s` has; 0 if there is no well-formed one. */
  function FirstLength(s: seq<byte>): (n: nat)
    ensures n <= 4 && n <= |s|
  {
    if s == [] then 0
    else if In(s[0], 1, 0x7F) then 1
    else if In(s[0], 0xC2, 0xDF) then (if |s| >= 2 && In(s[1], 0x80, 0xBF) then 2 else 0)
    else if In(s[0], 0xE0, 0xEF) then
      (if |s| >= 3 && In(s[2], 0x80, 0xBF)
          && In(s[1], if s[0] == 0xE0 then 0xA0 else 0x80, if s[0] == 0xED then 0x9F else 0xBF) then 3 else 0)
    else if In(s[0], 0xF0, 0xF4) then
      (if |s| >= 4 && In(s[2], 0x80, 0xBF) && In(s[3], 0x80, 0xBF)
          && In(s[1], if s[0] == 0xF0 then 0x90 else 0x80, if s[0] == 0xF4 then 0x8F else 0xBF) then 4 else 0)
    else 0
  }

  predicate WellFormed(s: seq<byte>) {
    s == [] || (FirstLength(s) > 0 && WellFormed(s[FirstLength(s)..]))
  }

  /** The scalar that a well-formed first character stands for. */
  function FirstScalar(s: seq<byte>): (c: nat)
    requires FirstLength(s) > 0
  {
    match FirstLength(s)
    case 1 => s[0]
    case 2 => (s[0] as int - 0xC0) * 64 + (s[1] - 0x80)
    case 3 => (s[0] as int - 0xE0) * 4096 + (s[1] as int - 0x80) * 64 + (s[2] - 0x80)
    case _ =>
      (s[0] as int - 0xF0) * 262144 + (s[1] as int - 0x80) * 4096 + (s[2] as int - 0x80) * 64 + (s[3] - 0x80)
  }

  lemma Digits64(a: nat, b: nat, c: nat, d: nat)
    requires b < 64 && c < 64 && d < 64
    ensures var v := a * 262144 + b * 4096 + c * 64 + d;
            v / 262144 == a && v / 4096 % 64 == b && v / 64 % 64 == c && v % 64 == d && v / 4096 == a * 64 + b
            && v / 64 == a * 4096 + b * 64 + c
  {
    Low64(a * 4096 + b * 64 + c, d);
    Low64(a * 64 + b, c);
    Low64(a, b);
    Twice64(a * 262144 + b * 4096 + c * 64 + d);
  }

  lemma Low64(x: nat, d: nat)
    requires d < 64
    ensures (x * 64 + d) / 64 == x && (x * 64 + d) % 64 == d
  {}

  lemma Twice64(v: nat)
    ensures v / 64 / 64 == v / 4096 && v / 4096 / 64 == v / 262144
  {}

  /** A well-formed character is the encoding of its scalar. */
  lemma FirstEncodes(s: seq<byte>)
    requires FirstLength(s) > 0
    ensures Scalar(FirstScalar(s)) && Encode(FirstScalar(s)) == s[..FirstLength(s)]
  {
    var n := FirstLength(s);
    if n == 2 {
      Digits64(0, 0, s[0] - 0xC0, s[1] - 0x80);
    } else if n == 3 {
      Digits64(0, s[0] - 0xE0, s[1] - 0x80, s[2] - 0x80);
    } else if n == 4 {
      FourEncode(s);
    }
  }

  lemma FourEncode(s: seq<byte>)
    requires FirstLength(s) == 4
    ensures Scalar(FirstScalar(s)) && Encode(FirstScalar(s)) == s[..4]
  {
    Digits64(s[0] - 0xF0, s[1] - 0x80, s[2] - 0x80, s[3] - 0x80);
  }

  /** The encoding of a scalar is one well-formed character, whatever follows. */
  lemma EncodedFirst(c: nat, rest: seq<byte>)
    requires Scalar(c)
    ensures FirstLength(Encode(c) + rest) == |Encode(c)|
  {
    var s := Encode(c) + rest;
    if c < 0x80 {
      assert s[0] == c;
    } else if c < 0x800 {
      assert s[0] == 0xC0 + c / 64 && s[1] == 0x80 + c % 64;
    } else if c < 0x10000 {
      assert s[0] == 0xE0 + c / 4096 && s[1] == 0x80 + c / 64 % 64 && s[2] == 0x80 + c % 64;
      ThreeBytes(c, c / 4096, c / 64 % 64);
    } else {
      assert s[0] == 0xF0 + c / 262144 && s[1] == 0x80 + c / 4096 % 64 && s[2] == 0x80 + c / 64 % 64;
      assert s[3] == 0x80 + c % 64;
      FourBytes(c, c / 262144, c / 4096 % 64);
    }
  }

  lemma ThreeBytes(c: nat, a: nat, b: nat)
    requires 0x800 <= c < 0x10000 && Scalar(c) && a == c / 4096 && b == c / 64 % 64
    ensures a < 16 && b < 64 && (a == 0 ==> b >= 0x20) && (a == 13 ==> b < 0x20)
  {}

  lemma FourBytes(c: nat, a: nat, b: nat)
    requires 0x10000 <= c <= 0x10FFFF && a == c / 262144 && b == c / 4096 % 64
    ensures a <= 4 && b < 64 && (a == 0 ==> b >= 0x10) && (a == 4 ==> b < 0x10)
  {}

  // ------------------------------------------------------- whole texts

  lemma {:induction false} EncodedWellFormed(cs: seq<nat>)
    requires Scalars(cs)
    ensures WellFormed(EncodeAll(cs))
    decreases |cs|
  {
    if cs != [] {
      var rest := EncodeAll(cs[1..]);
      EncodedWellFormed(cs[1..]);
      EncodedFirst(cs[0], rest);
      assert (Encode(cs[0]) + rest)[|Encode(cs[0])|..] == rest;
    }
  }

  lemma {:induction false} WellFormedDecodes(s: seq<byte>) returns (cs: seq<nat>)
    requires WellFormed(s)
    ensures Scalars(cs) && EncodeAll(cs) == s
    decreases |s|
  {
    if s == [] {
      cs := [];
    } else {
      var n := FirstLength(s);
      FirstEncodes(s);
      var rest := WellFormedDecodes(s[n..]);
      cs := [FirstScalar(s)] + rest;
      assert cs[1..] == rest && s == s[..n] + s[n..];
    }
  }

  ghost predicate EncodesText(cs: seq<nat>, s: seq<byte>) { Scalars(cs) && EncodeAll(cs) == s }

  lemma WellFormedExact(s: seq<byte>)
    ensures WellFormed(s) <==> exists cs :: EncodesText(cs, s)
  {
    if WellFormed(s) {
      var cs := WellFormedDecodes(s);
      assert EncodesText(cs, s);
    }
    forall cs | EncodesText(cs, s) ensures WellFormed(s) {
      EncodedWellFormed(cs);
    }
  }

  /** `valid_utf8_text`: accepts exactly the encodings of sequences of non-NUL Unicode scalar values. */
  method ValidText(value: seq<byte>) returns (ok: bool)
    ensures ok <==> exists cs :: EncodesText(cs, value)
  {
    WellFormedExact(value);
    var index := 0;
    while index < |value|
      invariant 0 <= index <= |value|
      invariant WellFormed(value) <==> WellFormed(value[index..])
    {
      var n := CharacterLength(value, index);
      if n == 0 {
        return false;
      }
      assert value[index..][n..] == value[index + n..];
      index := index + n;
    }
    ok := true;
  }

  /** The body of the loop of `valid_utf8_text`: how far to go on, or 0 to refuse. */
  method CharacterLength(value: seq<byte>, index: nat) returns (n: nat)
    requires index < |value|
    ensures n == FirstLength(value[index..]) && n <= |value| - index
  {
    var first := value[index];
    if first == 0 {
      return 0;
    }
    if first <= 0x7F {
      return 1;
    }
    if first >= 0xC2 && first <= 0xDF {
      if index + 1 >= |value| || value[index + 1] < 0x80 || value[index + 1] > 0xBF {
        return 0;
      }
      return 2;
    }
    if first >= 0xE0 && first <= 0xEF {
      if index + 2 >= |value| {
        return 0;
      }
      var second, third := value[index + 1], value[index + 2];
      if third < 0x80 || third > 0xBF
         || (first == 0xE0 && (second < 0xA0 || second > 0xBF))
         || (first == 0xED && (second < 0x80 || second > 0x9F))
         || (first != 0xE0 && first != 0xED && (second < 0x80 || second > 0xBF)) {
        return 0;
      }
      return 3;
    }
    if first >= 0xF0 && first <= 0xF4 {
      if index + 3 >= |value| {
        return 0;
      }
      var second, third, fourth := value[index + 1], value[index + 2], value[index + 3];
      if third < 0x80 || third > 0xBF || fourth < 0x80 || fourth > 0xBF
         || (first == 0xF0 && (second < 0x90 || second > 0xBF))
         || (first == 0xF4 && (second < 0x80 || second > 0x8F))
         || (first != 0xF0 && first != 0xF4 && (second < 0x80 || second > 0xBF)) {
        return 0;
      }
      return 4;
    }
    return 0;
  }

  // -------------------------------------------------------- target paths

  const SLASH: byte := 47
  const DOT: byte := 46

  /** The split at the last slash; there is only one. */
  ghost predicate SplitsAs(path: seq<byte>, parent: seq<byte>, name: seq<byte>) {
    SLASH !in name && path == parent + [SLASH] + name
  }

  /** `split_target_path`: the text after the last slash is the name, the text before it the directory. */
  method SplitTargetPath(path: seq<byte>, parentSize: nat, nameSize: nat)
    returns (ok: bool, parent: seq<byte>, name: seq<byte>)
    ensures ok ==> name != [] && |parent| < parentSize && |name| < nameSize
    ensures ok && SLASH in path ==> SplitsAs(path, parent, name)
    ensures ok && SLASH !in path ==> parent == [DOT] && name == path
    ensures !ok && SLASH !in path ==> parentSize < 2 || path == [] || |path| >= nameSize
    ensures !ok && SLASH in path ==>
              exists p, n :: SplitsAs(path, p, n) && (|p| >= parentSize || n == [] || |n| >= nameSize)
  {
    var slash := |path|;
    while slash > 0 && path[slash - 1] != SLASH
      invariant 0 <= slash <= |path|
      invariant SLASH !in path[slash..]
    {
      slash := slash - 1;
    }
    name := path[slash..];
    if slash == 0 {
      assert name == path;
      if parentSize < 2 {
        return false, [], [];
      }
      parent := [DOT];
    } else {
      assert SplitsAs(path, path[..slash - 1], name);
      if slash > parentSize {
        return false, [], [];
      }
      parent := path[..slash - 1];
    }
    if |name| == 0 || |name| + 1 > nameSize {
      return false, [], [];
    }
    ok := true;
  }
}
