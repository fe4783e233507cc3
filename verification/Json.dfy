/** JSON text of Lua values: the printer, the recursive-descent parser, and the round trip between them. A table is
  * an array without holes or an object with string keys; the empty table is the empty array. */
module Json {
  import opened Bytes
  import opened Wrappers

  type text = seq<byte>

  datatype Value =
    | Nil
    | Bool(b: bool)
    | Int(i: int)
    | Str(s: text)
    | Arr(items: seq<Value>)
    | Obj(fields: map<text, Value>)

  const INT_MIN: int := -0x8000_0000_0000_0000
  const INT_MAX: int := 0x7fff_ffff_ffff_ffff

  /** The values that JSON text preserves. */
  predicate Wf(v: Value) {
    match v
    case Nil => true
    case Bool(_) => true
    case Int(i) => INT_MIN <= i <= INT_MAX
    case Str(_) => true
    case Arr(items) => forall i :: 0 <= i < |items| ==> Wf(items[i]) && !items[i].Nil?
    case Obj(fields) => fields != map[] && forall k :: k in fields ==> Wf(fields[k]) && !fields[k].Nil?
  }

  // ------------------------------------------------------ characters

  const QUOTE: byte := 34
  const PLUS: byte := 43
  const COMMA: byte := 44
  const MINUS: byte := 45
  const POINT: byte := 46
  const SLASH: byte := 47
  const COLON: byte := 58
  const OPEN: byte := 91
  const BACKSLASH: byte := 92
  const CLOSE: byte := 93
  const LEFT: byte := 123
  const RIGHT: byte := 125

  predicate IsDigit(c: byte) { 48 <= c <= 57 }
  /** %s of Lua in the C locale */
  predicate IsSpace(c: byte) { 9 <= c <= 13 || c == 32 }
  /** [%d%+%-%.eE] */
  predicate IsNumeral(c: byte) { IsDigit(c) || c == PLUS || c == MINUS || c == POINT || c == 101 || c == 69 }

  function NULL(): text { [110, 117, 108, 108] }
  function TRUE(): text { [116, 114, 117, 101] }
  function FALSE(): text { [102, 97, 108, 115, 101] }

  // ---------------------------------------------------------- strings

  /** The letter that stands for a control character after a backslash; 0 if there is none. */
  function ShortEscape(c: byte): byte {
    match c
    case 34 => 34
    case 92 => 92
    case 8 => 98
    case 12 => 102
    case 10 => 110
    case 13 => 114
    case 9 => 116
    case _ => 0
  }

  function HexDigit(n: nat): byte requires n < 16 { if n < 10 then 48 + n else 87 + n }

  function EscapeByte(c: byte): text {
    if ShortEscape(c) != 0 then [BACKSLASH, ShortEscape(c)]
    else if c < 32 then [BACKSLASH, 117, 48, 48, HexDigit(c / 16), HexDigit(c % 16)]
    else [c]
  }

  /** `escape_string` */
  function Escape(s: text): text {
    if s == [] then [] else EscapeByte(s[0]) + Escape(s[1..])
  }

  function Quoted(s: text): text { [QUOTE] + Escape(s) + [QUOTE] }

  // ---------------------------------------------------------- numbers

  function Decimal(n: nat): (s: text)
    ensures |s| > 0
  {
    if n < 10 then [48 + n] else Decimal(n / 10) + [48 + n % 10]
  }

  function Numeral(i: int): text { if i < 0 then [MINUS] + Decimal(-i) else Decimal(i) }

  /** The value of a run of digits. */
  function DigitsValue(s: text): (n: nat) {
    if s == [] then 0 else DigitsValue(s[..|s| - 1]) * 10 + if IsDigit(s[|s| - 1]) then s[|s| - 1] - 48 else 0
  }

  predicate AllDigits(s: text) { forall i :: 0 <= i < |s| ==> IsDigit(s[i]) }

  /** `tonumber` on a numeral, as far as it is a plain decimal integer of 64 bits. */
  function ToInteger(s: text): Option<int> {
    var negative := s != [] && s[0] == MINUS;
    var digits := if s != [] && (s[0] == MINUS || s[0] == PLUS) then s[1..] else s;
    if digits == [] || !AllDigits(digits) then None
    else
      var n: int := DigitsValue(digits);
      var n := if negative then -n else n;
      if INT_MIN <= n <= INT_MAX then Some(n) else None
  }

  lemma {:induction false} DecimalDigits(n: nat)
    ensures AllDigits(Decimal(n)) && DigitsValue(Decimal(n)) == n
  {
    if n < 10 {
      assert [48 + n][..0] == [];
    } else {
      DecimalDigits(n / 10);
      assert Decimal(n)[..|Decimal(n)| - 1] == Decimal(n / 10);
    }
  }

  lemma NumeralValue(i: int)
    requires INT_MIN <= i <= INT_MAX
    ensures ToInteger(Numeral(i)) == Some(i)
    ensures forall k :: 0 <= k < |Numeral(i)| ==> IsNumeral(Numeral(i)[k])
    ensures Numeral(i)[0] == MINUS || IsDigit(Numeral(i)[0])
  {
    if i < 0 {
      DecimalDigits(-i);
      assert Numeral(i)[1..] == Decimal(-i);
    } else {
      DecimalDigits(i);
    }
  }

  // ------------------------------------------------------ order of keys

  /** Lua's `<` on strings in the C locale. */
  predicate Less(a: text, b: text) {
    b != [] && (a == [] || a[0] < b[0] || (a[0] == b[0] && Less(a[1..], b[1..])))
  }

  lemma {:induction false} LessTotal(a: text, b: text)
    ensures a == b || Less(a, b) || Less(b, a)
    ensures !(Less(a, b) && Less(b, a)) && !Less(a, a)
  {
    if a != [] {
      LessTotal(a[1..], a[1..]);
      if b != [] {
        LessTotal(a[1..], b[1..]);
        assert a == [a[0]] + a[1..] && b == [b[0]] + b[1..];
      }
    }
  }

  lemma {:induction false} LessTransitive(a: text, b: text, c: text)
    requires Less(a, b) && Less(b, c)
    ensures Less(a, c)
  {
    if a != [] && a[0] == b[0] == c[0] {
      LessTransitive(a[1..], b[1..], c[1..]);
    }
  }

  predicate Sorted(keys: seq<text>) { forall i, j :: 0 <= i < j < |keys| ==> Less(keys[i], keys[j]) }

  function KeySet(keys: seq<text>): set<text> { set k | k in keys }

  lemma {:induction false} HasLeast(s: set<text>) returns (m: text)
    requires s != {}
    ensures m in s && forall k :: k in s && k != m ==> Less(m, k)
    decreases |s|
  {
    m :| m in s;
    if s - {m} != {} {
      var n := HasLeast(s - {m});
      LessTotal(m, n);
      if Less(n, m) {
        m := n;
      } else {
        forall k | k in s && k != m ensures Less(m, k) {
          if k != n {
            LessTransitive(m, n, k);
          }
        }
      }
    }
  }

  ghost predicate Least(s: set<text>, m: text) { m in s && forall k :: k in s && k != m ==> Less(m, k) }

  ghost function SortedKeys(s: set<text>): (keys: seq<text>)
    ensures KeySet(keys) == s && Sorted(keys)
    ensures forall i :: 0 <= i < |keys| ==> keys[i] in s
    decreases |s|
  {
    if s == {} then []
    else
      assert exists m :: Least(s, m) by { var m := HasLeast(s); assert Least(s, m); }
      var m :| Least(s, m);
      var rest := SortedKeys(s - {m});
      LeastFirst(s, m, rest);
      [m] + rest
  }

  lemma LeastFirst(s: set<text>, m: text, rest: seq<text>)
    requires Least(s, m) && KeySet(rest) == s - {m} && Sorted(rest)
    ensures KeySet([m] + rest) == s && Sorted([m] + rest)
    ensures forall i :: 0 <= i < |rest| ==> rest[i] in s
  {
    forall k | k in s ensures k in [m] + rest {
      if k != m {
        assert k in KeySet(rest);
      }
    }
    forall i | 0 <= i < |rest| ensures rest[i] in s && Less(m, rest[i]) {
      assert rest[i] in KeySet(rest);
    }
  }

  /** A set has only one sorted enumeration. */
  lemma {:induction false} SortedUnique(a: seq<text>, b: seq<text>)
    requires Sorted(a) && Sorted(b) && KeySet(a) == KeySet(b)
    ensures a == b
  {
    if a == [] {
      EmptyKeys(a);
      EmptyKeys(b);
    } else {
      assert a[0] in KeySet(a) && b != [];
      assert b[0] in KeySet(b);
      FirstLeast(a, b[0]);
      FirstLeast(b, a[0]);
      LessTotal(a[0], b[0]);
      TailSet(a);
      TailSet(b);
      SortedUnique(a[1..], b[1..]);
    }
  }

  lemma EmptyKeys(a: seq<text>)
    ensures KeySet(a) == {} <==> a == []
  {
    if a != [] {
      assert a[0] in KeySet(a);
    }
  }

  lemma FirstLeast(a: seq<text>, k: text)
    requires Sorted(a) && k in KeySet(a)
    ensures a[0] == k || Less(a[0], k)
  {}

  lemma TailSet(a: seq<text>)
    requires Sorted(a) && a != []
    ensures KeySet(a[1..]) == KeySet(a) - {a[0]} && Sorted(a[1..])
  {
    forall k | k in KeySet(a) && k != a[0] ensures k in a[1..] {
      var i :| 0 <= i < |a| && a[i] == k;
      assert a[1..][i - 1] == k;
    }
    LessTotal(a[0], a[0]);
  }

  // --------------------------------------------------------- printing

  /** `table.concat(parts, ",")` */
  function Join(parts: seq<text>): text {
    if parts == [] then [] else if |parts| == 1 then parts[0] else parts[0] + [COMMA] + Join(parts[1..])
  }

  /** `json.encode` */
  ghost function Encode(v: Value): text
    decreases v, 1, 0
  {
    match v
    case Nil => NULL()
    case Bool(b) => if b then TRUE() else FALSE()
    case Int(i) => Numeral(i)
    case Str(s) => Quoted(s)
    case Arr(items) => [OPEN] + Join(EncodeItems(v, 0)) + [CLOSE]
    case Obj(fields) => [LEFT] + Join(EncodeFields(v, SortedKeys(fields.Keys))) + [RIGHT]
  }

  /** The parts of an array from position `n` on. */
  ghost function EncodeItems(v: Value, n: nat): (parts: seq<text>)
    requires v.Arr? && n <= |v.items|
    ensures |parts| == |v.items| - n
    decreases v, 0, |v.items| - n
  {
    if n == |v.items| then [] else [Encode(v.items[n])] + EncodeItems(v, n + 1)
  }

  /** The parts of an object for the given keys. */
  ghost function EncodeFields(v: Value, keys: seq<text>): (parts: seq<text>)
    requires v.Obj? && forall i :: 0 <= i < |keys| ==> keys[i] in v.fields
    ensures |parts| == |keys|
    decreases v, 0, |keys|
  {
    if keys == [] then []
    else [Quoted(keys[0]) + [COLON] + Encode(v.fields[keys[0]])] + EncodeFields(v, keys[1..])
  }

  // ---------------------------------------------------------- parsing

  /** What a parse of the front of a text gives: a value and what is left, a refusal, or a numeral that is not a
    * 64-bit decimal integer. */
  datatype Parsed<T> = Good(value: T, rest: text) | Bad | Beyond

  function SkipSpace(s: text): (r: text)
    ensures |r| <= |s|
  {
    if s != [] && IsSpace(s[0]) then SkipSpace(s[1..]) else s
  }

  predicate IsAlnum(c: byte) { IsDigit(c) || 65 <= c <= 90 || 97 <= c <= 122 }

  function DigitValue(c: byte): nat requires IsAlnum(c) {
    if IsDigit(c) then c - 48 else if c <= 90 then c - 55 else c - 87
  }

  function HexRun(s: text, acc: nat): Option<(nat, text)> {
    if s == [] || !IsAlnum(s[0]) then Some((acc, s))
    else if DigitValue(s[0]) >= 16 then None
    else HexRun(s[1..], acc * 16 + DigitValue(s[0]))
  }

  /** `tonumber(hex, 16)` */
  function HexNumber(s: text): Option<int> {
    var t := SkipSpace(s);
    var negative := t != [] && t[0] == MINUS;
    var u := if t != [] && (t[0] == MINUS || t[0] == PLUS) then t[1..] else t;
    if u == [] || !IsAlnum(u[0]) then None
    else
      match HexRun(u, 0)
      case None => None
      case Some((n, rest)) => if SkipSpace(rest) != [] then None else if negative then Some(0 - n) else Some(n)
  }

  /** `utf8.char`, for the codes that four digits can give; what is out of range raises an error. */
  function Utf8Char(code: int): Option<text> {
    if code < 0 || code >= 0x10000 then None
    else if code < 0x80 then Some([code])
    else if code < 0x800 then Some([0xC0 + code / 64, 0x80 + code % 64])
    else Some([0xE0 + code / 4096, 0x80 + code / 64 % 64, 0x80 + code % 64])
  }

  /** The character that a short escape stands for; 0 if there is none. */
  function Unshort(c: byte): byte {
    match c
    case 34 => 34
    case 92 => 92
    case 47 => 47
    case 98 => 8
    case 102 => 12
    case 110 => 10
    case 114 => 13
    case 116 => 9
    case _ => 0
  }

  /** What follows a backslash. */
  function Unescape(s: text): (r: Parsed<text>)
    ensures r.Good? ==> |r.rest| < |s|
  {
    if s == [] then Bad
    else if Unshort(s[0]) != 0 then Good([Unshort(s[0])], s[1..])
    else if s[0] != 117 then Bad
    else
      var n := Min(5, |s|);
      match HexNumber(s[1..n])
      case None => Bad
      case Some(code) => match Utf8Char(code) case None => Bad case Some(bytes) => Good(bytes, s[n..])
  }

  /** A string after its opening quote. */
  function ParseBody(s: text): (r: Parsed<text>)
    ensures r.Good? ==> |r.rest| < |s|
    decreases |s|
  {
    if s == [] then Bad
    else if s[0] == QUOTE then Good([], s[1..])
    else
      var first := if s[0] == BACKSLASH then Unescape(s[1..]) else Good([s[0]], s[1..]);
      if !first.Good? then first
      else
        var more := ParseBody(first.rest);
        if more.Good? then Good(first.value + more.value, more.rest) else more
  }

  function ParseString(s: text): (r: Parsed<text>)
    ensures r.Good? ==> |r.rest| < |s|
  {
    if s == [] || s[0] != QUOTE then Bad else ParseBody(s[1..])
  }

  function Span(s: text): (n: nat)
    ensures n <= |s|
  {
    if s != [] && IsNumeral(s[0]) then 1 + Span(s[1..]) else 0
  }

  function ParseNumber(s: text): (r: Parsed<Value>)
    ensures r.Good? ==> |r.rest| <= |s|
    ensures r.Good? && s != [] && IsNumeral(s[0]) ==> |r.rest| < |s|
  {
    var n := Span(s);
    match ToInteger(s[..n])
    case None => Beyond
    case Some(i) => Good(Int(i), s[n..])
  }

  function ParseLiteral(s: text, literal: text, value: Value): (r: Parsed<Value>)
    requires literal != []
    ensures r.Good? ==> |r.rest| < |s|
  {
    if |literal| <= |s| && s[..|literal|] == literal then Good(value, s[|literal|..]) else Bad
  }

  /** The table of an object; without fields it is the empty array. */
  function Table(fields: map<text, Value>): Value { if fields == map[] then Arr([]) else Obj(fields) }

  /** `parse_value` */
  function ParseValue(s: text): (r: Parsed<Value>)
    ensures r.Good? ==> |r.rest| < |s|
    decreases |s|, 0
  {
    var t := SkipSpace(s);
    if t == [] then Bad
    else if t[0] == QUOTE then
      var r := ParseString(t);
      if r.Good? then Good(Str(r.value), r.rest) else Bad
    else if t[0] == LEFT then
      var u := SkipSpace(t[1..]);
      if u != [] && u[0] == RIGHT then Good(Arr([]), u[1..])
      else ParseFields(u, map[])
    else if t[0] == OPEN then
      var u := SkipSpace(t[1..]);
      if u != [] && u[0] == CLOSE then Good(Arr([]), u[1..])
      else ParseItems(u, [])
    else if t[0] == 116 then ParseLiteral(t, TRUE(), Bool(true))
    else if t[0] == 102 then ParseLiteral(t, FALSE(), Bool(false))
    else if t[0] == 110 then ParseLiteral(t, NULL(), Nil)
    else if t[0] == MINUS || IsDigit(t[0]) then ParseNumber(t)
    else Bad
  }

  /** The loop of `parse_array`; a null leaves no element behind. */
  function ParseItems(s: text, items: seq<Value>): (r: Parsed<Value>)
    ensures r.Good? ==> |r.rest| < |s|
    decreases |s|, 1
  {
    var r := ParseValue(s);
    if !r.Good? then r
    else
      var all := if r.value.Nil? then items else items + [r.value];
      var t := SkipSpace(r.rest);
      if t == [] then Bad
      else if t[0] == CLOSE then Good(Arr(all), t[1..])
      else if t[0] == COMMA then ParseItems(t[1..], all)
      else Bad
  }

  function Assign(fields: map<text, Value>, key: text, v: Value): map<text, Value> {
    if v.Nil? then fields - {key} else fields[key := v]
  }

  /** A key, a colon and a value. */
  function ParsePair(s: text): (r: Parsed<(text, Value)>)
    ensures r.Good? ==> |r.rest| < |s|
    decreases |s|, 1
  {
    var key := ParseString(SkipSpace(s));
    if !key.Good? then Bad
    else
      var t := SkipSpace(key.rest);
      if t == [] || t[0] != COLON then Bad
      else
        match ParseValue(t[1..])
        case Good(v, rest) => Good((key.value, v), rest)
        case Bad => Bad
        case Beyond => Beyond
  }

  /** The loop of `parse_object`; a null removes the field. */
  function ParseFields(s: text, fields: map<text, Value>): (r: Parsed<Value>)
    ensures r.Good? ==> |r.rest| < |s|
    decreases |s|, 2
  {
    match ParsePair(s)
    case Bad => Bad
    case Beyond => Beyond
    case Good((key, v), rest) =>
      var all := Assign(fields, key, v);
      var u := SkipSpace(rest);
      if u == [] then Bad
      else if u[0] == RIGHT then Good(Table(all), u[1..])
      else if u[0] == COMMA then ParseFields(u[1..], all)
      else Bad
  }

  /** `json.decode` */
  function Decode(s: text): Option<Value> {
    var r := ParseValue(s);
    if r.Good? && SkipSpace(r.rest) == [] then Some(r.value) else None
  }

  // ------------------------------------------------------- the round trip

  /** What may follow a value without being read into it. */
  predicate Ends(rest: text) { rest == [] || !IsNumeral(rest[0]) }

  lemma HexOf(c: byte, rest: text)
    requires c < 32
    ensures Unescape([117, 48, 48, HexDigit(c / 16), HexDigit(c % 16)] + rest) == Good([c], rest)
  {
    var h: text := [48, 48, HexDigit(c / 16), HexDigit(c % 16)];
    var s := [117] + h + rest;
    assert s == [117, 48, 48, HexDigit(c / 16), HexDigit(c % 16)] + rest;
    assert s[1..5] == h && s[5..] == rest;
    FourHex(h, c);
  }

  lemma FourHex(h: text, c: byte)
    requires c < 32 && h == [48, 48, HexDigit(c / 16), HexDigit(c % 16)]
    ensures HexNumber(h) == Some(c as int)
  {
    var whole: nat := c;
    var h1: text, h2: text := [48, HexDigit(c / 16), HexDigit(c % 16)], [HexDigit(c / 16), HexDigit(c % 16)];
    var h3: text := [HexDigit(c % 16)];
    assert h[1..] == h1 && h1[1..] == h2 && h2[1..] == h3 && h3[1..] == [];
    assert HexRun(h3, c / 16) == Some((whole, []));
    assert HexRun(h2, 0) == HexRun(h3, c / 16);
    assert HexRun(h1, 0) == HexRun(h2, 0);
    assert HexRun(h, 0) == HexRun(h1, 0);
  }

  lemma EscapedByte(c: byte, more: text)
    ensures EscapeByte(c) + more != [] && (EscapeByte(c) + more)[0] != QUOTE
    ensures var s := EscapeByte(c) + more;
            (if s[0] == BACKSLASH then Unescape(s[1..]) else Good([s[0]], s[1..])) == Good([c], more)
  {
    var s := EscapeByte(c) + more;
    if ShortEscape(c) != 0 {
      assert s[1..] == [ShortEscape(c)] + more && s[1..][1..] == more;
    } else if c < 32 {
      assert s[1..] == [117, 48, 48, HexDigit(c / 16), HexDigit(c % 16)] + more;
      HexOf(c, more);
    } else {
      assert s[1..] == more;
    }
  }

  lemma {:induction false} BodyRoundTrip(t: text, rest: text)
    ensures ParseBody(Escape(t) + [QUOTE] + rest) == Good(t, rest)
    decreases |t|
  {
    var s := Escape(t) + [QUOTE] + rest;
    if t == [] {
      assert s[1..] == rest;
    } else {
      var more := Escape(t[1..]) + [QUOTE] + rest;
      assert s == EscapeByte(t[0]) + more;
      EscapedByte(t[0], more);
      BodyRoundTrip(t[1..], rest);
      assert [t[0]] + t[1..] == t;
    }
  }

  lemma StringRoundTrip(t: text, rest: text)
    ensures Quoted(t) + rest != [] && (Quoted(t) + rest)[0] == QUOTE && ParseString(Quoted(t) + rest) == Good(t, rest)
  {
    BodyRoundTrip(t, rest);
    AfterQuote(Escape(t), rest);
  }

  lemma AfterQuote(e: text, rest: text)
    ensures (([QUOTE] + e + [QUOTE]) + rest)[1..] == e + [QUOTE] + rest
  {}

  lemma {:induction false} SpanOf(a: text, rest: text)
    requires Ends(rest) && forall k :: 0 <= k < |a| ==> IsNumeral(a[k])
    ensures Span(a + rest) == |a|
    decreases |a|
  {
    if a == [] {
      assert a + rest == rest;
    } else {
      assert (a + rest)[1..] == a[1..] + rest;
      SpanOf(a[1..], rest);
    }
  }

  lemma NumberRoundTrip(i: int, rest: text)
    requires INT_MIN <= i <= INT_MAX && Ends(rest)
    ensures var s := Numeral(i) + rest;
            s != [] && (s[0] == MINUS || IsDigit(s[0])) && ParseNumber(s) == Good(Int(i), rest)
  {
    var s := Numeral(i) + rest;
    NumeralValue(i);
    SpanOf(Numeral(i), rest);
    assert s[..|Numeral(i)|] == Numeral(i) && s[|Numeral(i)|..] == rest;
  }

  /** A printed value starts with a character that is neither space nor a closing bracket. */
  predicate Opens(s: text) { s != [] && !IsSpace(s[0]) && s[0] != CLOSE && s[0] != RIGHT }

  lemma EncodeOpens(v: Value)
    requires Wf(v)
    ensures Opens(Encode(v))
  {
    if v.Int? {
      NumeralValue(v.i);
    }
  }

  lemma JoinCons(parts: seq<text>)
    requires |parts| > 1
    ensures Join(parts) == parts[0] + [COMMA] + Join(parts[1..])
  {}

  lemma RoundTripLeaf(v: Value, rest: text)
    requires Wf(v) && Ends(rest) && !v.Arr? && !v.Obj?
    ensures ParseValue(Encode(v) + rest) == Good(v, rest)
  {
    var s := Encode(v) + rest;
    EncodeOpens(v);
    assert SkipSpace(s) == s;
    match v {
      case Nil => assert s[..4] == NULL() && s[4..] == rest;
      case Bool(b) =>
        if b {
          assert s[..4] == TRUE() && s[4..] == rest;
        } else {
          assert s[..5] == FALSE() && s[5..] == rest;
        }
      case Int(i) => NumberRoundTrip(i, rest);
      case Str(t) => StringRoundTrip(t, rest);
    }
  }

  /** Parsing what was printed gives the value back, whatever follows. */
  lemma {:induction false} RoundTrip(v: Value, rest: text)
    requires Wf(v) && Ends(rest)
    ensures ParseValue(Encode(v) + rest) == Good(v, rest)
    decreases v, 1, 0
  {
    match v {
      case Arr(items) => RoundTripArray(v, rest);
      case Obj(fields) => RoundTripObject(v, rest);
      case _ => RoundTripLeaf(v, rest);
    }
  }

  lemma {:induction false} RoundTripArray(v: Value, rest: text)
    requires v.Arr? && Wf(v)
    ensures ParseValue(Encode(v) + rest) == Good(v, rest)
    decreases v, 0, |v.items| + 1
  {
    var inner := Join(EncodeItems(v, 0)) + [CLOSE] + rest;
    var s := Encode(v) + rest;
    assert SkipSpace(s) == s;
    assert s[1..] == inner;
    if v.items == [] {
      assert inner == [CLOSE] + rest && inner[1..] == rest;
    } else {
      ItemsOpen(v, 0, [CLOSE] + rest);
      assert Join(EncodeItems(v, 0)) + ([CLOSE] + rest) == inner;
      RoundTripItems(v, 0, rest);
      assert v.items[..0] == [];
    }
  }

  lemma ItemsOpen(v: Value, n: nat, tail: text)
    requires v.Arr? && Wf(v) && n < |v.items|
    ensures Opens(Join(EncodeItems(v, n)) + tail)
    ensures SkipSpace(Join(EncodeItems(v, n)) + tail) == Join(EncodeItems(v, n)) + tail
  {
    EncodeOpens(v.items[n]);
  }

  lemma {:induction false} RoundTripItems(v: Value, n: nat, rest: text)
    requires v.Arr? && Wf(v) && n < |v.items|
    ensures ParseItems(Join(EncodeItems(v, n)) + [CLOSE] + rest, v.items[..n]) == Good(v, rest)
    decreases v, 0, |v.items| - n
  {
    var e := Encode(v.items[n]);
    var s := Join(EncodeItems(v, n)) + [CLOSE] + rest;
    assert v.items[..n] + [v.items[n]] == v.items[..n + 1];
    if n + 1 == |v.items| {
      assert s == e + ([CLOSE] + rest);
      RoundTrip(v.items[n], [CLOSE] + rest);
      assert ([CLOSE] + rest)[1..] == rest && v.items[..n + 1] == v.items;
    } else {
      var more := Join(EncodeItems(v, n + 1)) + [CLOSE] + rest;
      assert EncodeItems(v, n)[1..] == EncodeItems(v, n + 1);
      JoinCons(EncodeItems(v, n));
      assert s == e + ([COMMA] + more);
      RoundTrip(v.items[n], [COMMA] + more);
      assert ([COMMA] + more)[1..] == more;
      RoundTripItems(v, n + 1, rest);
    }
  }

  /** The fields for the given keys, assigned one after the other. */
  function Insert(fields: map<text, Value>, v: Value, keys: seq<text>): map<text, Value>
    requires v.Obj? && forall i :: 0 <= i < |keys| ==> keys[i] in v.fields
    decreases |keys|
  {
    if keys == [] then fields else Insert(fields[keys[0] := v.fields[keys[0]]], v, keys[1..])
  }

  lemma {:induction false} InsertAll(fields: map<text, Value>, v: Value, keys: seq<text>)
    requires v.Obj? && forall i :: 0 <= i < |keys| ==> keys[i] in v.fields
    requires forall k :: k in fields ==> k in v.fields && fields[k] == v.fields[k]
    requires v.fields.Keys == fields.Keys + KeySet(keys)
    ensures Insert(fields, v, keys) == v.fields
    decreases |keys|
  {
    if keys == [] {
      assert fields.Keys == v.fields.Keys;
    } else {
      var f := fields[keys[0] := v.fields[keys[0]]];
      assert KeySet(keys) == {keys[0]} + KeySet(keys[1..]) by {
        assert keys == [keys[0]] + keys[1..];
      }
      InsertAll(f, v, keys[1..]);
    }
  }

  lemma {:induction false} RoundTripObject(v: Value, rest: text)
    requires v.Obj? && Wf(v)
    ensures ParseValue(Encode(v) + rest) == Good(v, rest)
    decreases v, 0, |v.fields| + 1
  {
    var keys := SortedKeys(v.fields.Keys);
    KeyCount(keys);
    EmptyKeys(keys);
    assert v.fields.Keys != {};
    var inner := Join(EncodeFields(v, keys)) + [RIGHT] + rest;
    Assoc5([], [LEFT], Join(EncodeFields(v, keys)), [RIGHT], rest);
    FieldsOpen(v, keys, [RIGHT] + rest);
    ObjectStep(inner);
    RoundTripFields(v, keys, map[], rest);
    InsertAll(map[], v, keys);
  }

  lemma FieldsOpen(v: Value, keys: seq<text>, tail: text)
    requires v.Obj? && keys != [] && forall i :: 0 <= i < |keys| ==> keys[i] in v.fields
    ensures var s := Join(EncodeFields(v, keys)) + tail; s != [] && s[0] == QUOTE
  {}

  lemma ObjectStep(inner: text)
    requires inner != [] && inner[0] == QUOTE
    ensures ParseValue([LEFT] + inner) == ParseFields(inner, map[])
  {
    var s := [LEFT] + inner;
    assert SkipSpace(s) == s && s[1..] == inner && SkipSpace(inner) == inner;
  }

  lemma {:induction false} KeyCount(keys: seq<text>)
    requires Sorted(keys)
    ensures |KeySet(keys)| == |keys|
  {
    if keys != [] {
      TailSet(keys);
      KeyCount(keys[1..]);
    }
  }

  lemma {:induction false} RoundTripFields(v: Value, keys: seq<text>, fields: map<text, Value>, rest: text)
    requires v.Obj? && Wf(v) && keys != [] && forall i :: 0 <= i < |keys| ==> keys[i] in v.fields
    ensures ParseFields(Join(EncodeFields(v, keys)) + [RIGHT] + rest, fields)
         == Good(Table(Insert(fields, v, keys)), rest)
    decreases v, 0, |keys|
  {
    var k := keys[0];
    if |keys| == 1 {
      FieldText(v, keys, [RIGHT] + rest);
      FieldRoundTrip(v, k, [RIGHT] + rest);
      FieldStep(v, k, [RIGHT] + rest, fields);
      assert ([RIGHT] + rest)[1..] == rest && keys[1..] == [];
      assert Join(EncodeFields(v, keys)) + [RIGHT] + rest == Join(EncodeFields(v, keys)) + ([RIGHT] + rest);
    } else {
      var more := Join(EncodeFields(v, keys[1..])) + [RIGHT] + rest;
      FieldsText(v, keys, rest);
      FieldRoundTrip(v, k, [COMMA] + more);
      FieldStep(v, k, [COMMA] + more, fields);
      assert ([COMMA] + more)[1..] == more;
      RoundTripFields(v, keys[1..], fields[k := v.fields[k]], rest);
    }
  }

  /** The text of one field and what follows it. */
  ghost function Field(v: Value, k: text, tail: text): text
    requires v.Obj? && k in v.fields
  {
    Quoted(k) + ([COLON] + (Encode(v.fields[k]) + tail))
  }

  lemma FieldText(v: Value, keys: seq<text>, tail: text)
    requires v.Obj? && |keys| == 1 && keys[0] in v.fields
    ensures Join(EncodeFields(v, keys)) + tail == Field(v, keys[0], tail)
  {
    var part := Quoted(keys[0]) + [COLON] + Encode(v.fields[keys[0]]);
    assert EncodeFields(v, keys) == [part];
    Assoc(Quoted(keys[0]), [COLON], Encode(v.fields[keys[0]]), tail);
  }

  lemma Assoc(a: text, b: text, c: text, d: text)
    ensures a + b + c + d == a + (b + (c + d))
  {}

  lemma Assoc5(a: text, b: text, c: text, d: text, e: text)
    ensures a + b + c + d + e == a + (b + (c + d + e))
    ensures b + c + d + e == b + (c + d + e) && c + d + e == c + (d + e)
  {}

  lemma FieldsText(v: Value, keys: seq<text>, rest: text)
    requires v.Obj? && |keys| > 1 && forall i :: 0 <= i < |keys| ==> keys[i] in v.fields
    ensures Join(EncodeFields(v, keys)) + [RIGHT] + rest
         == Field(v, keys[0], [COMMA] + (Join(EncodeFields(v, keys[1..])) + [RIGHT] + rest))
  {
    var parts, more := EncodeFields(v, keys), EncodeFields(v, keys[1..]);
    var part := Quoted(keys[0]) + [COLON] + Encode(v.fields[keys[0]]);
    assert parts[0] == part && parts[1..] == more;
    JoinCons(parts);
    Assoc5(part, [COMMA], Join(more), [RIGHT], rest);
    Assoc(Quoted(keys[0]), [COLON], Encode(v.fields[keys[0]]), [COMMA] + (Join(more) + [RIGHT] + rest));
  }

  /** One turn of the field loop. */
  lemma FieldStep(v: Value, k: text, tail: text, fields: map<text, Value>)
    requires v.Obj? && Wf(v) && k in v.fields && tail != []
    requires FieldParses(v, k, tail)
    ensures ParseFields(Field(v, k, tail), fields)
         == if tail[0] == RIGHT then Good(Table(fields[k := v.fields[k]]), tail[1..])
            else if tail[0] == COMMA then ParseFields(tail[1..], fields[k := v.fields[k]]) else Bad
  {}

  ghost predicate FieldParses(v: Value, k: text, tail: text)
    requires v.Obj? && k in v.fields
  {
    var after := [COLON] + (Encode(v.fields[k]) + tail);
    && SkipSpace(Field(v, k, tail)) == Field(v, k, tail)
    && ParseString(Field(v, k, tail)) == Good(k, after)
    && SkipSpace(after) == after && after[1..] == Encode(v.fields[k]) + tail
    && ParseValue(Encode(v.fields[k]) + tail) == Good(v.fields[k], tail)
    && SkipSpace(tail) == tail
  }

  /** One field: its key, the colon, its value. */
  lemma {:induction false} FieldRoundTrip(v: Value, k: text, tail: text)
    requires v.Obj? && Wf(v) && k in v.fields && tail != [] && Ends(tail) && !IsSpace(tail[0])
    ensures FieldParses(v, k, tail)
    decreases v, 0, 0
  {
    StringRoundTrip(k, [COLON] + (Encode(v.fields[k]) + tail));
    RoundTrip(v.fields[k], tail);
  }

  /** Decoding undoes encoding. */
  lemma DecodeEncode(v: Value)
    requires Wf(v)
    ensures Decode(Encode(v)) == Some(v)
  {
    RoundTrip(v, []);
    assert Encode(v) + [] == Encode(v);
  }
}
