/** The printer and the parser as they run: parts collected in loops, keys sorted, a mutable index. */
module JsonText {
  import opened Bytes
  import opened Wrappers
  import opened Json
  import opened LuaTable

  // --------------------------------------------------------- printing

  /** `escape_string` */
  method EscapeString(value: text) returns (r: text)
    ensures r == Escape(value)
  {
    r := [];
    var i := 0;
    while i < |value|
      invariant 0 <= i <= |value|
      invariant Escape(value) == r + Escape(value[i..])
    {
      assert value[i..][1..] == value[i + 1..];
      EscapeMore(r, value[i..]);
      r := r + EscapeByte(value[i]);
      i := i + 1;
    }
  }

  lemma EscapeMore(r: text, s: text)
    requires s != []
    ensures r + Escape(s) == r + EscapeByte(s[0]) + Escape(s[1..])
  {}

  /** The names that `pairs` yields, in any order, each through `tostring`. */
  method Pairs(m: map<Key, Lua>) returns (keys: seq<text>)
    requires AllNames(m)
    ensures forall s :: s in KeySet(keys) <==> Name(s) in m
    ensures forall i, j :: 0 <= i < j < |keys| ==> keys[i] != keys[j]
  {
    keys := [];
    var left := m.Keys;
    while left != {}
      invariant left <= m.Keys && forall s :: s in KeySet(keys) <==> Name(s) in m && Name(s) !in left
      invariant forall i, j :: 0 <= i < j < |keys| ==> keys[i] != keys[j]
      decreases |left|
    {
      var k :| k in left;
      assert k == Name(k.s);
      AddKey(keys, k.s);
      keys := keys + [k.s];
      left := left - {k};
    }
  }

  lemma AddKey(keys: seq<text>, k: text)
    ensures KeySet(keys + [k]) == KeySet(keys) + {k}
    ensures forall i :: 0 <= i < |keys| ==> keys[i] in KeySet(keys)
  {
    assert (keys + [k])[|keys|] == k;
    forall x | x in KeySet(keys) ensures x in keys + [k] {
      var i :| 0 <= i < |keys| && keys[i] == x;
      assert (keys + [k])[i] == x;
    }
  }

  /** `table.sort`, by insertion. */
  method SortKeys(keys: seq<text>) returns (sorted: seq<text>)
    requires forall i, j :: 0 <= i < j < |keys| ==> keys[i] != keys[j]
    ensures Sorted(sorted) && KeySet(sorted) == KeySet(keys)
  {
    sorted := [];
    var i := 0;
    assert keys[..0] == [];
    while i < |keys|
      invariant 0 <= i <= |keys|
      invariant Sorted(sorted) && KeySet(sorted) == KeySet(keys[..i])
    {
      assert keys[..i + 1] == keys[..i] + [keys[i]];
      AddKey(keys[..i], keys[i]);
      NotYet(keys, i);
      sorted := InsertKey(sorted, keys[i]);
      i := i + 1;
    }
    assert keys[..|keys|] == keys;
  }

  lemma NotYet(keys: seq<text>, i: nat)
    requires i < |keys| && forall i, j :: 0 <= i < j < |keys| ==> keys[i] != keys[j]
    ensures keys[i] !in KeySet(keys[..i])
  {}

  method InsertKey(sorted: seq<text>, k: text) returns (r: seq<text>)
    requires Sorted(sorted) && k !in KeySet(sorted)
    ensures Sorted(r) && KeySet(r) == KeySet(sorted) + {k}
  {
    var at := 0;
    while at < |sorted| && Less(sorted[at], k)
      invariant 0 <= at <= |sorted|
      invariant forall i :: 0 <= i < at ==> Less(sorted[i], k)
    {
      at := at + 1;
    }
    r := sorted[..at] + [k] + sorted[at..];
    InsertedSet(sorted, at, k);
    forall i | at <= i < |sorted| ensures Less(k, sorted[i]) {
      assert sorted[at] in KeySet(sorted);
      LessTotal(k, sorted[at]);
      if i > at {
        LessTransitive(k, sorted[at], sorted[i]);
      }
    }
  }

  lemma InsertedSet(s: seq<text>, at: nat, k: text)
    requires at <= |s|
    ensures KeySet(s[..at] + [k] + s[at..]) == KeySet(s) + {k}
  {
    var r := s[..at] + [k] + s[at..];
    forall x | x in KeySet(s) ensures x in r {
      var i :| 0 <= i < |s| && s[i] == x;
      assert r[if i < at then i else i + 1] == x;
    }
    assert r[at] == k;
  }

  /** `table.concat(parts, ",")` */
  method Concat(parts: seq<text>) returns (r: text)
    ensures r == Join(parts)
  {
    if parts == [] {
      return [];
    }
    r := parts[0];
    var i := 1;
    while i < |parts|
      invariant 1 <= i <= |parts|
      invariant Join(parts) == if i == |parts| then r else r + [COMMA] + Join(parts[i..])
    {
      assert parts[i..][1..] == parts[i + 1..];
      JoinMore(r, parts[i..]);
      r := r + [COMMA] + parts[i];
      i := i + 1;
    }
  }

  lemma JoinMore(r: text, parts: seq<text>)
    requires parts != []
    ensures r + [COMMA] + Join(parts)
         == if |parts| == 1 then r + [COMMA] + parts[0] else r + [COMMA] + parts[0] + [COMMA] + Join(parts[1..])
  {}

  /** `json.encode`: whatever order `pairs` yields the keys in, the text is a function of the value. */
  method EncodeValue(v: Lua) returns (r: text)
    requires Plain(v)
    ensures r == Encode(Tree(v))
    decreases v, 1
  {
    match v {
      case LuaNil => r := NULL();
      case LuaBool(b) => r := if b then TRUE() else FALSE();
      case LuaInt(i) => r := Numeral(i);
      case LuaStr(s) =>
        r := EscapeString(s);
        r := [QUOTE] + r + [QUOTE];
      case LuaMap(m) =>
        var counted := IsArray(m);
        if counted {
          r := EncodeArray(v);
        } else {
          r := EncodeObject(v);
        }
    }
  }

  /** The elements 1 to `#value`, which for an array is the number of its keys. */
  method EncodeArray(v: Lua) returns (r: text)
    requires Plain(v) && v.LuaMap? && ArrayLike(v.m)
    ensures r == Encode(Tree(v))
    decreases v, 0
  {
    ghost var tree := Tree(v);
    var parts: seq<text> := [];
    var index := 0;
    while index < |v.m|
      invariant 0 <= index <= |v.m|
      invariant EncodeItems(tree, 0) == parts + EncodeItems(tree, index)
    {
      ArrayKey(v.m, index + 1);
      ItemAt(v, |v.m|, index);
      var part := EncodeValue(v.m[Num(index + 1)]);
      PartsMore(parts, part, EncodeItems(tree, index + 1));
      parts := parts + [part];
      index := index + 1;
    }
    assert parts + [] == parts;
    r := Concat(parts);
    r := [OPEN] + r + [CLOSE];
  }

  lemma PartsMore(parts: seq<text>, part: text, rest: seq<text>)
    ensures parts + ([part] + rest) == parts + [part] + rest
  {}

  method EncodeObject(v: Lua) returns (r: text)
    requires Plain(v) && v.LuaMap? && !ArrayLike(v.m)
    ensures r == Encode(Tree(v))
    decreases v, 0, 1
  {
    var keys := Pairs(v.m);
    keys := SortKeys(keys);
    ghost var fields := Fields(v);
    assert KeySet(keys) == fields.Keys by {
      assert forall s :: s in KeySet(keys) <==> s in fields;
    }
    SortedUnique(keys, SortedKeys(fields.Keys));
    var parts := EncodeParts(v, keys);
    r := Concat(parts);
    r := [LEFT] + r + [RIGHT];
  }

  method EncodeParts(v: Lua, keys: seq<text>) returns (parts: seq<text>)
    requires Plain(v) && v.LuaMap? && !ArrayLike(v.m)
    requires forall i :: 0 <= i < |keys| ==> Name(keys[i]) in v.m && keys[i] in Fields(v)
    ensures parts == EncodeFields(Tree(v), keys)
    decreases v, 0, 0
  {
    ghost var tree := Tree(v);
    parts := [];
    var i := 0;
    assert keys[0..] == keys;
    while i < |keys|
      invariant 0 <= i <= |keys|
      invariant EncodeFields(tree, keys) == parts + EncodeFields(tree, keys[i..])
    {
      assert keys[i..][1..] == keys[i + 1..];
      FieldAt(v, Name(keys[i]));
      var key := EscapeString(keys[i]);
      var value := EncodeValue(v.m[Name(keys[i])]);
      var part := [QUOTE] + key + [QUOTE] + [COLON] + value;
      PartsMore(parts, part, EncodeFields(tree, keys[i + 1..]));
      parts := parts + [part];
      i := i + 1;
    }
    assert parts + [] == parts;
  }

  // ---------------------------------------------------------- parsing

  datatype Result<T> = Ok(value: T) | Failed | NotInteger

  /** The outcome of a parser method is that of the parse of what was left, and the index has moved over it. */
  ghost predicate Follows<T>(r: Result<T>, left: text, p: Parsed<T>) {
    match p
    case Good(v, rest) => r == Ok(v) && left == rest
    case Bad => r.Failed?
    case Beyond => r.NotInteger?
  }

  class Parser {
    const input: text
    var index: nat

    constructor (input: text)
      ensures this.input == input && index == 0
    {
      this.input := input;
      index := 0;
    }

    /** What has not been read; the index may have run past the end. */
    ghost function Left(): text
      reads this
    {
      if index <= |input| then input[index..] else []
    }

    /** `parser:peek`; none at the end. */
    function Peek(): Option<byte>
      reads this
    {
      if index < |input| then Some(input[index]) else None
    }

    /** `parser:next` */
    method Next() returns (c: Option<byte>)
      modifies this
      ensures c == if old(Left()) == [] then None else Some(old(Left())[0])
      ensures old(Left()) != [] ==> Left() == old(Left())[1..]
      ensures old(Left()) == [] ==> Left() == []
      ensures index == old(index) + 1
    {
      c := Peek();
      index := index + 1;
    }

    /** `parser:skip_ws` */
    method SkipWs()
      modifies this
      ensures Left() == SkipSpace(old(Left()))
    {
      while index < |input| && IsSpace(input[index])
        invariant SkipSpace(Left()) == SkipSpace(old(Left()))
      {
        assert Left()[1..] == input[index + 1..];
        index := index + 1;
      }
    }

    lemma FourDigits(input: text, i: nat)
      requires i < |input|
      ensures var s := input[i..];
              && input[i + 1..Min(i + 5, |input|)] == s[1..Min(5, |s|)]
              && (if i + 5 <= |input| then input[i + 5..] else []) == s[Min(5, |s|)..]
    {}

    /** The escape after a backslash. */
    method ParseEscape() returns (r: Result<text>)
      modifies this
      ensures Follows(r, Left(), Unescape(old(Left())))
    {
      ghost var s := Left();
      var c := Next();
      if c.None? {
        return Failed;
      }
      if Unshort(c.value) != 0 {
        return Ok([Unshort(c.value)]);
      }
      if c.value != 117 {
        return Failed;
      }
      var hex := if index <= |input| then input[index..Min(index + 4, |input|)] else [];
      index := index + 4;
      FourDigits(input, index - 5);
      var code := HexNumber(hex);
      if code.None? {
        return Failed;
      }
      var bytes := Utf8Char(code.value);
      if bytes.None? {
        return Failed;
      }
      r := Ok(bytes.value);
    }

    /** `parser:parse_string` */
    method ParseStr() returns (r: Result<text>)
      modifies this
      ensures Follows(r, Left(), ParseString(old(Left())))
    {
      var c := Next();
      if c != Some(QUOTE) {
        return Failed;
      }
      ghost var start := Left();
      var parts: text := [];
      PrefixNone(ParseBody(start));
      while true
        invariant ParseBody(start) == Prefixed(parts, ParseBody(Left()))
        decreases |Left()|
      {
        ghost var here := Left();
        c := Next();
        if c.None? {
          return Failed;
        }
        if c.value == QUOTE {
          assert parts + [] == parts;
          return Ok(parts);
        }
        var piece := [c.value];
        if c.value == BACKSLASH {
          var e := ParseEscape();
          if !e.Ok? {
            return Failed;
          }
          piece := e.value;
        }
        PrefixTwice(parts, piece, ParseBody(Left()));
        parts := parts + piece;
      }
    }

    /** The characters of a number. */
    method TakeNumeral() returns (numeral: text)
      modifies this
      ensures var s := old(Left()); numeral == s[..Span(s)] && Left() == s[Span(s)..]
    {
      ghost var s := Left();
      var start := index;
      while index < |input| && IsNumeral(input[index])
        invariant start <= index && (index <= |input| || index == start)
        invariant Left() == s[index - start..] && index - start <= |s|
        invariant Span(s) == (index - start) + Span(Left())
      {
        assert Left()[1..] == input[index + 1..];
        index := index + 1;
      }
      numeral := if index <= |input| then input[start..index] else [];
      assert numeral == s[..Span(s)];
    }

    /** `parser:parse_number` */
    method ParseNum() returns (r: Result<Value>)
      modifies this
      ensures Follows(r, Left(), ParseNumber(old(Left())))
    {
      var numeral := TakeNumeral();
      var i := ToInteger(numeral);
      r := if i.None? then NotInteger else Ok(Int(i.value));
    }

    /** `parser:consume_literal` */
    method Consume(literal: text, value: Value) returns (r: Result<Value>)
      requires literal != []
      modifies this
      ensures Follows(r, Left(), ParseLiteral(old(Left()), literal, value))
    {
      ghost var s := Left();
      if index + |literal| > |input| || input[index..index + |literal|] != literal {
        assert |literal| <= |s| ==> s[..|literal|] == input[index..index + |literal|];
        return Failed;
      }
      assert s[..|literal|] == literal;
      index := index + |literal|;
      r := Ok(value);
    }

    /** `parser:parse_value` */
    method ParseVal() returns (r: Result<Value>)
      modifies this
      ensures Follows(r, Left(), ParseValue(old(Left())))
      decreases |Left()|, 1
    {
      SkipWs();
      var c := Peek();
      if c.None? {
        return Failed;
      }
      if c.value == QUOTE {
        var t := ParseStr();
        r := match t case Ok(x) => Ok(Str(x)) case _ => Failed;
      } else if c.value == LEFT {
        r := ParseObj();
      } else if c.value == OPEN {
        r := ParseArr();
      } else if c.value == 116 {
        r := Consume(TRUE(), Bool(true));
      } else if c.value == 102 {
        r := Consume(FALSE(), Bool(false));
      } else if c.value == 110 {
        r := Consume(NULL(), Nil);
      } else if c.value == MINUS || IsDigit(c.value) {
        r := ParseNum();
      } else {
        r := Failed;
      }
    }

    /** `parser:parse_array` */
    method ParseArr() returns (r: Result<Value>)
      requires Left() != [] && Left()[0] == OPEN
      modifies this
      ensures Follows(r, Left(), ParseValue(old(Left())))
      decreases |Left()|, 0
    {
      ghost var s := Left();
      assert SkipSpace(s) == s;
      var first := Next();
      SkipWs();
      if Peek() == Some(CLOSE) {
        first := Next();
        return Ok(Arr([]));
      }
      ghost var start := Left();
      var items: seq<Value> := [];
      while true
        invariant |Left()| < |s|
        invariant ParseItems(start, []) == ParseItems(Left(), items)
        decreases |Left()|
      {
        var v := ParseVal();
        if !v.Ok? {
          return v;
        }
        if !v.value.Nil? {
          items := items + [v.value];
        }
        SkipWs();
        var c := Next();
        if c == Some(CLOSE) {
          return Ok(Arr(items));
        }
        if c != Some(COMMA) {
          return Failed;
        }
      }
    }

    /** One key, colon and value of `parser:parse_object`. */
    method ParseKeyed() returns (r: Result<(text, Value)>)
      modifies this
      ensures Follows(r, Left(), ParsePair(old(Left())))
      decreases |Left()|, 3
    {
      SkipWs();
      var key := ParseStr();
      if !key.Ok? {
        return Failed;
      }
      SkipWs();
      var c := Next();
      if c != Some(COLON) {
        return Failed;
      }
      var v := ParseVal();
      r := match v case Ok(x) => Ok((key.value, x)) case Failed => Failed case NotInteger => NotInteger;
    }

    /** `parser:parse_object` */
    method ParseObj() returns (r: Result<Value>)
      requires Left() != [] && Left()[0] == LEFT
      modifies this
      ensures Follows(r, Left(), ParseValue(old(Left())))
      decreases |Left()|, 0
    {
      ghost var s := Left();
      assert SkipSpace(s) == s;
      var first := Next();
      SkipWs();
      if Peek() == Some(RIGHT) {
        first := Next();
        return Ok(Arr([]));
      }
      r := ParseMembers();
    }

    /** The loop of `parser:parse_object`. */
    method ParseMembers() returns (r: Result<Value>)
      modifies this
      ensures Follows(r, Left(), ParseFields(old(Left()), map[]))
      decreases |Left()|, 4
    {
      ghost var start := Left();
      var fields: map<text, Value> := map[];
      while true
        invariant |Left()| <= |start|
        invariant ParseFields(start, map[]) == ParseFields(Left(), fields)
        decreases |Left()|
      {
        ghost var here := Left();
        var pair := ParseKeyed();
        if !pair.Ok? {
          return if pair.Failed? then Failed else NotInteger;
        }
        ghost var rest := Left();
        var key, value := pair.value.0, pair.value.1;
        FieldsStep(here, fields, key, value, rest);
        fields := Assign(fields, key, value);
        SkipWs();
        var c := Next();
        if c == Some(RIGHT) {
          return Ok(Table(fields));
        }
        if c != Some(COMMA) {
          return Failed;
        }
      }
    }
  }

  lemma FieldsStep(s: text, fields: map<text, Value>, key: text, v: Value, rest: text)
    requires ParsePair(s) == Good((key, v), rest)
    ensures var all, u := Assign(fields, key, v), SkipSpace(rest);
            ParseFields(s, fields) == (if u == [] then Bad
                                       else if u[0] == RIGHT then Good(Table(all), u[1..])
                                       else if u[0] == COMMA then ParseFields(u[1..], all)
                                       else Bad)
  {}

  /** `json.decode` */
  method DecodeText(input: text) returns (r: Result<Value>)
    ensures r.Ok? <==> Decode(input).Some?
    ensures r.Ok? ==> Decode(input) == Some(r.value)
  {
    var parser := new Parser(input);
    assert parser.Left() == input;
    r := parser.ParseVal();
    if r.Ok? {
      parser.SkipWs();
      if parser.index < |input| {
        assert parser.Left() != [];
        r := Failed;
      }
    }
  }

  /** Printing and parsing again gives the tree of the very value, whatever order the keys were met in. */
  method PrintAndParse(v: Lua) returns (r: Result<Value>)
    requires Plain(v)
    ensures r == Ok(Tree(v)) && Wf(Tree(v)) && OfTree(Tree(v)) == v
  {
    TreeFaithful(v);
    var t := EncodeValue(v);
    DecodeEncode(Tree(v));
    r := DecodeText(t);
  }

  ghost function Prefixed(parts: text, p: Parsed<text>): Parsed<text> {
    if p.Good? then Good(parts + p.value, p.rest) else p
  }

  lemma PrefixNone(p: Parsed<text>)
    ensures Prefixed([], p) == p
  {
    if p.Good? {
      assert [] + p.value == p.value;
    }
  }

  lemma PrefixTwice(a: text, b: text, p: Parsed<text>)
    ensures Prefixed(a, Prefixed(b, p)) == Prefixed(a + b, p)
  {
    if p.Good? {
      assert a + (b + p.value) == a + b + p.value;
    }
  }
}
