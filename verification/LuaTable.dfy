/** Lua values as the printer meets them: a table is one map from integer and string keys, and whether it is an array is
  * found out by counting. */
module LuaTable {
  import opened Json

  datatype Key = Num(n: int) | Name(s: text)

  datatype Lua =
    | LuaNil
    | LuaBool(b: bool)
    | LuaInt(i: int)
    | LuaStr(s: text)
    | LuaMap(m: map<Key, Lua>)

  /** The keys are exactly 1 to `n`. */
  ghost predicate Counts(keys: set<Key>, n: nat) { forall k :: k in keys <==> k.Num? && 1 <= k.n <= n }

  ghost predicate ArrayLike(m: map<Key, Lua>) { exists n: nat :: Counts(m.Keys, n) }

  predicate AllNames(m: map<Key, Lua>) { forall k :: k in m ==> k.Name? }

  /** The values that JSON text preserves: 64-bit integers, tables that are arrays without holes or have string keys. */
  ghost predicate Plain(v: Lua) {
    match v
    case LuaInt(i) => INT_MIN <= i <= INT_MAX
    case LuaMap(m) => (ArrayLike(m) || AllNames(m)) && forall k :: k in m ==> Plain(m[k]) && !m[k].LuaNil?
    case _ => true
  }

  /** `keys` are 1 to their number. */
  lemma {:induction false} CountKeys(keys: set<Key>, n: nat)
    requires Counts(keys, n)
    ensures |keys| == n
    decreases n
  {
    if n == 0 {
      assert keys == {};
    } else {
      var rest := keys - {Num(n)};
      CountKeys(rest, n - 1);
      assert keys == rest + {Num(n)};
    }
  }

  /** Positive keys whose greatest is their number leave no hole. */
  lemma {:induction false} NoHole(keys: set<Key>, most: nat)
    requires forall k :: k in keys ==> k.Num? && 1 <= k.n <= most
    ensures |keys| <= most
    ensures |keys| == most ==> Counts(keys, most)
    decreases most
  {
    if most == 0 {
      assert keys == {};
    } else {
      var rest := keys - {Num(most)};
      NoHole(rest, most - 1);
      if Num(most) in keys {
        assert |keys| == |rest| + 1;
        if |keys| == most {
          forall k ensures k in keys <==> k.Num? && 1 <= k.n <= most {
            assert k != Num(most) ==> (k in keys <==> k in rest);
          }
        }
      } else {
        assert rest == keys;
      }
    }
  }

  /** `is_array`: the greatest key is the number of keys, whatever order `pairs` yields them in. */
  method IsArray(m: map<Key, Lua>) returns (yes: bool)
    ensures yes <==> ArrayLike(m)
  {
    var most, count: nat := 0, 0;
    var left := m.Keys;
    assert m.Keys - left == {};
    while left != {}
      invariant left <= m.Keys && count == |m.Keys - left|
      invariant forall k :: k in m.Keys - left ==> k.Num? && 1 <= k.n <= most
      invariant most == 0 || Num(most) in m.Keys - left
      decreases |left|
    {
      var k :| k in left;
      if !k.Num? || k.n < 1 {
        NotArray(m, k);
        return false;
      }
      assert m.Keys - (left - {k}) == (m.Keys - left) + {k};
      most := if k.n > most then k.n else most;
      count := count + 1;
      left := left - {k};
    }
    assert m.Keys - left == m.Keys;
    NoHole(m.Keys, most);
    forall n: nat | Counts(m.Keys, n) ensures most == count {
      CountKeys(m.Keys, n);
      if n > 0 {
        assert Num(n) in m.Keys;
      }
    }
    yes := most == count;
    assert yes ==> Counts(m.Keys, most);
  }

  lemma NotArray(m: map<Key, Lua>, k: Key)
    requires k in m && (!k.Num? || k.n < 1)
    ensures !ArrayLike(m)
  {}

  // ----------------------------------------------------- tables and trees

  /** The tree of a value: the empty table is the empty array. */
  ghost function Tree(v: Lua): (t: Value)
    requires Plain(v)
    ensures t.Nil? <==> v.LuaNil?
    decreases v, 1
  {
    match v
    case LuaNil => Nil
    case LuaBool(b) => Bool(b)
    case LuaInt(i) => Int(i)
    case LuaStr(s) => Str(s)
    case LuaMap(m) => if ArrayLike(m) then Arr(Items(v, |m|)) else Obj(Fields(v))
  }

  /** The first `n` elements of an array. */
  ghost function Items(v: Lua, n: nat): (items: seq<Value>)
    requires Plain(v) && v.LuaMap? && ArrayLike(v.m) && n <= |v.m|
    ensures |items| == n
    decreases v, 0, n
  {
    if n == 0 then []
    else
      ArrayKey(v.m, n);
      Items(v, n - 1) + [Tree(v.m[Num(n)])]
  }

  ghost function Fields(v: Lua): (fields: map<text, Value>)
    requires Plain(v) && v.LuaMap? && AllNames(v.m)
    ensures forall s :: s in fields <==> Name(s) in v.m
    decreases v, 0, 0
  {
    map k | k in v.m && k.Name? :: k.s := Tree(v.m[k])
  }

  lemma ArrayKey(m: map<Key, Lua>, i: nat)
    requires ArrayLike(m) && 1 <= i <= |m|
    ensures Num(i) in m
  {
    var n: nat :| Counts(m.Keys, n);
    CountKeys(m.Keys, n);
    assert |m.Keys| == |m|;
  }

  lemma {:induction false} ItemAt(v: Lua, n: nat, i: nat)
    requires Plain(v) && v.LuaMap? && ArrayLike(v.m) && i < n <= |v.m|
    ensures Num(i + 1) in v.m && Items(v, n)[i] == Tree(v.m[Num(i + 1)])
    decreases n
  {
    ArrayKey(v.m, i + 1);
    if i < n - 1 {
      ItemAt(v, n - 1, i);
    }
  }

  lemma {:induction false} TreeWf(v: Lua)
    requires Plain(v)
    ensures Wf(Tree(v))
    decreases v
  {
    if v.LuaMap? {
      if ArrayLike(v.m) {
        forall i | 0 <= i < |v.m| ensures Wf(Items(v, |v.m|)[i]) && !Items(v, |v.m|)[i].Nil? {
          ItemAt(v, |v.m|, i);
          TreeWf(v.m[Num(i + 1)]);
        }
      } else {
        forall s | s in Fields(v) ensures Wf(Fields(v)[s]) && !Fields(v)[s].Nil? {
          TreeWf(v.m[Name(s)]);
        }
        NotEmpty(v);
      }
    }
  }

  lemma NotEmpty(v: Lua)
    requires Plain(v) && v.LuaMap? && !ArrayLike(v.m)
    ensures Fields(v) != map[]
  {
    if v.m.Keys == {} {
      assert Counts(v.m.Keys, 0);
    } else {
      var k :| k in v.m.Keys;
      assert k.s in Fields(v);
    }
  }

  ghost function Numbers(n: nat): (keys: set<Key>)
    ensures Counts(keys, n)
  {
    if n == 0 then {} else Numbers(n - 1) + {Num(n)}
  }

  ghost function Names(names: set<text>): (keys: set<Key>)
    ensures forall k :: k in keys <==> k.Name? && k.s in names
  {
    var keys := set s | s in names :: Name(s);
    assert forall k: Key :: k in keys <==> k.Name? && k.s in names by {
      forall k: Key | k.Name? && k.s in names ensures k in keys {
        assert k == Name(k.s);
      }
    }
    keys
  }

  /** The Lua value that a tree stands for. */
  ghost function OfTree(t: Value): Lua
    requires Wf(t)
  {
    match t
    case Nil => LuaNil
    case Bool(b) => LuaBool(b)
    case Int(i) => LuaInt(i)
    case Str(s) => LuaStr(s)
    case Arr(items) => LuaMap(map k | k in Numbers(|items|) :: OfTree(items[k.n - 1]))
    case Obj(fields) => LuaMap(map k | k in Names(fields.Keys) :: OfTree(fields[k.s]))
  }

  /** No table is lost or confused: a value is what its tree stands for. */
  lemma {:induction false} TreeFaithful(v: Lua)
    requires Plain(v)
    ensures Wf(Tree(v)) && OfTree(Tree(v)) == v
    decreases v, 1
  {
    TreeWf(v);
    if v.LuaMap? {
      if ArrayLike(v.m) {
        ArrayFaithful(v);
      } else {
        FieldsFaithful(v);
      }
    }
  }

  lemma OfArray(items: seq<Value>, k: Key)
    requires Wf(Arr(items))
    ensures var m := OfTree(Arr(items)).m;
            && (k in m <==> k.Num? && 1 <= k.n <= |items|)
            && (k in m ==> m[k] == OfTree(items[k.n - 1]))
  {}

  lemma OfFields(fields: map<text, Value>, k: Key)
    requires Wf(Obj(fields))
    ensures var m := OfTree(Obj(fields)).m;
            && (k in m <==> k.Name? && k.s in fields)
            && (k in m ==> m[k] == OfTree(fields[k.s]))
  {}

  lemma FieldAt(v: Lua, k: Key)
    requires Plain(v) && v.LuaMap? && AllNames(v.m) && k in v.m
    ensures k.s in Fields(v) && Fields(v)[k.s] == Tree(v.m[k])
  {
    assert k == Name(k.s);
  }

  lemma {:induction false} ArrayFaithful(v: Lua)
    requires Plain(v) && v.LuaMap? && ArrayLike(v.m) && Wf(Tree(v))
    ensures OfTree(Tree(v)) == v
    decreases v, 0
  {
    var items := Items(v, |v.m|);
    var m := OfTree(Arr(items)).m;
    var n: nat :| Counts(v.m.Keys, n);
    CountKeys(v.m.Keys, n);
    assert |v.m.Keys| == |v.m|;
    forall k ensures k in m <==> k in v.m {
      OfArray(items, k);
    }
    forall k | k in v.m ensures m[k] == v.m[k] {
      OfArray(items, k);
      ItemAt(v, |v.m|, k.n - 1);
      TreeFaithful(v.m[k]);
    }
    assert m == v.m;
  }

  lemma {:induction false} FieldsFaithful(v: Lua)
    requires Plain(v) && v.LuaMap? && !ArrayLike(v.m) && Wf(Tree(v))
    ensures OfTree(Tree(v)) == v
    decreases v, 0
  {
    var m := OfTree(Obj(Fields(v))).m;
    forall k ensures k in m <==> k in v.m {
      OfFields(Fields(v), k);
      if k in v.m {
        FieldAt(v, k);
      }
      if k.Name? && k.s in Fields(v) {
        assert k == Name(k.s);
      }
    }
    forall k | k in v.m ensures m[k] == v.m[k] {
      OfFields(Fields(v), k);
      FieldAt(v, k);
      TreeFaithful(v.m[k]);
    }
    assert m == v.m;
  }
}
