/** The final inventory of the candidate's scratch tree: a recursive walk that counts entries and regular bytes,
  * under a depth limit, two quotas and the identity of the two baseline directories. */
module Scratch {
  import opened Bytes
  import opened Records
  import opened Wrappers

  const MAX_DEPTH: nat := 64

  datatype Identity = Identity(device: u64, inode: u64, mode: u32)
  datatype Baseline = Baseline(root: Identity, home: Identity, temporary: Identity)

  /** An object: whether every system call on it works, what `fstat` says, and the listing of a directory in some
    * order, without "." and "..". */
  datatype Node = Node(works: bool, id: Identity, size: int, children: seq<Entry>)
  datatype Entry = Entry(name: string, node: Node)

  predicate IsRegular(n: Node) { n.id.mode / 4096 % 16 == 8 }
  predicate IsDirectory(n: Node) { n.id.mode / 4096 % 16 == 4 }

  // --------------------------------------------- what the tree amounts to

  predicate BaselineName(name: string) { name == "home" || name == "tmp" }

  /** The candidate's entries: all of them, except "home" and "tmp" in the root. */
  function Count(entries: seq<Entry>, root: bool): nat {
    if entries == [] then 0
    else
      var last := entries[|entries| - 1];
      Count(entries[..|entries| - 1], root)
      + (if root && BaselineName(last.name) then 0 else 1)
      + (if IsDirectory(last.node) then Count(last.node.children, false) else 0)
  }

  function RegularBytes(entries: seq<Entry>): int {
    if entries == [] then 0
    else
      var last := entries[|entries| - 1];
      RegularBytes(entries[..|entries| - 1])
      + (if IsRegular(last.node) then last.node.size
         else if IsDirectory(last.node) then RegularBytes(last.node.children) else 0)
  }

  function Max(a: nat, b: nat): nat { if a > b then a else b }

  function Height(entries: seq<Entry>): nat {
    if entries == [] then 0
    else
      var last := entries[|entries| - 1];
      Max(Height(entries[..|entries| - 1]), 1 + if IsDirectory(last.node) then Height(last.node.children) else 0)
  }

  /** Only regular files, of sizes that are not negative, and directories, all of them observable. */
  predicate Plain(entries: seq<Entry>) {
    entries == []
    || (&& Plain(entries[..|entries| - 1])
        && var n := entries[|entries| - 1].node;
           n.works && ((IsRegular(n) && n.size >= 0) || (IsDirectory(n) && Plain(n.children))))
  }

  /** How often `name` occurs in a listing. */
  function Occurrences(entries: seq<Entry>, name: string): nat {
    if entries == [] then 0
    else Occurrences(entries[..|entries| - 1], name) + if entries[|entries| - 1].name == name then 1 else 0
  }

  /** The entries of that name are the directory that was there at the start. */
  predicate Keeps(entries: seq<Entry>, name: string, id: Identity) {
    forall i ::
      0 <= i < |entries| && entries[i].name == name ==> entries[i].node.id == id && !IsRegular(entries[i].node)
  }

  predicate Baselines(entries: seq<Entry>, b: Baseline) {
    && Keeps(entries, "home", b.home) && Keeps(entries, "tmp", b.temporary)
    && Occurrences(entries, "home") <= 1 && Occurrences(entries, "tmp") <= 1
  }

  lemma {:induction false} PlainBytes(entries: seq<Entry>)
    requires Plain(entries)
    ensures RegularBytes(entries) >= 0
  {
    if entries != [] {
      PlainBytes(entries[..|entries| - 1]);
      var n := entries[|entries| - 1].node;
      if IsDirectory(n) {
        PlainBytes(n.children);
      }
    }
  }

  function Nodes(entries: seq<Entry>): nat {
    if entries == [] then 0 else Nodes(entries[..|entries| - 1]) + 1 + Nodes(entries[|entries| - 1].node.children)
  }

  lemma {:induction false} NodesOf(entries: seq<Entry>, i: nat)
    requires i < |entries|
    ensures 1 + Nodes(entries[i].node.children) <= Nodes(entries)
    decreases |entries|
  {
    if i < |entries| - 1 {
      NodesOf(entries[..|entries| - 1], i);
    }
  }

  /** Where the walk stands: how much has been counted, against which limits. */
  datatype Tally = Tally(entries: nat, bytes: int, limitEntries: u64, limitBytes: u64)

  /** A listing can be added to the tally: kinds, depth and both quotas. */
  predicate Fits(list: seq<Entry>, depth: nat, t: Tally) {
    && Plain(list) && (list != [] ==> depth + Height(list) <= MAX_DEPTH)
    && t.entries + Count(list, depth == 0) <= t.limitEntries && t.bytes + RegularBytes(list) <= t.limitBytes
  }

  predicate BaselinesAt(list: seq<Entry>, depth: nat, b: Baseline) { depth == 0 ==> Baselines(list, b) }

  /** The same for one entry. */
  predicate EntryFits(e: Entry, depth: nat, t: Tally) {
    && depth + 1 <= MAX_DEPTH && e.node.works
    && var counted := t.entries + if depth == 0 && BaselineName(e.name) then 0 else 1;
       && counted <= t.limitEntries
       && if IsRegular(e.node) then e.node.size >= 0 && t.bytes + e.node.size <= t.limitBytes
          else IsDirectory(e.node) && Fits(e.node.children, depth + 1, t.(entries := counted))
  }

  function Added(list: seq<Entry>, depth: nat, t: Tally): Tally {
    t.(entries := t.entries + Count(list, depth == 0), bytes := t.bytes + RegularBytes(list))
  }

  /** A longer listing fits exactly when the shorter one does and the last entry fits after it. */
  lemma FitsLast(list: seq<Entry>, depth: nat, t: Tally)
    requires list != []
    ensures var init, last := list[..|list| - 1], list[|list| - 1];
            Fits(list, depth, t) <==> Fits(init, depth, t) && EntryFits(last, depth, Added(init, depth, t))
  {
    var init, last := list[..|list| - 1], list[|list| - 1];
    if Plain(list) {
      PlainBytes(init);
      if IsDirectory(last.node) {
        PlainBytes(last.node.children);
      }
    }
  }

  lemma {:induction false} FitsPrefix(list: seq<Entry>, i: nat, depth: nat, t: Tally)
    requires i <= |list| && Fits(list, depth, t)
    ensures Fits(list[..i], depth, t)
    decreases |list|
  {
    if i == |list| {
      assert list[..i] == list;
    } else {
      FitsLast(list, depth, t);
      FitsPrefix(list[..|list| - 1], i, depth, t);
      assert list[..|list| - 1][..i] == list[..i];
    }
  }

  lemma {:induction false} OccurrencesPrefix(list: seq<Entry>, i: nat, name: string)
    requires i <= |list|
    ensures Occurrences(list[..i], name) <= Occurrences(list, name)
    decreases |list|
  {
    if i == |list| {
      assert list[..i] == list;
    } else {
      OccurrencesPrefix(list[..|list| - 1], i, name);
      assert list[..|list| - 1][..i] == list[..i];
    }
  }

  lemma BaselinesPrefix(list: seq<Entry>, i: nat, b: Baseline)
    requires i <= |list| && Baselines(list, b)
    ensures Baselines(list[..i], b)
  {
    OccurrencesPrefix(list, i, "home");
    OccurrencesPrefix(list, i, "tmp");
  }

  /** The baseline checks for one more root entry. */
  predicate EntryBaseline(e: Entry, homes: nat, temporaries: nat, b: Baseline) {
    && (e.name == "home" ==> homes == 0 && e.node.id == b.home && !IsRegular(e.node))
    && (e.name == "tmp" ==> temporaries == 0 && e.node.id == b.temporary && !IsRegular(e.node))
  }

  lemma BaselinesLast(list: seq<Entry>, b: Baseline)
    requires list != []
    ensures var init, last := list[..|list| - 1], list[|list| - 1];
            Baselines(list, b) <==>
              Baselines(init, b) && EntryBaseline(last, Occurrences(init, "home"), Occurrences(init, "tmp"), b)
  {
    var init, last := list[..|list| - 1], list[|list| - 1];
    if Baselines(list, b) {
      BaselinesPrefix(list, |list| - 1, b);
    }
    assert list == init + [last];
    assert "home" != "tmp";
  }

  // ------------------------------------------------------------- the walk

  class Walk {
    const b: Baseline
    const limitBytes: u64
    const limitEntries: u64
    var bytes: u64
    var entries: u64
    var homeSeen: nat
    var temporarySeen: nat

    constructor (b: Baseline, limitBytes: u64, limitEntries: u64)
      ensures this.b == b && this.limitBytes == limitBytes && this.limitEntries == limitEntries
      ensures bytes == 0 && entries == 0 && homeSeen == 0 && temporarySeen == 0
    {
      this.b, this.limitBytes, this.limitEntries := b, limitBytes, limitEntries;
      bytes, entries, homeSeen, temporarySeen := 0, 0, 0, 0;
    }

    /** `count_candidate_entry` */
    method CountEntry() returns (ok: bool)
      requires entries <= limitEntries
      modifies this`entries
      ensures ok <==> old(entries) + 1 <= limitEntries
      ensures entries == old(entries) + if ok then 1 else 0
    {
      if entries == U64_MAX || entries + 1 > limitEntries {
        return false;
      }
      entries := entries + 1;
      ok := true;
    }

    /** `count_regular_bytes` */
    method CountBytes(size: int) returns (ok: bool)
      requires bytes <= limitBytes
      modifies this`bytes
      ensures ok <==> 0 <= size && old(bytes) + size <= limitBytes
      ensures bytes == old(bytes) + if ok then size else 0
    {
      if size < 0 || size > U64_MAX || size > U64_MAX - bytes || bytes + size > limitBytes {
        return false;
      }
      bytes := bytes + size;
      ok := true;
    }

    ghost function Now(): Tally reads this { Tally(entries, bytes, limitEntries, limitBytes) }

    /** The loop body of `walk_directory` for one entry. */
    method Visit(e: Entry, depth: nat) returns (ok: bool)
      requires entries <= limitEntries && bytes <= limitBytes
      modifies this
      ensures entries <= limitEntries && bytes <= limitBytes
      ensures ok <==> && EntryFits(e, depth, old(Now()))
                      && (depth == 0 ==> EntryBaseline(e, old(homeSeen), old(temporarySeen), b))
      ensures ok ==> entries == old(entries) + Count([e], depth == 0) && bytes == old(bytes) + RegularBytes([e])
      ensures ok ==> homeSeen == old(homeSeen) + (if depth == 0 && e.name == "home" then 1 else 0)
      ensures ok ==> temporarySeen == old(temporarySeen) + (if depth == 0 && e.name == "tmp" then 1 else 0)
      decreases 1 + Nodes(e.node.children), 0
    {
      Single(e, depth == 0);
      if depth + 1 > MAX_DEPTH || !e.node.works {
        return false;
      }
      var baseline := false;
      if depth == 0 && e.name == "home" {
        baseline := true;
        homeSeen := homeSeen + 1;
        if homeSeen != 1 || e.node.id != b.home {
          return false;
        }
      } else if depth == 0 && e.name == "tmp" {
        baseline := true;
        temporarySeen := temporarySeen + 1;
        if temporarySeen != 1 || e.node.id != b.temporary {
          return false;
        }
      }
      if !baseline {
        ok := CountEntry();
        if !ok {
          return;
        }
      }
      if IsRegular(e.node) {
        if baseline {
          return false;
        }
        ok := CountBytes(e.node.size);
      } else if IsDirectory(e.node) {
        ok := Descend(e.node.children, depth + 1);
      } else {
        ok := false;
      }
    }

    /** `walk_directory`: succeeds exactly if the listing fits, and then adds its totals. */
    method Descend(list: seq<Entry>, depth: nat) returns (ok: bool)
      requires entries <= limitEntries && bytes <= limitBytes
      requires depth == 0 ==> homeSeen == 0 && temporarySeen == 0
      modifies this
      ensures entries <= limitEntries && bytes <= limitBytes
      ensures ok <==> Fits(list, depth, old(Now())) && BaselinesAt(list, depth, b)
      ensures ok ==> Now() == Added(list, depth, old(Now()))
      ensures ok ==> homeSeen == old(homeSeen) + (if depth == 0 then Occurrences(list, "home") else 0)
      ensures ok ==> temporarySeen == old(temporarySeen) + (if depth == 0 then Occurrences(list, "tmp") else 0)
      decreases Nodes(list), 1
    {
      ghost var start := Now();
      var i := 0;
      while i < |list|
        invariant 0 <= i <= |list|
        invariant Fits(list[..i], depth, start) && BaselinesAt(list[..i], depth, b)
        invariant Now() == Added(list[..i], depth, start)
        invariant homeSeen == old(homeSeen) + (if depth == 0 then Occurrences(list[..i], "home") else 0)
        invariant temporarySeen == old(temporarySeen) + (if depth == 0 then Occurrences(list[..i], "tmp") else 0)
      {
        NodesOf(list, i);
        Next(list, i, depth, start, b);
        ok := Visit(list[i], depth);
        if !ok {
          return;
        }
        i := i + 1;
      }
      assert list[..|list|] == list;
      ok := true;
    }
  }

  /** One more entry: what must hold of it for the longer listing to fit, and what it adds. */
  lemma Next(list: seq<Entry>, i: nat, depth: nat, t: Tally, b: Baseline)
    requires i < |list| && Fits(list[..i], depth, t) && BaselinesAt(list[..i], depth, b)
    ensures var before, e := list[..i], list[i];
            var homes, temporaries := Occurrences(before, "home"), Occurrences(before, "tmp");
            var fine := EntryFits(e, depth, Added(before, depth, t))
                        && (depth == 0 ==> EntryBaseline(e, homes, temporaries, b));
            && (fine <==> Fits(list[..i + 1], depth, t) && BaselinesAt(list[..i + 1], depth, b))
            && (!fine ==> !(Fits(list, depth, t) && BaselinesAt(list, depth, b)))
    ensures Count(list[..i + 1], depth == 0) == Count(list[..i], depth == 0) + Count([list[i]], depth == 0)
    ensures RegularBytes(list[..i + 1]) == RegularBytes(list[..i]) + RegularBytes([list[i]])
    ensures Occurrences(list[..i + 1], "home")
         == Occurrences(list[..i], "home") + if list[i].name == "home" then 1 else 0
    ensures Occurrences(list[..i + 1], "tmp") == Occurrences(list[..i], "tmp") + if list[i].name == "tmp" then 1 else 0
  {
    var next := list[..i + 1];
    assert next[..i] == list[..i] && next[i] == list[i];
    FitsLast(next, depth, t);
    BaselinesLast(next, b);
    Single(list[i], depth == 0);
    if Fits(list, depth, t) && BaselinesAt(list, depth, b) {
      FitsPrefix(list, i + 1, depth, t);
      if depth == 0 {
        BaselinesPrefix(list, i + 1, b);
      }
    }
  }

  lemma Single(e: Entry, root: bool)
    ensures Count([e], root) == (if root && BaselineName(e.name) then 0 else 1)
                               + (if IsDirectory(e.node) then Count(e.node.children, false) else 0)
    ensures RegularBytes([e]) == (if IsRegular(e.node) then e.node.size
                                  else if IsDirectory(e.node) then RegularBytes(e.node.children) else 0)
  {
    assert [e][..0] == [];
  }

  // -------------------------------------------------------- the measurement

  datatype Measured = Invalid | Ambiguous | Complete(m: ScratchMeasurement)

  /** What the final tree must be for a complete measurement. */
  predicate Conforms(list: seq<Entry>, b: Baseline, limitBytes: u64, limitEntries: u64) {
    && Plain(list) && Height(list) <= MAX_DEPTH
    && Count(list, true) <= limitEntries && RegularBytes(list) <= limitBytes
    && Keeps(list, "home", b.home) && Occurrences(list, "home") == 1
    && Keeps(list, "tmp", b.temporary) && Occurrences(list, "tmp") == 1
  }

  /** `statvfs`: free blocks and free files; the largest value stands for "not known". */
  datatype Capacity = Unavailable | Free(blocks: u64, files: u64)

  predicate Known(c: Capacity) { c.Free? && c.blocks != U64_MAX && c.files != U64_MAX }

  /** `proc17_qa_scratch_measure_final`: complete exactly for a conforming tree under an unchanged root of which every
    * object can be observed, on a file system that tells its capacity; and then with the totals of the tree. */
  method MeasureFinal(root: Option<Identity>, opens: bool, list: seq<Entry>, b: Baseline, limitBytes: u64,
                      limitEntries: u64, capacity: Capacity) returns (r: Measured)
    ensures r.Invalid? <==> limitBytes == 0 || limitEntries == 0
    ensures r.Complete? <==>
              && limitBytes != 0 && limitEntries != 0 && root == Some(b.root) && opens
              && Conforms(list, b, limitBytes, limitEntries) && Known(capacity)
    ensures r.Complete? ==>
              && r.m.bytes == RegularBytes(list) && r.m.entries == Count(list, true)
              && r.m.limitBytes == limitBytes && r.m.limitEntries == limitEntries && ScratchOk(r.m)
              && (r.m.byteFull == 1 <==> capacity.blocks == 0) && (r.m.entryFull == 1 <==> capacity.files == 0)
  {
    if limitBytes == 0 || limitEntries == 0 {
      return Invalid;
    }
    if root != Some(b.root) || !opens {
      return Ambiguous;
    }
    var walk := new Walk(b, limitBytes, limitEntries);
    var ok := walk.Descend(list, 0);
    if !ok || walk.homeSeen != 1 || walk.temporarySeen != 1 || !Known(capacity) {
      return Ambiguous;
    }
    if Plain(list) {
      PlainBytes(list);
    }
    r := Complete(ScratchMeasurement(walk.bytes, walk.entries, limitBytes, limitEntries,
                                     if capacity.blocks == 0 then 1 else 0, if capacity.files == 0 then 1 else 0, 1));
  }

  // --------------------------------------------------- any listing order

  lemma {:induction false} Concat(a: seq<Entry>, b: seq<Entry>, root: bool, name: string)
    ensures Count(a + b, root) == Count(a, root) + Count(b, root)
    ensures RegularBytes(a + b) == RegularBytes(a) + RegularBytes(b)
    ensures Height(a + b) == Max(Height(a), Height(b))
    ensures Plain(a + b) <==> Plain(a) && Plain(b)
    ensures Occurrences(a + b, name) == Occurrences(a, name) + Occurrences(b, name)
    decreases |b|
  {
    if b == [] {
      assert a + b == a;
    } else {
      var init := b[..|b| - 1];
      assert (a + b)[..|a + b| - 1] == a + init;
      Concat(a, init, root, name);
    }
  }

  /** Two listings between which the walk cannot tell a difference. */
  ghost predicate Same(a: seq<Entry>, b: seq<Entry>, root: bool, name: string) {
    && Count(a, root) == Count(b, root) && RegularBytes(a) == RegularBytes(b) && Height(a) == Height(b)
    && Plain(a) == Plain(b) && Occurrences(a, name) == Occurrences(b, name)
    && forall id :: Keeps(a, name, id) <==> Keeps(b, name, id)
  }

  lemma KeepsConcat(a: seq<Entry>, b: seq<Entry>, name: string, id: Identity)
    ensures Keeps(a + b, name, id) <==> Keeps(a, name, id) && Keeps(b, name, id)
  {
    if Keeps(a + b, name, id) {
      assert forall i :: 0 <= i < |a| ==> a[i] == (a + b)[i];
      assert forall i :: 0 <= i < |b| ==> b[i] == (a + b)[|a| + i];
    }
  }

  lemma SameConcat(p: seq<Entry>, a: seq<Entry>, b: seq<Entry>, q: seq<Entry>, root: bool, name: string)
    requires Same(a, b, root, name)
    ensures Same(p + a + q, p + b + q, root, name)
  {
    Concat(p, a, root, name);
    Concat(p, b, root, name);
    Concat(p + a, q, root, name);
    Concat(p + b, q, root, name);
    forall id ensures Keeps(p + a + q, name, id) <==> Keeps(p + b + q, name, id) {
      KeepsConcat(p, a, name, id);
      KeepsConcat(p, b, name, id);
      KeepsConcat(p + a, q, name, id);
      KeepsConcat(p + b, q, name, id);
    }
  }

  lemma SameExchange(u: seq<Entry>, v: seq<Entry>, root: bool, name: string)
    ensures Same(u + v, v + u, root, name)
  {
    Concat(u, v, root, name);
    Concat(v, u, root, name);
    forall id ensures Keeps(u + v, name, id) <==> Keeps(v + u, name, id) {
      KeepsConcat(u, v, name, id);
      KeepsConcat(v, u, name, id);
    }
  }

  /** The same object, but perhaps with another listing of its children. */
  predicate SameObject(e: Entry, f: Entry) { f == e.(node := e.node.(children := f.node.children)) }

  /** Two listings of one tree: every directory lists the same multiset of entries, in any order. */
  ghost predicate Shuffled(a: seq<Entry>, b: seq<Entry>)
    decreases a
  {
    exists c: seq<Entry> :: multiset(c) == multiset(b) && Inside(a, c)
  }

  /** The same entries in the same order, with shuffled listings below. */
  ghost predicate Inside(a: seq<Entry>, c: seq<Entry>)
    decreases a, 0
  {
    |a| == |c|
    && forall i :: 0 <= i < |a| ==> SameObject(a[i], c[i]) && Shuffled(a[i].node.children, c[i].node.children)
  }

  lemma SameEntry(e: Entry, f: Entry, root: bool, name: string)
    requires SameObject(e, f) && Same(e.node.children, f.node.children, false, name)
    ensures Same([e], [f], root, name)
  {
    assert [e][..0] == [] && [f][..0] == [];
  }

  /** Taking the last entry of one listing out of the other. */
  lemma TakeOut(init: seq<Entry>, x: Entry, b: seq<Entry>) returns (p: seq<Entry>, q: seq<Entry>)
    requires multiset(init + [x]) == multiset(b)
    ensures b == p + [x] + q && multiset(init) == multiset(p + q)
  {
    assert x in multiset(init + [x]);
    var j :| 0 <= j < |b| && b[j] == x;
    p, q := b[..j], b[j + 1..];
    assert b == p + [x] + q;
    assert multiset(p + [x] + q) == multiset(p + q) + multiset{x};
    assert multiset(init + [x]) == multiset(init) + multiset{x};
    assert multiset(init) == multiset(init) + multiset{x} - multiset{x};
  }

  lemma MoveLast(p: seq<Entry>, x: Entry, q: seq<Entry>, root: bool, name: string)
    ensures Same(p + q + [x], p + [x] + q, root, name)
  {
    SameExchange(q, [x], root, name);
    SameConcat(p, q + [x], [x] + q, [], root, name);
    assert p + (q + [x]) + [] == p + q + [x];
    assert p + ([x] + q) + [] == p + [x] + q;
  }

  /** Reordering one listing. */
  lemma {:induction false} MultisetSame(a: seq<Entry>, b: seq<Entry>, root: bool, name: string)
    requires multiset(a) == multiset(b)
    ensures Same(a, b, root, name)
    decreases |a|
  {
    if a == [] {
      assert |multiset(b)| == 0;
    } else {
      var init, x := a[..|a| - 1], a[|a| - 1];
      assert a == init + [x];
      var p, q := TakeOut(init, x, b);
      MultisetSame(init, p + q, root, name);
      SameConcat([], init, p + q, [x], root, name);
      assert [] + init + [x] == a && [] + (p + q) + [x] == p + q + [x];
      MoveLast(p, x, q, root, name);
    }
  }

  lemma {:induction false} InsideSame(a: seq<Entry>, c: seq<Entry>, root: bool, name: string)
    requires Inside(a, c)
    ensures Same(a, c, root, name)
    decreases a, 0
  {
    if a != [] {
      var n := |a| - 1;
      InsideSame(a[..n], c[..n], root, name);
      ShuffledSame(a[n].node.children, c[n].node.children, false, name);
      SameEntry(a[n], c[n], root, name);
      assert a == a[..n] + [a[n]] && c == c[..n] + [c[n]];
      SameLonger(a[..n], c[..n], [a[n]], [c[n]], root, name);
    }
  }

  lemma SameLonger(a: seq<Entry>, c: seq<Entry>, x: seq<Entry>, y: seq<Entry>, root: bool, name: string)
    requires Same(a, c, root, name) && Same(x, y, root, name)
    ensures Same(a + x, c + y, root, name)
  {
    SameConcat([], a, c, x, root, name);
    SameConcat(c, x, y, [], root, name);
    assert [] + a + x == a + x && [] + c + x == c + x + [] && c + y + [] == c + y;
    assert c + x + [] == c + x;
  }

  lemma {:induction false} ShuffledSame(a: seq<Entry>, b: seq<Entry>, root: bool, name: string)
    requires Shuffled(a, b)
    ensures Same(a, b, root, name)
    decreases a, 1
  {
    var c: seq<Entry> :| multiset(c) == multiset(b) && Inside(a, c);
    InsideSame(a, c, root, name);
    MultisetSame(c, b, root, name);
  }

  /** The outcome and the totals do not depend on the order in which any directory is listed. */
  lemma OrderIrrelevant(list: seq<Entry>, other: seq<Entry>, b: Baseline, limitBytes: u64, limitEntries: u64)
    requires Shuffled(list, other)
    ensures Conforms(other, b, limitBytes, limitEntries) <==> Conforms(list, b, limitBytes, limitEntries)
    ensures Count(other, true) == Count(list, true) && RegularBytes(other) == RegularBytes(list)
  {
    ShuffledSame(list, other, true, "home");
    ShuffledSame(list, other, true, "tmp");
  }
}
