/** Reading a repository file back: classify, open, read with short reads, check that nothing changed, and observe
  * the name once more; while others change the file system between any two system calls. */
module ReadFile {
  import opened Bytes
  import opened Wrappers

  const MAX_EINTR_RETRIES: nat := 64

  datatype Root = Root(device: u64, inode: u64, mount: u64)
  datatype Handle = Handle(project: Root, repository: Root)

  datatype Id = Id(device: u64, inode: u64)
  /** The `struct stat` fields that are compared. */
  datatype Stat = Stat(id: Id, regular: bool, mode: nat, uid: nat, gid: nat, links: nat, size: nat, modified: int,
    changed: int)
  datatype Object = Object(stat: Stat, content: seq<byte>)

  /** One moment: the directory that the project path names; beneath each project directory, the directory that the
    * repository path names; beneath each of those, the directory that the parent path names; in each directory, what
    * the final name is bound to; and the objects. */
  datatype Moment = Moment(
    project: Option<Root>, repositories: map<Root, Root>, parents: map<Root, Id>, names: map<Id, Id>,
    objects: map<Id, Object>)

  /** The file system over time; the n-th system call sees moment n. */
  type World = nat -> Moment

  /** A lookup beneath a directory that is held open: others may have moved it meanwhile. */
  function Lookup<K, V>(m: map<K, V>, key: K): Option<V> { if key in m then Some(m[key]) else None }

  /** A regular file's size is that of its content. */
  predicate SizeTold(o: Object) { o.stat.regular ==> o.stat.size == |o.content| }

  ghost predicate WorldShape(w: World) {
    forall t: nat ::
      && (forall d :: d in w(t).names ==> w(t).names[d] in w(t).objects)
      && (forall i :: i in w(t).objects ==> w(t).objects[i].stat.id == i
                                            && SizeTold(w(t).objects[i]))
  }

  /** Object `i` has the same content from `s` to `t`. */
  ghost predicate Unchanged(w: World, i: Id, s: nat, t: nat) {
    forall u ::
      s <= u <= t ==> i in w(s).objects && i in w(u).objects && w(u).objects[i].content == w(s).objects[i].content
  }

  /** Object `i` has the same stamp at `s` and at the later `t`. */
  predicate SameStamp(w: World, i: Id, s: nat, t: nat) {
    s <= t && i in w(s).objects && i in w(t).objects && w(s).objects[i].stat == w(t).objects[i].stat
  }

  /** The assumption on version stamps: no content change goes by without altering them for good. */
  ghost predicate StampsTell(w: World) {
    forall i: Id, s: nat, t: nat :: SameStamp(w, i, s, t) ==> Unchanged(w, i, s, t)
  }

  /** `same_file_identity` */
  predicate SameIdentity(a: Stat, b: Stat) { a.id == b.id && a.regular == b.regular }

  /** `same_file_version` */
  predicate SameVersion(a: Stat, b: Stat) { a == b }

  datatype Read = Count(n: nat) | Interrupted | ReadError

  /** Which system calls succeed, and what each `read` is willing to give. */
  datatype Environment = Environment(
    pathOk: bool, opensRoots: bool, opensParent: bool, classifyFault: bool, statsTarget: bool, opensTarget: bool,
    statsBefore: bool, allocates: bool, gives: nat -> Read, statsAfter: bool, closes: bool,
    reopensRoots: bool, reopensParent: bool, reobserveFault: bool, restats: bool, recloses: bool)

  datatype Result = Failed | Missing | Other | Regular(content: seq<byte>)

  /** The parent directory that three calls from moment `k` on reach, one after the other: project and repository
    * must be those of the handle, on one mount. */
  function Parent(w: World, h: Handle, k: nat): Option<Id> {
    if w(k).project == Some(h.project) && Lookup(w(k + 1).repositories, h.project) == Some(h.repository)
       && h.project.mount == h.repository.mount
    then Lookup(w(k + 2).parents, h.repository)
    else None
  }

  /** What the fourth call finds under the final name in that parent. */
  function Sight(w: World, h: Handle, k: nat): Option<Id>
    requires Parent(w, h, k).Some?
  {
    Lookup(w(k + 3).names, Parent(w, h, k).value)
  }

  /** The moments of the two `fstat` calls before the reads: of the classified and of the opened target. */
  const CLASSIFIED: nat := 4
  const OPENED: nat := 6

  /** Object `i` has this version at moment `t`. */
  predicate Is(w: World, i: Id, t: nat, stat: Stat) { i in w(t).objects && SameVersion(w(t).objects[i].stat, stat) }

  /** What a successful read promises: the handle's roots and a parent are reached by the calls from moment 0 and again
    * by those from moment `k` on; both times nothing is found, or the same object of another kind in the same version,
    * or the same regular file, whose content is the result's from its opening until its last `fstat`. */
  ghost predicate Stable(w: World, h: Handle, r: Result, max: nat, k: nat)
    requires WorldShape(w)
  {
    && Parent(w, h, 0).Some? && Parent(w, h, k).Some? && Sight(w, h, k) == Sight(w, h, 0) && CLASSIFIED <= k
    && match r
       case Failed => true
       case Missing => Sight(w, h, k).None?
       case Other =>
         && Sight(w, h, k).Some?
         && var i := Sight(w, h, k).value;
            && i in w(CLASSIFIED).objects && !w(CLASSIFIED).objects[i].stat.regular
            && Is(w, i, k + 4, w(CLASSIFIED).objects[i].stat)
       case Regular(content) =>
         && Sight(w, h, k).Some? && OPENED <= k
         && var i := Sight(w, h, k).value;
            && Unchanged(w, i, OPENED, k + 4) && w(k + 4).objects[i].stat.regular
            && content == w(k + 4).objects[i].content[..Min(|w(k + 4).objects[i].content|, max)]
  }

  /** Nobody changes anything. */
  ghost predicate Still(w: World) { forall t :: w(t) == w(0) }

  /** The calls that every successful read needs. */
  predicate Opens(env: Environment) {
    env.pathOk && env.opensRoots && env.opensParent && !env.classifyFault && env.closes
    && env.reopensRoots && env.reopensParent && !env.reobserveFault && env.recloses
  }

  /** From the `k`-th read on, the content is read up to the limit or its end before `retries` passes its limit. */
  ghost predicate ReadsThrough(env: Environment, content: seq<byte>, k: nat, offset: nat, max: nat, retries: nat)
    decreases (if offset < max then max - offset else 0)
              + if retries <= MAX_EINTR_RETRIES then MAX_EINTR_RETRIES + 1 - retries else 0
  {
    offset >= max
    || (match env.gives(k)
        case Interrupted => retries < MAX_EINTR_RETRIES && ReadsThrough(env, content, k + 1, offset, max, retries + 1)
        case ReadError => false
        case Count(n) =>
          var piece := PieceAt(content, offset, n);
          piece == [] || (|piece| <= max - offset && ReadsThrough(env, content, k + 1, offset + |piece|, max, retries)))
  }

  /** What a read of an undisturbed target gives. */
  ghost function Expected(w: World, h: Handle, env: Environment, max: nat): Result
    requires WorldShape(w) && Still(w)
  {
    if !Opens(env) || Parent(w, h, 0).None? then Failed
    else if Sight(w, h, 0).None? then Missing
    else
      var o := w(3).objects[Sight(w, h, 0).value];
      if !env.statsTarget || !env.restats then Failed
      else if !o.stat.regular then Other
      else if env.opensTarget && env.statsBefore && env.allocates && env.statsAfter
              && ReadsThrough(env, o.content, 0, 0, max, 0)
      then Regular(o.content[..Min(|o.content|, max)])
      else Failed
  }

  /** `open_identity_pair`, the comparison with the handle and the opening of the parent. */
  method OpenParent(w: World, h: Handle, rootsOk: bool, parentOk: bool, k: nat) returns (parent: Option<Id>)
    ensures parent == if rootsOk && parentOk then Parent(w, h, k) else None
  {
    if !rootsOk || w(k).project.None? {
      return None;
    }
    var project := w(k).project.value;
    var repository := Lookup(w(k + 1).repositories, project);
    if repository.None? || repository.value.mount != project.mount {
      return None;
    }
    if project != h.project || repository.value != h.repository || !parentOk {
      return None;
    }
    parent := Lookup(w(k + 2).parents, repository.value);
  }

  /** `reobserve_named_target`: five calls from moment `k` on, between any two of which others may act. */
  method Reobserve(w: World, h: Handle, env: Environment, k: nat, expected: Option<Stat>) returns (ok: bool)
    requires WorldShape(w)
    ensures ok <==> (&& env.reopensRoots && env.reopensParent && Parent(w, h, k).Some? && !env.reobserveFault
                     && env.recloses
                     && match expected
                        case None => Sight(w, h, k).None?
                        case Some(stat) =>
                          env.restats && Sight(w, h, k) == Some(stat.id) && Is(w, stat.id, k + 4, stat))
  {
    var parent := OpenParent(w, h, env.reopensRoots, env.reopensParent, k);
    if parent.None? {
      return false;
    }
    var found := Lookup(w(k + 3).names, parent.value);
    if env.reobserveFault {
      return false;
    }
    if expected.None? {
      return found.None? && env.recloses;
    }
    if found.None? || !env.restats || found.value !in w(k + 4).objects {
      return false;
    }
    var stat := w(k + 4).objects[found.value].stat;
    ok := SameVersion(expected.value, stat) && env.recloses;
  }

  /** The read loop, from moment `k` on: if the object does not change meanwhile, what is read is a prefix of it that
    * ends at the limit or at its end. */
  method ReadAll(w: World, env: Environment, i: Id, max: nat, k: nat) returns (ok: bool, data: seq<byte>, t: nat)
    requires WorldShape(w) && i in w(k).objects
    ensures k <= t
    ensures ok && Unchanged(w, i, k, t) ==>
              data == w(k).objects[i].content[..Min(|w(k).objects[i].content|, max)]
    ensures Still(w) ==> (ok <==> ReadsThrough(env, w(k).objects[i].content, 0, 0, max, 0))
  {
    data := [];
    t := k;
    var retries, n := 0, 0;
    ghost var whole := w(k).objects[i].content;
    while |data| < max
      invariant k <= t && |data| <= max && retries <= MAX_EINTR_RETRIES
      invariant Unchanged(w, i, k, t) ==> data <= whole
      invariant Still(w) ==>
                  (ReadsThrough(env, whole, 0, 0, max, 0) <==> ReadsThrough(env, whole, n, |data|, max, retries))
      decreases max - |data| + (MAX_EINTR_RETRIES - retries)
    {
      t := t + 1;
      var outcome := env.gives(n);
      n := n + 1;
      match outcome {
        case Interrupted =>
          if retries + 1 > MAX_EINTR_RETRIES {
            return false, data, t;
          }
          retries := retries + 1;
          assert Unchanged(w, i, k, t) ==> Unchanged(w, i, k, t - 1);
        case ReadError =>
          return false, data, t;
        case Count(count) =>
          if i !in w(t).objects {
            return false, data, t;
          }
          var piece := PieceAt(w(t).objects[i].content, |data|, count);
          if piece == [] {
            EndReached(w, i, k, t, data, max);
            return true, data, t;
          }
          if |piece| > max - |data| {
            return false, data, t;
          }
          assert Unchanged(w, i, k, t) ==> Unchanged(w, i, k, t - 1);
          PieceFits(w(t).objects[i].content, data, count);
          data := data + piece;
      }
    }
    ok := true;
  }

  /** What `read` gives at an offset: at least one byte, unless the end is reached. */
  function PieceAt(content: seq<byte>, offset: nat, count: nat): (p: seq<byte>)
    ensures p == [] <==> offset >= |content|
  {
    if offset >= |content| then [] else content[offset..Min(|content|, offset + if count == 0 then 1 else count)]
  }

  lemma PieceFits(content: seq<byte>, data: seq<byte>, count: nat)
    ensures data <= content ==> data + PieceAt(content, |data|, count) <= content
  {}

  lemma EndReached(w: World, i: Id, k: nat, t: nat, data: seq<byte>, max: nat)
    requires k < t && i in w(k).objects && i in w(t).objects && |data| <= max
    requires PieceAt(w(t).objects[i].content, |data|, 1) == []
    requires Unchanged(w, i, k, t - 1) ==> data <= w(k).objects[i].content
    ensures Unchanged(w, i, k, t) ==> data == w(k).objects[i].content[..Min(|w(k).objects[i].content|, max)]
  {
    if Unchanged(w, i, k, t) {
      assert Unchanged(w, i, k, t - 1);
    }
  }

  /** `read_file_transaction` */
  method ReadTransaction(w: World, h: Handle, env: Environment, max: nat) returns (r: Result)
    requires WorldShape(w) && StampsTell(w)
    ensures r != Failed ==> exists k :: Stable(w, h, r, max, k)
    ensures Still(w) ==> r == Expected(w, h, env, max)
  {
    if !env.pathOk {
      return Failed;
    }
    var parent := OpenParent(w, h, env.opensRoots, env.opensParent, 0);
    if parent.None? || env.classifyFault {
      return Failed;
    }
    var found := Lookup(w(3).names, parent.value);
    if found.Some? {
      if !env.statsTarget || found.value !in w(CLASSIFIED).objects {
        return Failed;
      }
      var classified := w(CLASSIFIED).objects[found.value].stat;
      if classified.regular {
        r := ReadRegular(w, h, env, max, parent.value, classified);
        return;
      }
    }
    r := Confirm(w, h, env, max, found);
  }

  /** The part of the transaction for a target that is missing or not a regular file. */
  method Confirm(w: World, h: Handle, env: Environment, max: nat, found: Option<Id>) returns (r: Result)
    requires WorldShape(w) && Parent(w, h, 0).Some? && found == Sight(w, h, 0)
    requires found.Some? ==> found.value in w(CLASSIFIED).objects && !w(CLASSIFIED).objects[found.value].stat.regular
    ensures r.Failed? || (r == if found.None? then Missing else Other)
    ensures r != Failed ==> exists k :: Stable(w, h, r, max, k)
    ensures Still(w) ==>
              (r.Failed? <==> || !env.closes || !env.reopensRoots || !env.reopensParent || env.reobserveFault
                              || !env.recloses || (found.Some? && !env.restats))
  {
    if !env.closes {
      return Failed;
    }
    var again := CLASSIFIED + 1;
    var expected := if found.None? then None else Some(w(CLASSIFIED).objects[found.value].stat);
    var ok := Reobserve(w, h, env, again, expected);
    r := if !ok then Failed else if found.None? then Missing else Other;
    if ok {
      assert Stable(w, h, r, max, again);
    }
  }

  /** The part of the transaction for a regular file. */
  method ReadRegular(w: World, h: Handle, env: Environment, max: nat, parent: Id, classified: Stat)
    returns (r: Result)
    requires WorldShape(w) && StampsTell(w) && classified.regular && Parent(w, h, 0) == Some(parent)
    requires Sight(w, h, 0) == Some(classified.id) && Is(w, classified.id, CLASSIFIED, classified)
    ensures r != Failed ==> r.Regular? && exists k :: Stable(w, h, r, max, k)
    ensures Still(w) ==>
              r.Regular? == (&& env.opensTarget && env.statsBefore && env.allocates && env.statsAfter && env.closes
                             && env.reopensRoots && env.reopensParent && !env.reobserveFault && env.restats
                             && env.recloses
                             && ReadsThrough(env, w(CLASSIFIED).objects[classified.id].content, 0, 0, max, 0))
  {
    var before := OpenTarget(w, env, parent, classified);
    if before.None? {
      return Failed;
    }
    var ok, data, end := ReadOpened(w, h, env, max, before.value);
    if !ok {
      return Failed;
    }
    ReadStable(w, h, max, before.value, data, end);
    r := Regular(data);
  }

  /** Reading the opened file to its end or the limit, and the checks after that. */
  method ReadOpened(w: World, h: Handle, env: Environment, max: nat, before: Stat)
    returns (ok: bool, data: seq<byte>, end: nat)
    requires WorldShape(w) && Is(w, before.id, OPENED, before)
    requires Parent(w, h, 0).Some? && Sight(w, h, 0) == Some(before.id)
    ensures ok ==> Kept(w, h, max, before, data, end)
    ensures Still(w) ==>
              ok == (&& env.statsAfter && env.closes && env.reopensRoots && env.reopensParent
                     && !env.reobserveFault && env.restats && env.recloses
                     && ReadsThrough(env, w(OPENED).objects[before.id].content, 0, 0, max, 0))
  {
    ok, data, end := ReadAll(w, env, before.id, max, OPENED);
    if ok {
      ok := Verify(w, h, env, before, end + 1);
    }
  }

  /** Data read from an object whose version is the same before, after and at the re-observation. */
  ghost predicate Kept(w: World, h: Handle, max: nat, before: Stat, data: seq<byte>, end: nat) {
    var i := before.id;
    && OPENED <= end && Is(w, i, OPENED, before) && Is(w, i, end + 1, before) && Is(w, i, end + 6, before)
    && (Unchanged(w, i, OPENED, end) ==>
          data == w(OPENED).objects[i].content[..Min(|w(OPENED).objects[i].content|, max)])
    && Parent(w, h, 0).Some? && Parent(w, h, end + 2).Some?
    && Sight(w, h, 0) == Some(i) == Sight(w, h, end + 2)
  }

  /** After the reads: the version is still that of the opened file, and so is what the name is bound to. */
  method Verify(w: World, h: Handle, env: Environment, before: Stat, end: nat) returns (same: bool)
    requires WorldShape(w)
    ensures same <==>
              && env.statsAfter && Is(w, before.id, end, before) && env.closes
              && env.reopensRoots && env.reopensParent && Parent(w, h, end + 1).Some? && !env.reobserveFault
              && env.recloses && env.restats && Sight(w, h, end + 1) == Some(before.id)
              && Is(w, before.id, end + 5, before)
  {
    if !env.statsAfter || !Is(w, before.id, end, before) || !env.closes {
      return false;
    }
    same := Reobserve(w, h, env, end + 1, Some(before));
  }

  lemma ReadStable(w: World, h: Handle, max: nat, before: Stat, data: seq<byte>, end: nat)
    requires WorldShape(w) && StampsTell(w) && before.regular && Kept(w, h, max, before, data, end)
    ensures Stable(w, h, Regular(data), max, end + 2)
  {
    OneVersion(w, before.id, OPENED, end, end + 6);
  }

  /** Opening the target for reading: it must still be the classified object. */
  method OpenTarget(w: World, env: Environment, parent: Id, classified: Stat) returns (before: Option<Stat>)
    requires WorldShape(w) && classified.regular
    ensures before.Some? <==>
              && env.opensTarget && env.statsBefore && env.allocates
              && Lookup(w(CLASSIFIED + 1).names, parent) == Some(classified.id) && classified.id in w(OPENED).objects
              && w(OPENED).objects[classified.id].stat.regular
    ensures before.Some? ==> before.value.regular && Is(w, classified.id, OPENED, before.value)
  {
    var found := Lookup(w(CLASSIFIED + 1).names, parent);
    if !env.opensTarget || found.None? || !env.statsBefore || found.value !in w(OPENED).objects {
      return None;
    }
    var stat := w(OPENED).objects[found.value].stat;
    before := if stat.regular && SameIdentity(classified, stat) && env.allocates then Some(stat) else None;
  }

  lemma OneVersion(w: World, i: Id, s: nat, e: nat, t: nat)
    requires StampsTell(w) && s <= e <= t && i in w(s).objects && i in w(t).objects
    requires w(s).objects[i].stat == w(t).objects[i].stat
    ensures Unchanged(w, i, s, t) && Unchanged(w, i, s, e)
  {
    assert SameStamp(w, i, s, t);
  }
}
