/** Creating a repository file: a private temporary file, written and synced, then published by a rename that
  * replaces nothing; under any pattern of failing system calls and an outside racer in the directory. */
module CreateFile {
  import opened Bytes
  import opened Wrappers

  const MAX_EINTR_RETRIES: nat := 64

  /** A directory entry: its content, and whether this transaction made it. */
  datatype File = File(content: seq<byte>, ours: bool)

  type Directory = map<string, File>

  /** One change that this transaction makes under the target name. */
  datatype Change = Change(before: Option<File>, after: Option<File>)

  /** The parent directory; what it would hold if only the racer acted; the descriptors that the process holds; and
    * the log of own changes of the target. */
  datatype World = World(entries: Directory, alone: Directory, open: set<int>, changes: seq<Change>)

  /** What the racer does between two steps. It does not know the random name of the temporary file. */
  datatype Race = Nothing | Put(name: string, content: seq<byte>) | Remove(name: string)

  datatype Write = Wrote(count: int) | Interrupted | WriteError

  /** Which system calls succeed, what each `write` returns, and what the racer does before each step. */
  datatype Environment = Environment(
    pathOk: bool, opensBase: bool, observesBase: bool, opensRepository: bool, observesRepository: bool,
    sameMount: bool, sameRoot: bool, opensParent: bool, statsParent: bool, parentPrivate: bool, randomOk: bool,
    opensTemp: bool, chmodOk: bool, statsTemp: bool, tempAsExpected: bool, writes: nat -> Write,
    syncs: bool, closesTemp: bool, renames: bool, syncsParent: bool, closesParent: bool, closesPair: bool,
    unlinks: bool, race: nat -> Race)

  datatype Class = NoFailure | Contract | Unsuccessful | Uncertain

  /** The result record: `class` is "world" for `Unsuccessful` and "ambiguous" for `Uncertain`. */
  datatype Result = Result(succeeded: bool, cls: Class, entered: bool, published: bool, residue: bool, bytes: nat)

  // ------------------------------------------------------ system calls

  function At(d: Directory, name: string): Option<File> { if name in d then Some(d[name]) else None }

  function RacedIn(d: Directory, r: Race): Directory {
    match r
    case Nothing => d
    case Put(name, content) => d[name := File(content, false)]
    case Remove(name) => d - {name}
  }

  function Raced(w: World, temp: string, r: Race): World {
    if !r.Nothing? && r.name == temp then w
    else w.(entries := RacedIn(w.entries, r), alone := RacedIn(w.alone, r))
  }

  function Appended(w: World, temp: string, bytes: seq<byte>): World
    requires temp in w.entries
  {
    w.(entries := w.entries[temp := w.entries[temp].(content := w.entries[temp].content + bytes)])
  }

  /** `renameat2` with RENAME_NOREPLACE, when it succeeds. */
  function Renamed(w: World, temp: string, target: string): World
    requires temp in w.entries && target !in w.entries
  {
    w.(entries := (w.entries - {temp})[target := w.entries[temp]],
       changes := w.changes + [Change(None, Some(w.entries[temp]))])
  }

  /** A new descriptor is a number that is not in use. */
  method NewNumber(open: set<int>) returns (fd: int)
    ensures fd >= 0 && fd !in open
  {
    fd := 0;
    var left := open;
    while fd in left
      invariant fd >= 0 && forall x :: x in open && x >= fd ==> x in left
      decreases |left|
    {
      left := left - {fd};
      fd := fd + 1;
    }
  }

  // -------------------------------------------------------- invariants

  /** Before the rename: no own change of the target; the directory is as the racer alone leaves it, but for the
    * temporary file, if it is ours, which holds `written`. */
  ghost predicate Private(w: World, temp: string, owned: bool, written: seq<byte>) {
    && w.changes == []
    && (owned ==> temp !in w.alone)
    && w.entries == if owned then w.alone[temp := File(written, true)] else w.alone
  }

  ghost predicate Start(w0: World, temp: string, target: string) {
    temp != target && w0.changes == [] && w0.alone == w0.entries
  }

  /** What every run guarantees at its end. */
  ghost predicate Guarantee(w: World, w0: World, r: Result, temp: string, target: string, content: seq<byte>) {
    && w.open == w0.open
    && w.changes == (if r.published then [Change(None, Some(File(content, true)))] else [])
    && (!r.published && !r.residue ==> w.entries == w.alone)
    && (r.residue ==> !r.published && temp !in w.alone && temp in w.entries && w.entries[temp].ours
                      && w.entries == w.alone[temp := w.entries[temp]])
    && (r.published ==> w.entries - {target} == w.alone - {target}
                        && (At(w.entries, target) == At(w.alone, target)
                            || At(w.entries, target) == Some(File(content, true))))
    && (r.succeeded ==> r.published && r.cls == NoFailure && r.bytes == |content|)
    && (r.published || r.residue ==> r.entered && (r.succeeded || r.cls == Uncertain))
    && (!r.published && !r.residue ==> r.cls == Unsuccessful || r.cls == Contract)
  }

  /** The racer never acts. */
  ghost predicate Quiet(env: Environment) { forall k :: env.race(k).Nothing? }

  /** From the `k`-th write on, `left` bytes get written before `retries` passes its limit. */
  ghost predicate WritesThrough(env: Environment, k: nat, left: nat, retries: nat)
    decreases left + if retries <= MAX_EINTR_RETRIES then MAX_EINTR_RETRIES + 1 - retries else 0
  {
    left == 0
    || (match env.writes(k)
        case Interrupted => retries < MAX_EINTR_RETRIES && WritesThrough(env, k + 1, left, retries + 1)
        case WriteError => false
        case Wrote(n) => 0 < n <= left && WritesThrough(env, k + 1, left - n, retries))
  }

  predicate OpensRoot(env: Environment) {
    && env.opensBase && env.observesBase && env.opensRepository && env.observesRepository && env.sameMount
    && env.sameRoot
  }

  predicate ReachesTemp(env: Environment) {
    && env.pathOk && OpensRoot(env) && env.opensParent && env.statsParent && env.parentPrivate && env.randomOk
    && env.opensTemp
  }

  /** Every call from the temporary file to the rename succeeds. */
  ghost predicate Fills(env: Environment, content: seq<byte>) {
    && env.chmodOk && env.statsTemp && env.tempAsExpected && WritesThrough(env, 0, |content|, 0)
    && env.syncs && env.closesTemp && env.renames
  }

  predicate Finishes(env: Environment) { env.syncsParent && env.closesParent && env.closesPair }

  function Number(fd: int): set<int> { if fd >= 0 then {fd} else {} }

  /** The state of the transaction: its descriptor variables are -1 when they hold nothing. */
  class Transaction {
    const env: Environment
    const temp: string
    const target: string
    const content: seq<byte>
    var w: World
    var baseFd: int
    var repositoryFd: int
    var parentFd: int
    var tempFd: int
    var tempOwned: bool
    /** The world at the start. */
    ghost const w0: World

    /** The variables mirror exactly the descriptors that the transaction holds, each once. */
    ghost predicate Mirrors()
      reads this
    {
      && w.open == w0.open + Number(baseFd) + Number(repositoryFd) + Number(parentFd) + Number(tempFd)
      && (forall fd :: fd in [baseFd, repositoryFd, parentFd, tempFd] && fd >= 0 ==> fd !in w0.open)
      && (baseFd >= 0 ==> baseFd != repositoryFd && baseFd != parentFd && baseFd != tempFd)
      && (repositoryFd >= 0 ==> repositoryFd != parentFd && repositoryFd != tempFd)
      && (parentFd >= 0 ==> parentFd != tempFd)
    }

    ghost predicate Valid(written: seq<byte>)
      reads this
    {
      temp != target && Mirrors() && Private(w, temp, tempOwned, written)
    }

    constructor (w0: World, temp: string, target: string, content: seq<byte>, env: Environment)
      requires Start(w0, temp, target)
      ensures Valid([]) && !tempOwned && w == w0 && this.w0 == w0 && this.env == env
      ensures this.temp == temp && this.target == target && this.content == content
      ensures baseFd == -1 && repositoryFd == -1 && parentFd == -1 && tempFd == -1
    {
      this.env, this.temp, this.target, this.content := env, temp, target, content;
      this.w, this.w0, tempOwned := w0, w0, false;
      baseFd, repositoryFd, parentFd, tempFd := -1, -1, -1, -1;
    }

    /** `close`: the descriptor must be open, and is gone whatever the call returns. */
    method CloseNumber(fd: int)
      requires fd in w.open
      modifies this`w
      ensures w == old(w).(open := old(w).open - {fd})
    {
      w := w.(open := w.open - {fd});
    }

    method OpenNumber() returns (fd: int)
      modifies this`w
      ensures fd >= 0 && fd !in old(w).open && w == old(w).(open := old(w).open + {fd})
    {
      fd := NewNumber(w.open);
      w := w.(open := w.open + {fd});
    }

    /** `close_once` on the parent directory. */
    method CloseParent()
      requires Mirrors()
      modifies this`w, this`parentFd
      ensures Mirrors() && parentFd == -1 && w == old(w).(open := w.open)
    {
      var value := parentFd;
      parentFd := -1;
      if value >= 0 {
        CloseNumber(value);
      }
    }

    /** `close_once` on the temporary file. */
    method CloseTemp()
      requires Mirrors()
      modifies this`w, this`tempFd
      ensures Mirrors() && tempFd == -1 && w == old(w).(open := w.open)
    {
      var value := tempFd;
      tempFd := -1;
      if value >= 0 {
        CloseNumber(value);
      }
    }

    /** `close_once` on the project base. */
    method CloseBase()
      requires Mirrors()
      modifies this`w, this`baseFd
      ensures Mirrors() && baseFd == -1 && w == old(w).(open := w.open)
    {
      var value := baseFd;
      baseFd := -1;
      if value >= 0 {
        CloseNumber(value);
      }
    }

    method CloseRepository()
      requires Mirrors()
      modifies this`w, this`repositoryFd
      ensures Mirrors() && repositoryFd == -1 && w == old(w).(open := w.open)
    {
      var value := repositoryFd;
      repositoryFd := -1;
      if value >= 0 {
        CloseNumber(value);
      }
    }

    /** `close_pair` */
    method ClosePair()
      requires Mirrors()
      modifies this`w, this`baseFd, this`repositoryFd
      ensures Mirrors() && baseFd == -1 && repositoryFd == -1 && w == old(w).(open := w.open)
    {
      CloseRepository();
      CloseBase();
    }

    /** How every label ends. */
    method CloseDirectories()
      requires Mirrors() && tempFd < 0
      modifies this`w, this`baseFd, this`repositoryFd, this`parentFd
      ensures w == old(w).(open := w0.open)
    {
      if parentFd >= 0 {
        CloseParent();
      }
      ClosePair();
      assert w.open == w0.open;
    }

    /** The racer moves; nothing of ours changes. */
    method Yield(k: nat, ghost written: seq<byte>)
      requires Valid(written)
      modifies this`w
      ensures Valid(written) && w.open == old(w).open && (Quiet(env) ==> w == old(w))
    {
      w := Raced(w, temp, env.race(k));
    }

    /** `open_identity_pair`, which closes what it opened when it fails. */
    method OpenIdentityPair() returns (ok: bool)
      requires Mirrors() && baseFd == -1 && repositoryFd == -1
      modifies this`w, this`baseFd, this`repositoryFd
      ensures Mirrors() && w == old(w).(open := w.open)
      ensures ok <==>
                env.opensBase && env.observesBase && env.opensRepository && env.observesRepository && env.sameMount
      ensures !ok ==> baseFd == -1 && repositoryFd == -1
    {
      if !env.opensBase {
        return false;
      }
      baseFd := OpenNumber();
      if !env.observesBase {
        CloseBase();
        return false;
      }
      if !env.opensRepository {
        CloseBase();
        return false;
      }
      repositoryFd := OpenNumber();
      if !env.observesRepository || !env.sameMount {
        CloseRepository();
        CloseBase();
        return false;
      }
      ok := true;
    }

    /** The write loop: it ends because every turn uses up content or one of the allowed interruptions. */
    method WriteAll() returns (ok: bool, ghost written: seq<byte>)
      requires Valid([]) && tempOwned
      modifies this`w
      ensures Valid(written) && w.open == old(w).open
      ensures ok ==> written == content
      ensures ok <==> WritesThrough(env, 0, |content|, 0)
      ensures Quiet(env) ==> w.alone == old(w).alone
    {
      written := [];
      var offset, retries, k := 0, 0, 0;
      while offset < |content|
        invariant 0 <= offset <= |content| && retries <= MAX_EINTR_RETRIES
        invariant written == content[..offset] && (Quiet(env) ==> w.alone == old(w).alone)
        invariant WritesThrough(env, 0, |content|, 0) <==> WritesThrough(env, k, |content| - offset, retries)
        invariant Valid(written) && w.open == old(w).open
        decreases |content| - offset + (MAX_EINTR_RETRIES - retries)
      {
        Yield(4 + k, written);
        var outcome := env.writes(k);
        k := k + 1;
        match outcome {
          case Interrupted =>
            if retries + 1 > MAX_EINTR_RETRIES {
              return false, written;
            }
            retries := retries + 1;
          case WriteError =>
            return false, written;
          case Wrote(n) =>
            if n <= 0 || n > |content| - offset {
              return false, written;
            }
            var piece := content[offset..offset + n];
            assert content[..offset + n] == content[..offset] + piece;
            w := Appended(w, temp, piece);
            offset := offset + n;
            written := content[..offset];
        }
      }
      assert content[..|content|] == content;
      ok := true;
    }

    /** The label `fail_private`, and `fail_after_temp_attempt` below it. */
    method FailPrivate(ghost written: seq<byte>) returns (r: Result)
      requires Valid(written)
      modifies this
      ensures Guarantee(w, w0, r, temp, target, content)
      ensures !r.published && !r.succeeded && r.entered && w.alone == old(w).alone
      ensures r.residue <==> old(tempOwned) && !env.unlinks
    {
      if tempFd >= 0 {
        CloseTemp();
      }
      if tempOwned {
        if !env.unlinks {
          CloseDirectories();
          return Result(false, Uncertain, true, false, true, 0);
        }
        w := w.(entries := w.entries - {temp});
      }
      CloseDirectories();
      r := Result(false, Unsuccessful, true, false, false, 0);
    }

    /** The label `fail_before_temp`. */
    method FailBeforeTemp() returns (r: Result)
      requires Valid([]) && !tempOwned && tempFd == -1
      modifies this
      ensures Guarantee(w, w0, r, temp, target, content)
      ensures !r.published && !r.succeeded && !r.entered && !r.residue && w.alone == old(w).alone
    {
      CloseDirectories();
      r := Result(false, Unsuccessful, false, false, false, 0);
    }

    /** After the rename: the entries but the target are the racer's, and the target is ours unless the racer moved. */
    ghost predicate Out()
      reads this
    {
      && Mirrors() && tempFd == -1 && w.changes == [Change(None, Some(File(content, true)))]
      && w.entries - {target} == w.alone - {target}
      && (At(w.entries, target) == At(w.alone, target) || At(w.entries, target) == Some(File(content, true)))
    }

    /** The label `fail_published`. */
    method FailPublished() returns (r: Result)
      requires Out()
      modifies this
      ensures Guarantee(w, w0, r, temp, target, content) && r.published && !r.succeeded && r.entered
    {
      CloseDirectories();
      r := Result(false, Uncertain, true, true, false, 0);
    }

    /** From the rename on. */
    method PublishFile() returns (r: Result)
      requires Valid(content) && tempOwned && tempFd == -1 && parentFd >= 0
      modifies this
      ensures Guarantee(w, w0, r, temp, target, content) && r.entered
      ensures r.published <==> env.renames && target !in old(w).entries
      ensures r.succeeded <==> r.published && Finishes(env)
    {
      if !env.renames || target in w.entries {
        r := FailPrivate(content);
        return;
      }
      MovedOut(w, temp, target, content);
      w := Renamed(w, temp, target);
      tempOwned := false;
      OutKept(w, temp, target, content, env.race(3));
      w := Raced(w, temp, env.race(3));
      if !env.syncsParent {
        r := FailPublished();
        return;
      }
      var value := parentFd;
      CloseNumber(value);
      parentFd := -1;
      if !env.closesParent {
        r := FailPublished();
        return;
      }
      ClosePair();
      r := if env.closesPair then Result(true, NoFailure, true, true, false, |content|)
           else Result(false, Uncertain, true, true, false, 0);
    }

    /** Make, check, write, sync and close the temporary file, then publish it. */
    method FillAndPublish() returns (r: Result)
      requires Valid([]) && tempOwned && tempFd >= 0 && parentFd >= 0
      modifies this
      ensures Guarantee(w, w0, r, temp, target, content) && r.entered
      ensures Quiet(env) ==> (r.published <==> Fills(env, content) && target !in old(w).alone)
      ensures r.succeeded <==> r.published && Finishes(env)
    {
      if !env.chmodOk || !env.statsTemp || !env.tempAsExpected {
        r := FailPrivate([]);
        return;
      }
      var ok;
      ghost var written;
      ok, written := WriteAll();
      if !ok || !env.syncs {
        r := FailPrivate(written);
        return;
      }
      // `close_private_file` forgets the descriptor whatever `close` returns.
      var value := tempFd;
      tempFd := -1;
      CloseNumber(value);
      if !env.closesTemp {
        r := FailPrivate(written);
        return;
      }
      Yield(2, written);
      r := PublishFile();
    }

    /** `create_file_transaction` */
    method Run() returns (r: Result)
      requires Valid([]) && !tempOwned && w == w0
      requires baseFd == -1 && repositoryFd == -1 && parentFd == -1 && tempFd == -1
      modifies this
      ensures Guarantee(w, w0, r, temp, target, content)
      ensures Quiet(env) ==>
                (r.published <==> ReachesTemp(env) && Fills(env, content) && temp !in w0.alone && target !in w0.alone)
      ensures r.succeeded <==> r.published && Finishes(env)
    {
      if !env.pathOk {
        return Result(false, Contract, false, false, false, 0);
      }
      var ok := OpenIdentityPair();
      if !ok {
        return Result(false, Unsuccessful, false, false, false, 0);
      }
      if !env.sameRoot {
        ClosePair();
        return Result(false, Unsuccessful, false, false, false, 0);
      }
      Yield(0, []);
      r := RunInParent();
    }

    /** From the opening of the parent directory on. */
    method RunInParent() returns (r: Result)
      requires Valid([]) && !tempOwned && parentFd == -1 && tempFd == -1
      modifies this
      ensures Guarantee(w, w0, r, temp, target, content)
      ensures Quiet(env) ==>
                (r.published <==>
                   && env.opensParent && env.statsParent && env.parentPrivate && env.randomOk && env.opensTemp
                   && Fills(env, content) && temp !in old(w).alone && target !in old(w).alone)
      ensures r.succeeded <==> r.published && Finishes(env)
    {
      if !env.opensParent {
        r := FailBeforeTemp();
        return;
      }
      parentFd := OpenNumber();
      if !env.statsParent || !env.parentPrivate || !env.randomOk {
        r := FailBeforeTemp();
        return;
      }
      Yield(1, []);
      if !env.opensTemp || temp in w.entries {
        // The label `fail_after_temp_attempt`.
        CloseParent();
        ClosePair();
        return Result(false, Unsuccessful, true, false, false, 0);
      }
      tempFd := OpenNumber();
      w := w.(entries := w.entries[temp := File([], true)]);
      tempOwned := true;
      r := FillAndPublish();
    }
  }

  lemma MovedOut(w: World, temp: string, target: string, content: seq<byte>)
    requires temp != target && Private(w, temp, true, content) && target !in w.entries
    ensures var t := Renamed(w, temp, target);
            && t.entries == w.alone[target := File(content, true)]
            && t.changes == [Change(None, Some(File(content, true)))]
  {}

  lemma OutKept(w: World, temp: string, target: string, content: seq<byte>, r: Race)
    requires temp != target && w.entries == w.alone[target := File(content, true)]
    ensures var t := Raced(w, temp, r);
            && t.entries - {target} == t.alone - {target}
            && (At(t.entries, target) == At(t.alone, target) || At(t.entries, target) == Some(File(content, true)))
  {}

  /** The whole transaction, for every environment and racer: the directory ends as the racer alone leaves it, but for
    * the published file or a reported residue; an existing target is never changed; the target only ever appears with
    * the whole content; `published` is reported exactly when the rename happened; and the process holds the same
    * descriptors as before, each new one having been closed once. */
  method Create(w0: World, temp: string, target: string, content: seq<byte>, env: Environment)
    returns (w: World, r: Result)
    requires Start(w0, temp, target)
    ensures Guarantee(w, w0, r, temp, target, content)
    ensures Quiet(env) ==>
              (r.published <==> ReachesTemp(env) && Fills(env, content) && temp !in w0.entries && target !in w0.entries)
    ensures r.succeeded <==> r.published && Finishes(env)
  {
    var t := new Transaction(w0, temp, target, content, env);
    r := t.Run();
    w := t.w;
  }
}
