/** The output stream observer: counts every byte, hashes the bytes up to a limit, reports the crossing once. */
module Stream {
  import opened Bytes
  import opened Sha256

  const READ_BYTES: nat := 4096
  const DRAIN_SLICE_BYTES: nat := 65536

  datatype Measurement = Measurement(
    observed: u64, hashed: u64, limit: u64, digest: seq<byte>, crossed: bool, eof: bool)

  /** What a measurement of the bytes `seen` under `limit` must be. */
  ghost function Measured(seen: seq<byte>, limit: u64): Measurement
    requires |seen| <= U64_MAX
  {
    var n := Min(|seen|, limit);
    Measurement(|seen|, n, limit, Digest(seen[..n]), |seen| > limit, true)
  }

  /** `measurement_valid` */
  predicate MeasurementValid(m: Measurement) {
    && m.limit != 0 && m.eof
    && m.hashed == Min(m.observed, m.limit)
    && m.crossed == (m.observed > m.limit)
  }

  /** One `read` on a non-blocking descriptor. */
  datatype Read = Data(bytes: seq<byte>) | Eof | Interrupted | WouldBlock | Fault

  predicate ReadShape(r: Read) { r.Data? ==> 0 < |r.bytes| <= READ_BYTES }

  datatype Drained = Error | Idle | Progress | LimitCrossed | EndOfFile
  datatype Consumed = Refused | Quiet | Crossed
  datatype Taken = Broken | Over | Ended | Blocked | Got(bytes: nat)

  /** All data bytes of a script of reads. */
  function DataOf(script: seq<Read>): seq<byte> {
    if script == [] then []
    else
      var last := script[|script| - 1];
      DataOf(script[..|script| - 1]) + if last.Data? then last.bytes else []
  }

  /** Reads that can make the observer fail: a fault, or more bytes than its counter holds. */
  ghost predicate CanFail(before: nat, script: seq<Read>) {
    || (exists i :: 0 <= i < |script| && script[i].Fault?)
    || before + |DataOf(script)| > U64_MAX
  }

  /** A drain under way: what has been seen, how much of it in this slice, what the last read was, how many reads. */
  datatype Draining = Draining(seen: seq<byte>, drained: nat, taken: Taken, used: nat)

  function TakeNext(d: Draining, limit: nat, next: Read): Draining {
    var e := d.(used := d.used + 1);
    match next
    case Data(bytes) =>
      if |d.seen| + |bytes| > U64_MAX then e.(taken := Broken)
      else if |d.seen| <= limit < |d.seen| + |bytes| then e.(seen := d.seen + bytes, taken := Over)
      else e.(seen := d.seen + bytes, drained := d.drained + |bytes|, taken := Got(|bytes|))
    case Interrupted => e.(taken := Got(0))
    case Eof => e.(taken := Ended)
    case WouldBlock => e.(taken := Blocked)
    case Fault => e.(taken := Broken)
  }

  /** Reads are taken until end, block, fault, overflow of the counter, crossing of the limit or a full slice. */
  predicate Stops(d: Draining, script: seq<Read>) {
    d.used >= |script| || !d.taken.Got? || d.drained >= DRAIN_SLICE_BYTES
  }

  function PullFrom(d: Draining, limit: nat, script: seq<Read>): Draining
    decreases |script| - d.used
  {
    if Stops(d, script) then d else PullFrom(TakeNext(d, limit, script[d.used]), limit, script)
  }

  /** What one drain takes from a script of reads, after `seen`. */
  function Pull(seen: seq<byte>, limit: nat, script: seq<Read>): Draining {
    PullFrom(Draining(seen, 0, Got(0), 0), limit, script)
  }

  function Outcome(d: Draining, before: nat): Drained {
    match d.taken
    case Broken => Error
    case Over => LimitCrossed
    case Ended => EndOfFile
    case _ => if |d.seen| > before then Progress else Idle
  }

  /** A drain takes all data up to where it is; it has crossed the limit exactly if the total has, has ended exactly if
    * it read the end, and fails only for a cause. */
  ghost predicate Told(d: Draining, before: seq<byte>, limit: nat, script: seq<Read>) {
    && d.used <= |script| && before <= d.seen
    && (!d.taken.Broken? ==> d.seen == before + DataOf(script[..d.used]))
    && (d.taken.Over? <==> !d.taken.Broken? && |before| <= limit < |d.seen|)
    && (d.taken.Ended? <==> d.used > 0 && script[d.used - 1].Eof?)
    && (d.taken.Broken? ==> CanFail(|before|, script))
    && (d.used == 0 ==> d.taken == Got(0) && d.drained == 0)
  }

  function BytesOf(r: Read): seq<byte> { if r.Data? then r.bytes else [] }

  lemma Join(x: seq<byte>, y: seq<byte>, z: seq<byte>)
    ensures x + (y + z) == x + y + z && x + [] == x
  {}

  lemma DataNext(script: seq<Read>, n: nat)
    requires n < |script|
    ensures DataOf(script[..n + 1]) == DataOf(script[..n]) + BytesOf(script[n])
    ensures |DataOf(script[..n + 1])| <= |DataOf(script)|
  {
    assert script[..n + 1][..n] == script[..n];
    DataSplit(script, n + 1);
  }

  lemma TakeTells(d: Draining, before: seq<byte>, limit: nat, script: seq<Read>)
    requires Told(d, before, limit, script) && !Stops(d, script)
    ensures Told(TakeNext(d, limit, script[d.used]), before, limit, script)
  {
    var next, e := script[d.used], TakeNext(d, limit, script[d.used]);
    DataNext(script, d.used);
    Join(before, DataOf(script[..d.used]), BytesOf(next));
    Join(d.seen, [], []);
    if e.taken.Broken? {
      BrokenCanFail(d, before, limit, script);
    } else {
      assert e.seen == d.seen + BytesOf(next);
    }
  }

  lemma BrokenCanFail(d: Draining, before: seq<byte>, limit: nat, script: seq<Read>)
    requires Told(d, before, limit, script) && !Stops(d, script)
    requires TakeNext(d, limit, script[d.used]).taken.Broken?
    ensures CanFail(|before|, script)
  {
    DataNext(script, d.used);
  }

  lemma {:induction false} PullTells(d: Draining, before: seq<byte>, limit: nat, script: seq<Read>)
    requires Told(d, before, limit, script)
    ensures var e := PullFrom(d, limit, script); Told(e, before, limit, script) && Stops(e, script)
    decreases |script| - d.used
  {
    if !Stops(d, script) {
      TakeTells(d, before, limit, script);
      PullTells(TakeNext(d, limit, script[d.used]), before, limit, script);
    }
  }

  lemma PullSays(seen: seq<byte>, limit: nat, script: seq<Read>)
    ensures var e := Pull(seen, limit, script);
            Told(e, seen, limit, script) && Stops(e, script) && (script != [] ==> e.used > 0)
  {
    assert seen + [] == seen && script[..0] == [];
    PullTells(Draining(seen, 0, Got(0), 0), seen, limit, script);
  }

  class Observer {
    var observed: u64
    var hashed: u64
    const limit: u64
    const hash: Context
    var prefixDigest: seq<byte>
    var crossed: bool
    var eof: bool
    var finalized: bool
    var failed: bool
    /** Every byte consumed so far. */
    ghost var seen: seq<byte>

    ghost predicate Valid()
      reads this, hash, hash.block
    {
      && limit != 0
      && observed == |seen| && hashed == Min(|seen|, limit)
      && crossed == (|seen| > limit)
      && (!finalized ==> hash.Valid() && hash.fed == seen[..hashed])
      && (finalized ==> eof && prefixDigest == Digest(seen[..hashed]))
    }

    /** `proc17_qa_stream_init`, for a limit it accepts. */
    constructor (limit: u64)
      requires limit != 0
      ensures Valid() && this.limit == limit && seen == []
      ensures !eof && !finalized && !failed && fresh(hash) && fresh(hash.block)
    {
      this.limit := limit;
      hash := new Context();
      observed, hashed := 0, 0;
      prefixDigest := [];
      crossed, eof, finalized, failed := false, false, false, false;
      seen := [];
    }

    /** `proc17_qa_stream_consume` */
    method Consume(bytes: seq<byte>) returns (r: Consumed)
      requires Valid()
      modifies this, hash, hash.block
      ensures Valid()
      ensures old(failed || finalized || eof) ==> r == Refused && seen == old(seen) && failed == old(failed)
      ensures !old(failed || finalized || eof) ==>
                if old(|seen|) + |bytes| > U64_MAX then r == Refused && failed && seen == old(seen)
                else seen == old(seen) + bytes && !failed
                     && r == if old(|seen|) <= limit < |seen| then Crossed else Quiet
      ensures eof == old(eof) && finalized == old(finalized)
    {
      if failed || finalized || eof {
        return Refused;
      }
      if |bytes| > U64_MAX - observed {
        failed := true;
        return Refused;
      }
      var available := limit - hashed;
      var hashedNow := Min(|bytes|, available);
      if hashedNow != 0 {
        hash.Update(bytes[..hashedNow]);
        hashed := hashed + hashedNow;
      }
      PrefixGrows(seen, bytes, limit, hashedNow);
      observed := observed + |bytes|;
      seen := seen + bytes;
      r := Quiet;
      if !crossed && observed > limit {
        crossed := true;
        r := Crossed;
      }
    }

    /** One turn of the drain loop: the outcome of one `read`. */
    method Take(next: Read) returns (r: Taken)
      requires Valid() && !failed && !finalized && !eof && ReadShape(next)
      modifies this, hash, hash.block
      ensures Valid() && !finalized && failed == r.Broken? && eof == r.Ended?
      ensures var d := TakeNext(Draining(old(seen), 0, Got(0), 0), limit, next); seen == d.seen && r == d.taken
    {
      match next {
        case Data(bytes) =>
          var consumed := Consume(bytes);
          r := match consumed case Refused => Broken case Crossed => Over case Quiet => Got(|bytes|);
        case Eof =>
          eof := true;
          r := Ended;
        case Interrupted =>
          r := Got(0);
        case WouldBlock =>
          r := Blocked;
        case Fault =>
          failed := true;
          r := Broken;
      }
    }

    /** `proc17_qa_stream_drain_nonblocking`: reads until end, block, fault, crossing or a full slice.
      * A script that runs out stands for a descriptor that would block next. */
    method Drain(script: seq<Read>, nonblocking: bool) returns (r: Drained, used: nat)
      requires Valid()
      requires forall i :: 0 <= i < |script| ==> ReadShape(script[i])
      modifies this, hash, hash.block
      ensures Valid() && used <= |script| && finalized == old(finalized)
      ensures old(failed || finalized) ==> r == Error && seen == old(seen) && failed == old(failed) && eof == old(eof)
      ensures !old(failed || finalized) && old(eof) ==>
                r == EndOfFile && seen == old(seen) && used == 0 && eof && !failed
      ensures !old(failed || finalized || eof) && !nonblocking ==> r == Error && failed && seen == old(seen)
      ensures !old(failed || finalized || eof) && nonblocking ==>
                var d := Pull(old(seen), limit, script);
                && used == d.used && seen == d.seen && r == Outcome(d, |old(seen)|)
                && failed == d.taken.Broken? && eof == d.taken.Ended?
    {
      used := 0;
      if failed || finalized {
        return Error, 0;
      }
      if eof {
        return EndOfFile, 0;
      }
      if !nonblocking {
        failed := true;
        return Error, 0;
      }
      var taken, progress;
      taken, used, progress := PullLoop(script);
      r := match taken
        case Broken => Error
        case Over => LimitCrossed
        case Ended => EndOfFile
        case _ => if progress then Progress else Idle;
    }

    /** The loop of the drain. */
    method PullLoop(script: seq<Read>) returns (taken: Taken, used: nat, progress: bool)
      requires Valid() && !failed && !finalized && !eof
      requires forall i :: 0 <= i < |script| ==> ReadShape(script[i])
      modifies this, hash, hash.block
      ensures Valid() && !finalized
      ensures used <= |script|
      ensures failed == taken.Broken? && eof == taken.Ended? && (taken.Over? || progress == (|seen| > |old(seen)|))
      ensures var d := Pull(old(seen), limit, script); used == d.used && seen == d.seen && taken == d.taken
    {
      var drained := 0;
      used, progress, taken := 0, false, Got(0);
      while used < |script| && taken.Got? && drained < DRAIN_SLICE_BYTES
        invariant used <= |script| && 0 <= drained
        invariant Valid() && !finalized && failed == taken.Broken? && eof == taken.Ended?
        invariant Pull(old(seen), limit, script)
               == PullFrom(Draining(seen, drained, taken, used), limit, script)
        invariant |old(seen)| <= |seen| && (taken.Over? || progress == (|seen| > |old(seen)|))
      {
        taken := Take(script[used]);
        used := used + 1;
        if taken.Got? {
          drained := drained + taken.bytes;
          progress := progress || taken.bytes > 0;
        }
      }
    }

    /** `proc17_qa_stream_snapshot` */
    method Snapshot() returns (ok: bool, m: Measurement)
      requires Valid()
      modifies this, hash, hash.block
      ensures Valid() && seen == old(seen)
      ensures ok <==> !failed && eof
      ensures ok ==> m == Measured(seen, limit) && MeasurementValid(m)
      ensures failed == old(failed) && eof == old(eof)
    {
      m := Measurement(0, 0, 0, [], false, false);
      if failed || !eof {
        return false, m;
      }
      if !finalized {
        prefixDigest := hash.Final();
        finalized := true;
      }
      m := Measurement(observed, hashed, limit, prefixDigest, crossed, eof);
      ok := MeasurementValid(m);
    }
  }

  lemma PrefixGrows(seen: seq<byte>, bytes: seq<byte>, limit: nat, now: nat)
    requires now == Min(|bytes|, limit - Min(|seen|, limit))
    ensures (seen + bytes)[..Min(|seen + bytes|, limit)] == seen[..Min(|seen|, limit)] + bytes[..now]
  {
    if |seen| >= limit {
      assert bytes[..0] == [];
    } else {
      assert seen[..|seen|] == seen;
    }
  }

  lemma {:induction false} DataSplit(script: seq<Read>, i: nat)
    requires i <= |script|
    ensures DataOf(script) == DataOf(script[..i]) + DataOf(script[i..])
    decreases |script|
  {
    if i == |script| {
      assert script[..i] == script && script[i..] == [];
    } else {
      var init := script[..|script| - 1];
      DataSplit(init, i);
      assert init[..i] == script[..i] && init[i..] == script[i..][..|script| - 1 - i];
    }
  }

  /** The reads of one stream: no fault, one end of file, at the end. */
  ghost predicate WholeStream(script: seq<Read>) {
    && script != [] && script[|script| - 1].Eof?
    && forall i :: 0 <= i < |script| ==>
         ReadShape(script[i]) && !script[i].Fault? && (script[i].Eof? ==> i == |script| - 1)
  }

  /** Draining a whole stream slice by slice, whatever the read sizes, interruptions and empty polls:
    * the measurement depends on the bytes only, and the crossing is reported exactly once, if the
    * stream is longer than the limit. */
  method Observe(script: seq<Read>, limit: u64) returns (m: Measurement, crossings: nat)
    requires limit != 0 && WholeStream(script) && |DataOf(script)| <= U64_MAX
    ensures m == Measured(DataOf(script), limit) && MeasurementValid(m)
    ensures crossings == if |DataOf(script)| > limit then 1 else 0
  {
    var o := new Observer(limit);
    crossings := 0;
    var done := 0;
    assert DataOf(script[..0]) == [];
    while !o.eof
      invariant 0 <= done <= |script|
      invariant o.Valid() && fresh(o) && fresh(o.hash) && fresh(o.hash.block)
      invariant !o.failed && !o.finalized && o.limit == limit
      invariant o.eof <==> done == |script|
      invariant o.seen == DataOf(script[..done])
      invariant crossings == if |o.seen| > limit then 1 else 0
      decreases |script| - done
    {
      var r;
      r, done := DrainRest(o, script, done);
      if r == LimitCrossed {
        crossings := crossings + 1;
      }
    }
    assert script[..|script|] == script;
    var ok;
    ok, m := o.Snapshot();
  }

  method DrainRest(o: Observer, script: seq<Read>, done: nat) returns (r: Drained, next: nat)
    requires WholeStream(script) && done < |script| && |DataOf(script)| <= U64_MAX
    requires o.Valid() && !o.failed && !o.finalized && !o.eof && o.seen == DataOf(script[..done])
    modifies o, o.hash, o.hash.block
    ensures o.Valid() && !o.failed && !o.finalized && done < next <= |script|
    ensures o.eof <==> next == |script|
    ensures o.seen == DataOf(script[..next])
    ensures |old(o.seen)| <= |o.seen|
    ensures r == LimitCrossed <==> |old(o.seen)| <= o.limit < |o.seen|
  {
    var rest := script[done..];
    WholePull(script, done, rest, o.limit);
    var used;
    r, used := o.Drain(rest, true);
    next := done + used;
  }

  /** A drain in the middle of a whole stream gets further and does not fail. */
  lemma WholePull(script: seq<Read>, done: nat, rest: seq<Read>, limit: nat)
    requires WholeStream(script) && done < |script| && rest == script[done..] && |DataOf(script)| <= U64_MAX
    ensures forall i :: 0 <= i < |rest| ==> ReadShape(rest[i])
    ensures var before := DataOf(script[..done]);
            var d := Pull(before, limit, rest);
            && !d.taken.Broken? && 0 < d.used <= |rest| && d.seen == DataOf(script[..done + d.used])
            && (d.taken.Ended? <==> done + d.used == |script|) && |before| <= |d.seen|
            && (Outcome(d, |before|) == LimitCrossed <==> |before| <= limit < |d.seen|)
  {
    var before := DataOf(script[..done]);
    RestReads(script, done, rest);
    PullSays(before, limit, rest);
    var n := Pull(before, limit, rest).used;
    RestData(script, done, n, rest);
    assert n == |rest| ==> rest[n - 1].Eof?;
  }

  lemma RestReads(script: seq<Read>, done: nat, rest: seq<Read>)
    requires WholeStream(script) && done < |script| && rest == script[done..] && |DataOf(script)| <= U64_MAX
    ensures |rest| > 0 && rest[|rest| - 1].Eof?
    ensures forall i :: 0 <= i < |rest| ==> ReadShape(rest[i])
    ensures !CanFail(|DataOf(script[..done])|, rest)
  {
    forall i | 0 <= i < |rest| ensures ReadShape(rest[i]) && !rest[i].Fault? {
      assert rest[i] == script[done + i];
    }
    RestData(script, done, |rest|, rest);
    assert rest[..|rest|] == rest;
  }

  lemma RestData(script: seq<Read>, done: nat, i: nat, rest: seq<Read>)
    requires WholeStream(script) && done < |script| && rest == script[done..] && i <= |rest|
    ensures DataOf(script[..done + i]) == DataOf(script[..done]) + DataOf(rest[..i])
    ensures |DataOf(script[..done])| + |DataOf(rest[..i])| <= |DataOf(script)|
    ensures i > 0 && rest[i - 1].Eof? ==> i == |rest|
  {
    DataSplit(script, done + i);
    DataSplit(script[..done + i], done);
    assert script[..done + i][..done] == script[..done];
    assert script[..done + i][done..] == rest[..i];
    assert i > 0 ==> rest[i - 1] == script[done + i - 1];
  }
}
