/** The supervisor's side of the private report: collecting the controller's record and its end, and publishing what
  * finalization allows. */
module Supervisor {
  import opened Bytes
  import opened Wrappers
  import opened Wire
  import opened Report

  /** One `read` on the report pipe: some of the bytes that are there, the end, nothing yet, or a fault. */
  datatype Read = Available(n: nat) | End | NotYet | Fault
  datatype Turn = PollFailed | WatchdogFired | Ready(input: seq<Read>, exited: bool)

  /** What has been seen of a controller that writes `total` bytes, and whether the collection has failed. */
  datatype Progress = Progress(used: nat, eof: bool, exited: bool, failed: bool)

  const START := Progress(0, false, false, false)

  /** The inner read loop: up to the end, a fault, a byte too many, or until nothing more is there. */
  function Drained(total: nat, p: Progress, input: seq<Read>): (q: Progress)
    requires p.used <= total && p.used <= REPORT_BYTES
    ensures p.used <= q.used <= total && q.used <= REPORT_BYTES && q.exited == p.exited
    decreases |input|
  {
    if input == [] then p
    else
      match input[0]
      case Fault => p.(failed := true)
      case NotYet => p
      case End => p.(eof := p.eof || p.used == total)
      case Available(n) =>
        if n == 0 || p.used == total then p
        else if p.used == REPORT_BYTES then p.(failed := true)
        else
          Drained(total, p.(used := p.used + Min(Min(n, total - p.used), REPORT_BYTES - p.used)), input[1..])
  }

  /** One return of `poll`; a pipe that has ended is not read again. */
  function After(total: nat, p: Progress, t: Turn): (q: Progress)
    requires p.used <= total && p.used <= REPORT_BYTES
    ensures p.used <= q.used <= total && q.used <= REPORT_BYTES
  {
    if !t.Ready? then p.(failed := true)
    else
      var q := if p.eof then p else Drained(total, p, t.input);
      q.(exited := q.exited || (t.exited && !q.failed))
  }

  /** The whole collection, for every sequence of poll outcomes. */
  function Through(total: nat, p: Progress, turns: seq<Turn>): (q: Progress)
    requires p.used <= total && p.used <= REPORT_BYTES
    decreases |turns|
  {
    if turns == [] || p.failed || (p.eof && p.exited) then p else Through(total, After(total, p, turns[0]), turns[1..])
  }

  /** Nothing failed, the end was seen after exactly one record, and the controller exited. */
  predicate Collects(total: nat, turns: seq<Turn>) {
    var p := Through(total, START, turns);
    !p.failed && p.eof && p.exited && total == REPORT_BYTES
  }

  /** `collect_controller_report_v1`: the record is complete exactly if the pipe delivered 572 bytes and no more. */
  class Collector {
    const stream: seq<byte>
    const report: array<byte>
    var used: nat
    var eof: bool
    var exited: bool
    /** A fault, an overflowing byte, a failed poll or the watchdog. */
    var failed: bool

    ghost predicate Valid()
      reads this, report
    {
      && report.Length == REPORT_BYTES && used <= REPORT_BYTES && used <= |stream|
      && report[..used] == stream[..used] && (eof ==> used == |stream|)
    }

    ghost function Now(): Progress
      reads this
    {
      Progress(used, eof, exited, failed)
    }

    /** `stream` is all that the controller writes before it closes the pipe. */
    constructor (stream: seq<byte>)
      ensures Valid() && this.stream == stream && Now() == START && fresh(report)
    {
      this.stream := stream;
      report := new byte[REPORT_BYTES](_ => 0);
      used, eof, exited, failed := 0, false, false, false;
    }

    /** One `read`; false means that the collection has failed, `more` that the inner loop goes on. */
    method ReadOnce(r: Read) returns (ok: bool, more: bool)
      requires Valid()
      modifies this`used, this`eof, report
      ensures Valid() && (old(eof) ==> eof)
      ensures !ok <==> r.Fault? || (r.Available? && r.n > 0 && old(used) == REPORT_BYTES < |stream|)
      ensures eof == (old(eof) || (r.End? && used == |stream|))
      ensures more <==> ok && r.Available? && r.n > 0 && old(used) < |stream|
      ensures used == old(used) + if !ok || !r.Available? then 0
                                  else Min(Min(r.n, |stream| - old(used)), REPORT_BYTES - old(used))
    {
      match r {
        case Fault => return false, false;
        case NotYet => return true, false;
        case End =>
          if used != |stream| {
            return true, false;
          }
          eof := true;
          return true, false;
        case Available(n) =>
          var rest := |stream| - used;
          if rest == 0 || n == 0 {
            return true, false;
          }
          if used == REPORT_BYTES {
            return false, false;
          }
          var take := Min(Min(n, rest), REPORT_BYTES - used);
          ghost var was := report[..];
          Copy(report, used, stream[used..used + take]);
          Grown(was, used, stream, take);
          used := used + take;
          ok, more := true, true;
      }
    }

    method OnTurn(t: Turn) returns (ok: bool)
      requires Valid() && !failed
      modifies this`used, this`eof, this`exited, this`failed, report
      ensures Valid() && Now() == After(|stream|, old(Now()), t) && ok == !failed
    {
      if !t.Ready? {
        failed := true;
        return false;
      }
      ok := true;
      if !eof {
        ok := ReadLoop(t.input);
      }
      if ok && t.exited {
        exited := true;
      }
    }

    /** The reads after the pipe became readable. */
    method ReadLoop(input: seq<Read>) returns (ok: bool)
      requires Valid() && !failed && !eof
      modifies this`used, this`eof, this`failed, report
      ensures Valid() && Now() == Drained(|stream|, old(Now()), input) && ok == !failed
    {
      var i, more := 0, true;
      ok := true;
      while i < |input| && more && ok
        invariant 0 <= i <= |input| && Valid() && !failed
        invariant if !ok then Drained(|stream|, old(Now()), input) == Now().(failed := true)
                  else if !more then Drained(|stream|, old(Now()), input) == Now()
                  else !eof && Drained(|stream|, old(Now()), input) == Drained(|stream|, Now(), input[i..])
      {
        assert input[i..][1..] == input[i + 1..];
        ok, more := ReadOnce(input[i]);
        i := i + 1;
      }
      failed := !ok;
    }

    /** The loop until the end of the pipe and the exit of the controller, and the verdict on the record. */
    method Collect(turns: seq<Turn>, waits: bool) returns (ok: bool)
      requires Valid() && Now() == START
      modifies this`used, this`eof, this`exited, this`failed, report
      ensures Now() == Through(|stream|, START, turns)
      ensures ok <==> Collects(|stream|, turns) && waits
      ensures ok ==> report[..] == stream
    {
      var i := 0;
      while i < |turns| && !(eof && exited)
        invariant 0 <= i <= |turns| && Valid() && !failed
        invariant Through(|stream|, START, turns) == Through(|stream|, Now(), turns[i..])
      {
        assert turns[i..][1..] == turns[i + 1..];
        var fine := OnTurn(turns[i]);
        i := i + 1;
        if !fine {
          return false;
        }
      }
      if !(eof && exited) || !waits {
        return false;
      }
      ok := used == REPORT_BYTES;
      assert report[..REPORT_BYTES] == report[..] && (used == |stream| ==> stream[..used] == stream);
    }
  }

  lemma Grown(report: seq<byte>, used: nat, stream: seq<byte>, take: nat)
    requires |report| == REPORT_BYTES && used + take <= REPORT_BYTES && used + take <= |stream|
    requires report[..used] == stream[..used]
    ensures Splice(report, used, stream[used..used + take])[..used + take] == stream[..used + take]
  {
    assert stream[..used + take] == stream[..used] + stream[used..used + take];
  }

  /** `run_execution_protocol_v1` after the namespace: what is written to the public pipe is the frame of what
    * finalization allows for the very bytes the controller wrote, and it is written exactly if the record was
    * collected, finalization allows something, and the write succeeds. */
  method Publish(stream: seq<byte>, turns: seq<Turn>, waits: bool, exit: Wait, closes: bool, writes: bool,
                 identity: seq<byte>, token: seq<byte>) returns (collected: bool, frame: Option<seq<byte>>)
    ensures collected <==> Collects(|stream|, turns) && waits
    ensures var v := Finalize(stream, identity, token, exit, AfterCollect(closes));
            && (frame.Some? <==> collected && v.Publish? && writes)
            && (frame.Some? ==> |v.payload| >= 32
                                && DecodeRun(frame.value) == Some(View(v.kind, v.payload[..32], v.payload)))
  {
    var c := new Collector(stream);
    frame := None;
    collected := c.Collect(turns, waits);
    if !collected {
      return;
    }
    FinalizeExact(stream, identity, token, exit, AfterCollect(closes));
    var made := FinalizeFrame(c.report[..], identity, token, exit, AfterCollect(closes));
    if writes {
      frame := made;
    }
  }
}
