/** The namespace controller: the READY handshake, the poll loop over the candidate's streams, status channel,
  * timer and exit, and the report built after it. */
module Controller {
  import opened Bytes
  import opened Wrappers
  import opened Wire
  import opened Records
  import opened Report
  import Stream
  import Phase
  import Status

  // ---------------------------------------------- what one poll turn yields

  datatype StatusRead = Idle | Closed | Unreadable | Got(kind: u16)
  datatype TimerRead = TimerQuiet | TimerFired | TimerBad
  datatype WaitRead = NotReady | WaitFailed | Ended(status: Phase.WaitStatus)

  datatype Turn =
    | PollFailed
    | Turn(out: seq<Stream.Read>, err: seq<Stream.Read>, outReady: bool, errReady: bool,
           status: seq<StatusRead>, heap: Snapshot, heapReadable: bool,
           timer: TimerRead, wait: WaitRead, killWorks: bool)

  predicate TurnShape(t: Turn) {
    t.Turn? ==>
      && (forall i :: 0 <= i < |t.out| ==> Stream.ReadShape(t.out[i]))
      && (forall i :: 0 <= i < |t.err| ==> Stream.ReadShape(t.err[i]))
      && (t.wait.Ended? ==> WaitShape(t.wait.status))
  }

  /** What the kernel reports about a process that has ended. */
  predicate WaitShape(w: Phase.WaitStatus) { w.Exited? || (w.Killed? && 0 < w.signal < NSIG) }

  /** What the loop does to the candidate, in order. */
  datatype Act = Kill | Reap

  /** At most one kill, and none after the reap. */
  predicate KillOnceBeforeReap(acts: seq<Act>) {
    && (forall i, j :: 0 <= i < j < |acts| ==> !(acts[i] == Kill && acts[j] == Kill))
    && (forall i :: 0 <= i < |acts| - 1 ==> acts[i] != Reap)
  }

  // --------------------------------------------------- a turn, as a function

  /** One output stream: the bytes that came in, whether it has ended, whether its observer has failed. */
  datatype Port = Port(seen: seq<byte>, eof: bool, failed: bool)

  function Pour(p: Port, limit: nat, input: seq<Stream.Read>): Port {
    if p.eof || p.failed then p
    else
      var d := Stream.Pull(p.seen, limit, input);
      Port(d.seen, d.taken.Ended?, d.taken.Broken?)
  }

  predicate Crosses(p: Port, q: Port, limit: nat) { !q.failed && |p.seen| <= limit < |q.seen| }

  /** Where the loop is; `subject` names the stream whose observer has failed, if one has. */
  datatype Poll = Poll(
    out: Port, err: Port, statusEof: bool, notifications: byte, timerConsumed: bool, reaped: bool,
    wait: Phase.WaitStatus, killSent: bool, subject: u16, phase: Phase.Phase)

  /** One failing observer is put down as the error, a second one ends the loop. */
  function OutStep(p: Poll, t: Turn): Option<Poll>
    requires t.Turn?
  {
    if !t.outReady || p.subject == SUBJECT_STDOUT then Some(p)
    else
      var q := Pour(p.out, STREAM_LIMIT, t.out);
      if !q.failed then Some(p.(out := q))
      else if p.subject == 0 then Some(p.(out := q, subject := SUBJECT_STDOUT)) else None
  }

  function ErrStep(p: Poll, t: Turn): Option<Poll>
    requires t.Turn?
  {
    if !t.errReady || p.subject == SUBJECT_STDERR then Some(p)
    else
      var q := Pour(p.err, STREAM_LIMIT, t.err);
      if !q.failed then Some(p.(err := q))
      else if p.subject == 0 then Some(p.(err := q, subject := SUBJECT_STDERR)) else None
  }

  datatype Heard = Heard(ok: bool, notifications: byte, eof: bool)

  /** The status channel up to its end or until it is idle: at most one HEAP_DENIED, which the telemetry confirms. */
  function Hear(input: seq<StatusRead>, notifications: byte, eof: bool, confirmed: bool): Heard
    decreases |input|
  {
    if input == [] || input[0].Idle? then Heard(true, notifications, eof)
    else if input[0].Closed? then Heard(true, notifications, true)
    else if input[0].Got? && input[0].kind == Status.HEAP_DENIED && notifications == 0 && confirmed then
      Hear(input[1..], 1, eof, confirmed)
    else Heard(false, notifications, eof)
  }

  predicate Confirmed(t: Turn)
    requires t.Turn?
  {
    t.heapReadable && t.heap.denied == 1 && t.heap.systemFailed == 0
  }

  function StatusStep(p: Poll, t: Turn): Option<Poll>
    requires t.Turn?
  {
    var h := Hear(t.status, p.notifications, p.statusEof, Confirmed(t));
    if h.ok then Some(p.(notifications := h.notifications, statusEof := h.eof)) else None
  }

  /** Timer and wait are looked at until the candidate is reaped. */
  function TimerStep(p: Poll, t: Turn): Option<Poll>
    requires t.Turn?
  {
    if p.reaped || t.timer.TimerQuiet? then Some(p)
    else if t.timer.TimerFired? && !p.timerConsumed then Some(p.(timerConsumed := true)) else None
  }

  function WaitStep(p: Poll, w: WaitRead): Option<Poll> {
    if p.reaped || w.NotReady? then Some(p)
    else if w.Ended? then Some(p.(wait := w.status, reaped := true)) else None
  }

  /** What the reads of a turn that lead from `p` to `q` report. */
  function EpochOf(p: Poll, q: Poll, heapPeak: u64): Phase.Epoch
    requires |q.out.seen| <= U64_MAX && |q.err.seen| <= U64_MAX
  {
    var denied, fired := q.notifications != p.notifications, q.timerConsumed != p.timerConsumed;
    Phase.Epoch(Flag(Crosses(p.out, q.out, STREAM_LIMIT)), Flag(Crosses(p.err, q.err, STREAM_LIMIT)), Flag(denied),
                Flag(fired), 0, Phase.Neither, |q.out.seen|, |q.err.seen|,
                if denied then heapPeak else 0, if fired then WALL_TIME_MS else 0)
  }

  /** A candidate reaped in this turn is part of its epoch. */
  function Reaping(e: Phase.Epoch, p: Poll, w: WaitRead): Phase.Epoch {
    if !p.reaped && w.Ended? then e.(terminal := 1, wait := w.status) else e
  }

  /** An invalid or ambiguous epoch ends the loop. */
  ghost function PhaseStep(p: Poll, e: Phase.Epoch): Option<Poll> {
    if !Phase.EpochValid(e) || (p.phase.cause.kind == 0 && Phase.Conflicting(e)) then None
    else Some(p.(phase := Phase.EpochStep(p.phase, e)))
  }

  function KillStep(p: Poll, works: bool): Option<Poll> {
    if (p.subject == 0 && p.phase.cause.kind == 0) || p.reaped || p.killSent then Some(p)
    else if works then Some(p.(killSent := true)) else None
  }

  function StreamsStep(p: Poll, t: Turn): Option<Poll>
    requires t.Turn?
  {
    var q := OutStep(p, t);
    if q.Some? then ErrStep(q.value, t) else None
  }

  function SignalsStep(p: Poll, t: Turn): Option<Poll>
    requires t.Turn?
  {
    var q := StatusStep(p, t);
    if q.Some? then TimerStep(q.value, t) else None
  }

  function ReadStep(p: Poll, t: Turn): Option<Poll>
    requires t.Turn?
  {
    var q := StreamsStep(p, t);
    if q.Some? then SignalsStep(q.value, t) else None
  }

  /** Everything after the reads: the wait, the epoch and the kill. */
  ghost function SettleStep(p: Poll, e: Phase.Epoch, w: WaitRead, killWorks: bool): Option<Poll> {
    var d := WaitStep(p, w);
    var q := if d.Some? then PhaseStep(d.value, Reaping(e, p, w)) else None;
    if q.Some? then KillStep(q.value, killWorks) else None
  }

  /** One turn of the loop; None if it ends the loop with a failure. */
  ghost function TurnStep(p: Poll, t: Turn): Option<Poll> {
    if t.PollFailed? then None
    else
      var q := ReadStep(p, t);
      if q.None? || |q.value.out.seen| > U64_MAX || |q.value.err.seen| > U64_MAX then None
      else SettleStep(q.value, EpochOf(p, q.value, t.heap.peak), t.wait, t.killWorks)
  }

  /** The condition on which the loop ends. */
  predicate Over(p: Poll) {
    && p.reaped && p.statusEof
    && (p.subject == SUBJECT_STDOUT || p.out.eof) && (p.subject == SUBJECT_STDERR || p.err.eof)
  }

  /** Where a sequence of poll outcomes leads the loop: how it stands, and where it is as long as it has not failed. */
  datatype Course = Course(end: LoopEnd, at: Poll)

  ghost function Through(p: Poll, turns: seq<Turn>): Course
    decreases |turns|
  {
    if Over(p) then Course(Left, p)
    else if turns == [] then Course(Polling, p)
    else
      var q := TurnStep(p, turns[0]);
      if q.Some? then Through(q.value, turns[1..]) else Course(Aborted, p)
  }

  const BEGIN := Poll(Port([], false, false), Port([], false, false), false, 0, false, false, Phase.Neither, false, 0,
                      Phase.RELEASED)

  /** `drain_epoch_stream` */
  method DrainEpoch(o: Stream.Observer, input: seq<Stream.Read>) returns (failed: bool, crossed: bool)
    requires o.Valid() && !o.failed && !o.finalized
    requires forall i :: 0 <= i < |input| ==> Stream.ReadShape(input[i])
    modifies o, o.hash, o.hash.block
    ensures o.Valid() && !o.finalized && failed == o.failed
    ensures PortOf(o) == Pour(old(PortOf(o)), o.limit, input)
    ensures crossed == Crosses(old(PortOf(o)), PortOf(o), o.limit)
  {
    Stream.PullSays(o.seen, o.limit, input);
    var r, used := o.Drain(input, true);
    failed := r == Stream.Error;
    crossed := r == Stream.LimitCrossed;
  }

  /** The measurement of a stream that has ended, or none if its observer failed. */
  method MeasureStream(o: Stream.Observer, failed: bool) returns (m: Stream.Measurement)
    requires o.Valid() && o.limit == STREAM_LIMIT && (failed || (o.eof && !o.failed))
    modifies o, o.hash, o.hash.block
    ensures !failed ==> m == Stream.Measured(old(o.seen), STREAM_LIMIT) && o.eof
    ensures |m.digest| == 32
  {
    m := Stream.Measurement(0, 0, 0, Zeros(32), false, false);
    if !failed {
      var ok;
      ok, m := o.Snapshot();
    }
  }

  ghost function PortOf(o: Stream.Observer): Port
    reads o
  {
    Port(o.seen, o.eof, o.failed)
  }

  // ------------------------------------------------- what the loop has seen

  /** The evidence at one moment: both outputs, the denial, the timer, the end of the candidate. */
  datatype Sight = Sight(
    out: Output, err: Output, notifications: byte, timerConsumed: bool, reaped: bool, wait: Phase.WaitStatus)

  /** A first cause is backed by what has been seen. */
  ghost predicate Witnessed(c: Phase.Cause, s: Sight) {
    c.kind != 0 ==>
      if c.kind == Phase.OUTPUT_LIMIT then 0 < c.value <= MaximumOutput(s.out, s.err)
      else if c.kind == Phase.MEMORY_LIMIT then s.notifications == 1 && c.value > 0
      else if c.kind == Phase.WALL_TIMEOUT then s.timerConsumed && c.value == WALL_TIME_MS
      else
        s.reaped && !s.wait.Neither? && c.kind == Phase.TerminalCause(s.wait) && c.value == Phase.TerminalValue(s.wait)
  }

  /** An epoch reports only what has been seen. */
  ghost predicate Fits(e: Phase.Epoch, s: Sight) {
    && (e.stdoutCrossed != 0 ==> s.out == Output(e.stdoutBytes, true))
    && (e.stderrCrossed != 0 ==> s.err == Output(e.stderrBytes, true))
    && (e.heapDenied != 0 ==> s.notifications == 1)
    && (e.wallExpired != 0 ==> s.timerConsumed && e.wallLimit == WALL_TIME_MS)
    && (e.terminal != 0 ==> s.reaped && s.wait == e.wait)
  }

  /** Later evidence: outputs only grow, a crossing, a denial, the timer and the end stay. */
  predicate Later(s: Sight, t: Sight) {
    && s.out.observed <= t.out.observed && (s.out.crossed ==> t.out.crossed)
    && s.err.observed <= t.err.observed && (s.err.crossed ==> t.err.crossed)
    && s.notifications <= t.notifications <= 1 && (s.timerConsumed ==> t.timerConsumed)
    && (s.reaped ==> t.reaped && t.wait == s.wait)
  }

  lemma WitnessStays(c: Phase.Cause, s: Sight, t: Sight)
    requires Witnessed(c, s) && Later(s, t)
    ensures Witnessed(c, t)
  {}

  lemma ClaimWitnessed(e: Phase.Epoch, c: Phase.Cause, s: Sight)
    requires Phase.EpochValid(e) && Fits(e, s) && Phase.Observed(e, c.kind, c.value)
    ensures Witnessed(c, s)
  {
    var i: nat :| Phase.Source(e, i) == Phase.Saw(c.kind, c.value);
  }

  // -------------------------------------------- what every turn keeps

  ghost predicate Fitting(p: Poll) { |p.out.seen| <= U64_MAX && |p.err.seen| <= U64_MAX }

  /** The evidence at a point of the loop. */
  function SightOf(p: Poll): Sight
    requires |p.out.seen| <= U64_MAX && |p.err.seen| <= U64_MAX
  {
    Sight(Output(|p.out.seen|, |p.out.seen| > STREAM_LIMIT), Output(|p.err.seen|, |p.err.seen| > STREAM_LIMIT),
          p.notifications, p.timerConsumed, p.reaped, p.wait)
  }

  /** The one stream whose observer has failed is the error; a reaped candidate left a cause; one denial at most. */
  ghost predicate Sound(p: Poll) {
    && Fitting(p) && p.subject in {0, SUBJECT_STDOUT, SUBJECT_STDERR}
    && (p.out.failed <==> p.subject == SUBJECT_STDOUT) && (p.err.failed <==> p.subject == SUBJECT_STDERR)
    && PhaseRunning(p.phase) && (p.reaped ==> p.phase.cause.kind != 0 && WaitShape(p.wait)) && p.notifications <= 1
  }

  /** As long as nothing has failed, a first cause is backed by what has been seen. */
  ghost predicate Backed(p: Poll)
    requires Fitting(p)
  {
    p.subject == 0 ==> Witnessed(p.phase.cause, SightOf(p))
  }

  /** A candidate that still runs has been killed exactly if there is an error or a cause. */
  ghost predicate KillDue(p: Poll) {
    !p.reaped ==> (p.killSent <==> p.subject != 0 || p.phase.cause.kind != 0)
  }

  ghost predicate Inv(p: Poll) { Sound(p) && Backed(p) && KillDue(p) }

  /** The reads leave phase, wait and kill alone; evidence only grows, and the epoch reports what was seen. */
  ghost predicate HasRead(p: Poll, q: Poll)
    requires Fitting(p) && Fitting(q)
  {
    && Sound(q) && q.phase == p.phase && q.reaped == p.reaped && q.wait == p.wait && q.killSent == p.killSent
    && (p.subject != 0 ==> q.subject == p.subject)
    && (q.subject == 0 ==> Later(SightOf(p), SightOf(q)))
  }

  lemma ReadsKeep(p: Poll, t: Turn)
    requires t.Turn? && Sound(p) && ReadStep(p, t).Some? && Fitting(ReadStep(p, t).value)
    ensures HasRead(p, ReadStep(p, t).value)
  {
    var q := StreamsStep(p, t).value;
    StreamsKeep(p, t);
    SignalsKeep(q, t);
  }

  lemma StreamsKeep(p: Poll, t: Turn)
    requires t.Turn? && Sound(p) && StreamsStep(p, t).Some? && Fitting(StreamsStep(p, t).value)
    ensures HasRead(p, StreamsStep(p, t).value)
  {
    OutKeeps(p, t);
    ErrKeeps(OutStep(p, t).value, t);
  }

  lemma OutKeeps(p: Poll, t: Turn)
    requires t.Turn? && Sound(p) && OutStep(p, t).Some? && |OutStep(p, t).value.out.seen| <= U64_MAX
    ensures HasRead(p, OutStep(p, t).value)
  {
    PourGrows(p.out, t.out);
  }

  lemma ErrKeeps(p: Poll, t: Turn)
    requires t.Turn? && Sound(p) && ErrStep(p, t).Some? && |ErrStep(p, t).value.err.seen| <= U64_MAX
    ensures HasRead(p, ErrStep(p, t).value)
  {
    PourGrows(p.err, t.err);
  }

  lemma PourGrows(p: Port, input: seq<Stream.Read>)
    ensures |p.seen| <= |Pour(p, STREAM_LIMIT, input).seen|
  {
    Stream.PullSays(p.seen, STREAM_LIMIT, input);
  }

  lemma SignalsKeep(p: Poll, t: Turn)
    requires t.Turn? && Sound(p) && SignalsStep(p, t).Some?
    ensures HasRead(p, SignalsStep(p, t).value) && SignalsStep(p, t).value.out == p.out
    ensures SignalsStep(p, t).value.err == p.err
  {
    HearBounded(t.status, p.notifications, p.statusEof, Confirmed(t));
  }

  lemma {:induction false} HearBounded(input: seq<StatusRead>, notifications: byte, eof: bool, confirmed: bool)
    requires notifications <= 1
    ensures notifications <= Hear(input, notifications, eof, confirmed).notifications <= 1
    ensures eof ==> Hear(input, notifications, eof, confirmed).eof
    decreases |input|
  {
    if input != [] && notifications == 0 {
      HearBounded(input[1..], 1, eof, confirmed);
    }
  }

  lemma EpochFits(p: Poll, q: Poll, heapPeak: u64)
    requires Fitting(p) && Fitting(q) && HasRead(p, q) && q.subject == 0
    ensures Fits(EpochOf(p, q, heapPeak), SightOf(q))
  {}

  lemma PhaseKeeps(p: Phase.Phase, e: Phase.Epoch)
    requires PhaseRunning(p) && Phase.EpochValid(e) && (p.cause.kind != 0 || !Phase.Conflicting(e))
    ensures PhaseRunning(Phase.EpochStep(p, e))
    ensures p.cause.kind != 0 ==> Phase.EpochStep(p, e).cause == p.cause
    ensures e.terminal != 0 ==> Phase.EpochStep(p, e).cause.kind != 0
  {
    Phase.StepKeeps(p, Phase.Resolve(e));
    if e.terminal != 0 && p.cause.kind == 0 {
      TerminalAlone(e);
    }
  }

  /** In an epoch without conflict, the end of the candidate is the one cause. */
  lemma TerminalAlone(e: Phase.Epoch)
    requires Phase.EpochValid(e) && e.terminal != 0 && !Phase.Conflicting(e)
    ensures Phase.OneCause(e, Phase.TerminalCause(e.wait), Phase.TerminalValue(e.wait))
  {
    assert Phase.Source(e, 4) == Phase.Saw(Phase.TerminalCause(e.wait), Phase.TerminalValue(e.wait));
    assert Phase.Observed(e, Phase.TerminalCause(e.wait), Phase.TerminalValue(e.wait));
    assert Phase.Named(e, Phase.TerminalCause(e.wait));
    forall k: u16, v: u64 | Phase.Observed(e, k, v)
      ensures k == Phase.TerminalCause(e.wait) && v <= Phase.TerminalValue(e.wait)
    {
      assert Phase.Named(e, k);
    }
  }

  /** A cause claimed by an epoch that reports only what has been seen is backed. */
  lemma EpochWitnessed(p: Phase.Phase, e: Phase.Epoch, s: Sight)
    requires Phase.EpochValid(e) && Fits(e, s) && Witnessed(p.cause, s)
    ensures Witnessed(Phase.EpochStep(p, e).cause, s)
  {
    var c := Phase.EpochStep(p, e).cause;
    if c != p.cause {
      ClaimWitnessed(e, c, s);
    }
  }

  lemma SettleKeeps(p: Poll, q: Poll, e: Phase.Epoch, w: WaitRead, killWorks: bool)
    requires Inv(p) && Fitting(q) && HasRead(p, q) && (w.Ended? ==> WaitShape(w.status))
    requires e.terminal == 0 && (q.subject == 0 ==> Fits(e, SightOf(q)))
    requires SettleStep(q, e, w, killWorks).Some?
    ensures Inv(SettleStep(q, e, w, killWorks).value)
  {
    var d := WaitStep(q, w).value;
    var f := Reaping(e, q, w);
    PhaseKeeps(d.phase, f);
    if q.subject == 0 {
      WitnessStays(p.phase.cause, SightOf(p), SightOf(q));
      WitnessStays(p.phase.cause, SightOf(q), SightOf(d));
      EpochWitnessed(d.phase, f, SightOf(d));
    }
  }

  lemma TurnReads(p: Poll, t: Turn)
    requires t.Turn?
    ensures var q := ReadStep(p, t);
            if q.None? then TurnStep(p, t) == None
            else Fitting(q.value) ==>
                   TurnStep(p, t) == SettleStep(q.value, EpochOf(p, q.value, t.heap.peak), t.wait, t.killWorks)
  {}

  /** Every turn that does not fail keeps the invariant of the loop. */
  lemma TurnKeeps(p: Poll, t: Turn)
    requires Inv(p) && TurnShape(t) && TurnStep(p, t).Some?
    ensures Inv(TurnStep(p, t).value)
  {
    var q := ReadStep(p, t).value;
    ReadsKeep(p, t);
    if q.subject == 0 {
      EpochFits(p, q, t.heap.peak);
    }
    SettleKeeps(p, q, EpochOf(p, q, t.heap.peak), t.wait, t.killWorks);
  }

  class Controller {
    const out: Stream.Observer
    const err: Stream.Observer
    const phase: Phase.PhaseState
    var reaped: bool
    var statusEof: bool
    var notifications: byte
    var killSent: bool
    var timerConsumed: bool
    var errorCode: u16
    var errorSubject: u16
    var wait: Phase.WaitStatus
    ghost var acts: seq<Act>

    ghost predicate Separate() {
      && out != err && out.hash != err.hash && out.hash.block != err.hash.block
    }

    ghost predicate StreamsValid()
      reads out, out.hash, out.hash.block, err, err.hash, err.hash.block
    {
      && Separate() && out.Valid() && err.Valid() && !out.finalized && !err.finalized
      && out.limit == STREAM_LIMIT && err.limit == STREAM_LIMIT
    }

    /** An error names the one stream that failed. */
    ghost predicate ErrorsValid()
      reads this, out, err
    {
      && errorSubject in {0, SUBJECT_STDOUT, SUBJECT_STDERR}
      && errorCode == (if errorSubject == 0 then 0 else OUTPUT_INCOMPLETE)
      && (out.failed <==> errorSubject == SUBJECT_STDOUT) && (err.failed <==> errorSubject == SUBJECT_STDERR)
    }

    /** What has been done to the candidate is what the flags say. */
    ghost predicate ActsTold()
      reads this
    {
      acts == (if killSent then [Kill] else []) + (if reaped then [Reap] else [])
    }

    ghost function Now(): Sight
      reads this, out, err
    {
      Sight(Output(out.observed, out.crossed), Output(err.observed, err.crossed), notifications, timerConsumed,
            reaped, wait)
    }

    ghost function View(): Poll
      reads this, phase, out, err
    {
      Poll(PortOf(out), PortOf(err), statusEof, notifications, timerConsumed, reaped, wait, killSent, errorSubject,
           phase.View())
    }

    ghost predicate Valid()
      reads this, phase, out, out.hash, out.hash.block, err, err.hash, err.hash.block
    {
      StreamsValid() && ErrorsValid() && ActsTold() && Inv(View())
    }

    /** The condition on which the loop ends. */
    predicate Done()
      reads this, out, err
    {
      && reaped && statusEof
      && (errorSubject == SUBJECT_STDOUT || out.eof) && (errorSubject == SUBJECT_STDERR || err.eof)
    }

    /** The state in which the loop is entered: READY accepted and the candidate released. */
    constructor (phase: Phase.PhaseState)
      requires phase.View() == Phase.RELEASED
      ensures Valid() && this.phase == phase && View() == BEGIN && acts == []
      ensures fresh(out) && fresh(out.hash) && fresh(out.hash.block) && fresh(err) && fresh(err.hash)
      ensures fresh(err.hash.block)
    {
      this.phase := phase;
      out := new Stream.Observer(STREAM_LIMIT);
      err := new Stream.Observer(STREAM_LIMIT);
      reaped, statusEof, notifications, killSent, timerConsumed := false, false, 0, false, false;
      errorCode, errorSubject, wait, acts := 0, 0, Phase.Neither, [];
    }

    method DrainOut(input: seq<Stream.Read>) returns (ok: bool, crossed: bool)
      requires StreamsValid() && ErrorsValid() && errorSubject != SUBJECT_STDOUT
      requires forall i :: 0 <= i < |input| ==> Stream.ReadShape(input[i])
      modifies this`errorCode, this`errorSubject, out, out.hash, out.hash.block
      ensures StreamsValid() && (ok ==> ErrorsValid()) && (old(errorCode) != 0 ==> errorCode == old(errorCode))
      ensures PortOf(out) == Pour(old(PortOf(out)), STREAM_LIMIT, input)
      ensures ok <==> !out.failed || old(errorSubject) == 0
      ensures errorSubject == if out.failed && old(errorSubject) == 0 then SUBJECT_STDOUT else old(errorSubject)
      ensures crossed == Crosses(old(PortOf(out)), PortOf(out), STREAM_LIMIT)
    {
      var failed;
      failed, crossed := DrainEpoch(out, input);
      ok := true;
      if failed {
        ok := errorCode == 0;
        if ok {
          errorCode, errorSubject := OUTPUT_INCOMPLETE, SUBJECT_STDOUT;
        }
      }
    }

    method DrainErr(input: seq<Stream.Read>) returns (ok: bool, crossed: bool)
      requires StreamsValid() && ErrorsValid() && errorSubject != SUBJECT_STDERR
      requires forall i :: 0 <= i < |input| ==> Stream.ReadShape(input[i])
      modifies this`errorCode, this`errorSubject, err, err.hash, err.hash.block
      ensures StreamsValid() && (ok ==> ErrorsValid()) && (old(errorCode) != 0 ==> errorCode == old(errorCode))
      ensures PortOf(err) == Pour(old(PortOf(err)), STREAM_LIMIT, input)
      ensures ok <==> !err.failed || old(errorSubject) == 0
      ensures errorSubject == if err.failed && old(errorSubject) == 0 then SUBJECT_STDERR else old(errorSubject)
      ensures crossed == Crosses(old(PortOf(err)), PortOf(err), STREAM_LIMIT)
    {
      var failed;
      failed, crossed := DrainEpoch(err, input);
      ok := true;
      if failed {
        ok := errorCode == 0;
        if ok {
          errorCode, errorSubject := OUTPUT_INCOMPLETE, SUBJECT_STDERR;
        }
      }
    }

    /** The status channel: nothing but one HEAP_DENIED packet, backed by the telemetry, then the end. */
    method ReadStatus(input: seq<StatusRead>, heap: Snapshot, heapReadable: bool) returns (ok: bool, denied: bool)
      modifies this`statusEof, this`notifications
      ensures ok ==> (denied <==> notifications != old(notifications))
      ensures var h := Hear(input, old(notifications), old(statusEof),
                            heapReadable && heap.denied == 1 && heap.systemFailed == 0);
              ok == h.ok && (ok ==> notifications == h.notifications && statusEof == h.eof)
    {
      denied := false;
      var i := 0;
      ghost var confirmed := heapReadable && heap.denied == 1 && heap.systemFailed == 0;
      assert input[0..] == input;
      while i < |input|
        invariant 0 <= i <= |input|
        invariant Hear(input, old(notifications), old(statusEof), confirmed)
               == Hear(input[i..], notifications, statusEof, confirmed)
        invariant if denied then old(notifications) == 0 && notifications == 1 else notifications == old(notifications)
      {
        assert input[i..][0] == input[i] && input[i..][1..] == input[i + 1..];
        match input[i] {
          case Idle => return true, denied;
          case Closed =>
            statusEof := true;
            return true, denied;
          case Unreadable => return false, denied;
          case Got(kind) =>
            if kind != Status.HEAP_DENIED || notifications != 0 {
              return false, denied;
            }
            notifications := 1;
            if !heapReadable || heap.denied != 1 || heap.systemFailed != 0 {
              return false, denied;
            }
            denied := true;
        }
        i := i + 1;
      }
      ok := true;
    }

    method ReadOut(t: Turn) returns (ok: bool, crossed: byte)
      requires StreamsValid() && ErrorsValid() && TurnShape(t) && t.Turn?
      modifies this`errorCode, this`errorSubject, out, out.hash, out.hash.block
      ensures StreamsValid() && (ok ==> ErrorsValid()) && (old(errorCode) != 0 ==> errorCode == old(errorCode))
      ensures var p := OutStep(old(View()), t); ok == p.Some? && (ok ==> View() == p.value)
      ensures ok ==> crossed == Flag(Crosses(old(PortOf(out)), PortOf(out), STREAM_LIMIT))
    {
      ok, crossed := true, 0;
      if t.outReady && errorSubject != SUBJECT_STDOUT {
        var limit;
        ok, limit := DrainOut(t.out);
        crossed := Flag(limit);
      }
    }

    method ReadErr(t: Turn) returns (ok: bool, crossed: byte)
      requires StreamsValid() && ErrorsValid() && TurnShape(t) && t.Turn?
      modifies this`errorCode, this`errorSubject, err, err.hash, err.hash.block
      ensures StreamsValid() && (ok ==> ErrorsValid()) && (old(errorCode) != 0 ==> errorCode == old(errorCode))
      ensures var p := ErrStep(old(View()), t); ok == p.Some? && (ok ==> View() == p.value)
      ensures ok ==> crossed == Flag(Crosses(old(PortOf(err)), PortOf(err), STREAM_LIMIT))
    {
      ok, crossed := true, 0;
      if t.errReady && errorSubject != SUBJECT_STDERR {
        var limit;
        ok, limit := DrainErr(t.err);
        crossed := Flag(limit);
      }
    }

    /** The two output streams in one turn. */
    method ReadStreams(t: Turn) returns (ok: bool, e: Phase.Epoch)
      requires StreamsValid() && ErrorsValid() && TurnShape(t) && t.Turn?
      modifies this`errorCode, this`errorSubject, out, out.hash, out.hash.block, err, err.hash, err.hash.block
      ensures StreamsValid() && (ok ==> ErrorsValid())
      ensures var q := StreamsStep(old(View()), t);
              ok == q.Some? && (ok ==> View() == q.value && e == EpochOf(old(View()), View(), 0))
    {
      e := Phase.Epoch(0, 0, 0, 0, 0, Phase.Neither, 0, 0, 0, 0);
      var outCrossed, errCrossed;
      ok, outCrossed := ReadOut(t);
      if ok {
        ok, errCrossed := ReadErr(t);
      }
      if ok {
        e := e.(stdoutCrossed := outCrossed, stdoutBytes := out.observed, stderrCrossed := errCrossed,
                stderrBytes := err.observed);
      }
    }

    /** The status channel and the timer in one turn. */
    method ReadSignals(t: Turn, before: Phase.Epoch) returns (ok: bool, e: Phase.Epoch)
      requires t.Turn?
      requires before.heapDenied == before.wallExpired == before.heapPeak == before.wallLimit == 0
      modifies this`statusEof, this`notifications, this`timerConsumed
      ensures var q := SignalsStep(old(View()), t); ok == q.Some? && (ok ==> View() == q.value)
      ensures ok ==>
                var denied, fired := notifications != old(notifications), timerConsumed != old(timerConsumed);
                e == before.(heapDenied := Flag(denied), heapPeak := if denied then t.heap.peak else 0,
                             wallExpired := Flag(fired), wallLimit := if fired then WALL_TIME_MS else 0)
    {
      e := before;
      var denied;
      ok, denied := ReadStatus(t.status, t.heap, t.heapReadable);
      if !ok {
        return;
      }
      if denied {
        e := e.(heapDenied := 1, heapPeak := t.heap.peak);
      }
      if !reaped && !t.timer.TimerQuiet? {
        if t.timer.TimerBad? || timerConsumed {
          return false, e;
        }
        timerConsumed := true;
        e := e.(wallExpired := 1, wallLimit := WALL_TIME_MS);
      }
    }

    /** Everything that a turn reads. */
    method ReadAll(t: Turn) returns (ok: bool, e: Phase.Epoch)
      requires StreamsValid() && ErrorsValid() && TurnShape(t) && t.Turn?
      modifies this`statusEof, this`notifications, this`timerConsumed, this`errorCode, this`errorSubject,
               out, out.hash, out.hash.block, err, err.hash, err.hash.block
      ensures StreamsValid() && (ok ==> ErrorsValid())
      ensures Fitting(old(View()))
      ensures var q := ReadStep(old(View()), t);
              && ok == q.Some?
              && (ok ==> Fitting(q.value) && View() == q.value && e == EpochOf(old(View()), q.value, t.heap.peak))
    {
      ok, e := ReadStreams(t);
      if ok {
        ok, e := ReadSignals(t, e);
      }
    }

    /** The wait result, added to the epoch. */
    method TakeWait(e: Phase.Epoch, w: WaitRead) returns (ok: bool, epoch: Phase.Epoch)
      requires ActsTold()
      modifies this`reaped, this`wait, this`acts
      ensures ActsTold() && epoch == Reaping(e, old(View()), w)
      ensures var q := WaitStep(old(View()), w); ok == q.Some? && (ok ==> View() == q.value)
    {
      epoch := e;
      ok := true;
      if !reaped {
        if w.WaitFailed? {
          return false, epoch;
        }
        if w.Ended? {
          wait, reaped := w.status, true;
          acts := acts + [Reap];
          epoch := e.(terminal := 1, wait := w.status);
        }
      }
    }

    /** The resolution of the epoch. */
    method Resolve(epoch: Phase.Epoch) returns (ok: bool)
      requires phase.cause.kind == 0 ==> phase.next == 0
      modifies phase
      ensures var q := PhaseStep(old(View()), epoch); ok == q.Some? && (ok ==> View() == q.value)
    {
      var r := phase.ResolveEpoch(epoch);
      ok := r != Phase.Invalid && r != Phase.Ambiguous;
    }

    method KillIfDue(killWorks: bool) returns (ok: bool)
      requires ActsTold() && (errorCode == 0 <==> errorSubject == 0)
      modifies this`killSent, this`acts
      ensures ActsTold()
      ensures var q := KillStep(old(View()), killWorks); ok == q.Some? && (ok ==> View() == q.value)
    {
      if (errorCode != 0 || phase.cause.kind != 0) && !reaped && !killSent {
        if !killWorks {
          return false;
        }
        killSent := true;
        acts := acts + [Kill];
      }
      ok := true;
    }

    /** Reaping, epoch resolution and at most one kill: the second half of a turn. */
    method Settle(e: Phase.Epoch, w: WaitRead, killWorks: bool) returns (ok: bool)
      requires ActsTold() && ErrorsValid() && (phase.cause.kind == 0 ==> phase.next == 0)
      modifies this`reaped, this`wait, this`killSent, this`acts, phase
      ensures ActsTold() && ErrorsValid()
      ensures var q := SettleStep(old(View()), e, w, killWorks); ok == q.Some? && (ok ==> View() == q.value)
    {
      var epoch;
      ok, epoch := TakeWait(e, w);
      if ok {
        ok := Resolve(epoch);
      }
      if ok {
        ok := KillIfDue(killWorks);
      }
    }

    /** One turn of the poll loop: it goes where `TurnStep` says, or fails exactly if that says so. */
    method OnTurn(t: Turn) returns (ok: bool)
      requires Valid() && TurnShape(t)
      modifies this`reaped, this`statusEof, this`notifications, this`killSent, this`timerConsumed,
               this`errorCode, this`errorSubject, this`wait, this`acts,
               phase, out, out.hash, out.hash.block, err, err.hash, err.hash.block
      ensures KillOnceBeforeReap(acts)
      ensures var q := TurnStep(old(View()), t); ok == q.Some? && (ok ==> Valid() && View() == q.value)
    {
      if t.PollFailed? {
        return false;
      }
      ghost var p := View();
      TurnReads(p, t);
      ok := Advance(t);
      if ok {
        TurnKeeps(p, t);
      }
    }

    method Advance(t: Turn) returns (ok: bool)
      requires StreamsValid() && ErrorsValid() && ActsTold() && TurnShape(t) && t.Turn?
      requires phase.cause.kind == 0 ==> phase.next == 0
      modifies this`reaped, this`statusEof, this`notifications, this`killSent, this`timerConsumed,
               this`errorCode, this`errorSubject, this`wait, this`acts,
               phase, out, out.hash, out.hash.block, err, err.hash, err.hash.block
      ensures StreamsValid() && ActsTold() && (ok ==> ErrorsValid())
      ensures var q := ReadStep(old(View()), t);
              if q.None? then !ok
              else
                && Fitting(q.value)
                && var r := SettleStep(q.value, EpochOf(old(View()), q.value, t.heap.peak), t.wait, t.killWorks);
                   ok == r.Some? && (ok ==> View() == r.value)
    {
      var e;
      ok, e := ReadAll(t);
      if ok {
        ok := Settle(e, t.wait, t.killWorks);
      }
    }

    /** The poll loop, for every sequence of poll outcomes: it ends as and where `Through` says. Leaving it normally
      * means the candidate was reaped, both streams and the status channel have ended or failed, and a first cause is
      * set. Turns that run out leave it polling. */
    method Loop(turns: seq<Turn>) returns (r: LoopEnd)
      requires Valid() && View() == BEGIN
      requires forall i :: 0 <= i < |turns| ==> TurnShape(turns[i])
      modifies this`reaped, this`statusEof, this`notifications, this`killSent, this`timerConsumed,
               this`errorCode, this`errorSubject, this`wait, this`acts,
               phase, out, out.hash, out.hash.block, err, err.hash, err.hash.block
      ensures KillOnceBeforeReap(acts)
      ensures var c := Through(BEGIN, turns); r == c.end && (r != Aborted ==> Valid() && View() == c.at)
      ensures r == Left ==> Valid() && Done() && phase.cause.kind != 0 && phase.cause.sequence == 1
    {
      var i := 0;
      assert turns[0..] == turns;
      while !Done() && i < |turns|
        invariant 0 <= i <= |turns| && Valid() && KillOnceBeforeReap(acts)
        invariant Through(BEGIN, turns) == Through(View(), turns[i..])
      {
        assert turns[i..][1..] == turns[i + 1..];
        var ok := OnTurn(turns[i]);
        if !ok {
          return Aborted;
        }
        i := i + 1;
      }
      r := if Done() then Left else Polling;
    }

    /** The finality marks after the loop, and the measurements of the streams that did not fail. */
    method Measure() returns (mOut: Stream.Measurement, mErr: Stream.Measurement)
      requires StreamsValid() && ErrorsValid() && Done()
      modifies phase, out, out.hash, out.hash.block, err, err.hash, err.hash.block
      ensures phase.View() == old(phase.View()).(mask := old(phase.mask) + StreamMarks(errorSubject))
      ensures errorSubject != SUBJECT_STDOUT ==> mOut == Stream.Measured(old(out.seen), STREAM_LIMIT) && out.eof
      ensures errorSubject != SUBJECT_STDERR ==> mErr == Stream.Measured(old(err.seen), STREAM_LIMIT) && err.eof
      ensures |mOut.digest| == 32 && |mErr.digest| == 32
    {
      MarkEnded();
      mOut := MeasureStream(out, errorSubject == SUBJECT_STDOUT);
      mErr := MeasureStream(err, errorSubject == SUBJECT_STDERR);
    }

    method MarkEnded()
      modifies phase
      ensures phase.View() == old(phase.View()).(mask := old(phase.mask) + StreamMarks(errorSubject))
    {
      phase.Mark(Phase.CandidateTerminal);
      phase.Mark(Phase.ProcessTreeReaped);
      if errorSubject != SUBJECT_STDOUT {
        phase.Mark(Phase.StdoutEof);
      }
      if errorSubject != SUBJECT_STDERR {
        phase.Mark(Phase.StderrEof);
      }
    }

    /** The end of the controller: scratch inventory, then the error report or the result report. */
    method Conclude(identity: seq<byte>, token: seq<byte>, stage: seq<byte>, scratch: ScratchResult, late: LateReads)
      returns (record: Record)
      requires Valid() && Done() && ScratchShape(scratch)
      requires |identity| == 128 && |token| == 32 && |stage| == STAGE_BYTES
      modifies phase, out, out.hash, out.hash.block, err, err.hash, err.hash.block
      ensures phase.cause == old(phase.cause) && phase.cause.kind != 0
      ensures errorCode == 0 && scratch.Complete? ==> phase.mask == Phase.CONTROLLER_FINALITY && !record.ErrorRecord?
      ensures record.ResultRecord? ==>
                && errorCode == 0 && scratch.Complete? && Phase.ReportReady(phase.View())
                && Carries(record.bytes, phase.cause, Stream.Measured(old(out.seen), STREAM_LIMIT),
                           Stream.Measured(old(err.seen), STREAM_LIMIT), scratch.m)
      ensures errorCode == 0 && scratch.Complete? ==>
                (record.ResultRecord? <==>
                   && IdentityValid(identity) && !AllZero(token) && StageComplete(stage)
                   && !AllZero(Stream.Measured(old(out.seen), STREAM_LIMIT).digest)
                   && !AllZero(Stream.Measured(old(err.seen), STREAM_LIMIT).digest)
                   && Agrees(phase.cause, old(Now()), late))
      ensures record.ResultRecord? ==> ResultFor(identity, token, stage, phase.View(), record.bytes)
      ensures record.ErrorRecord? ==> ValidError(record.bytes) && ErrorFor(identity, token, stage, record.bytes)
      ensures record.ErrorRecord? <==>
                (&& IdentityValid(identity) && !AllZero(token) && StageComplete(stage)
                 && ((errorCode != 0 && scratch.Complete?) || (errorCode == 0 && scratch.Ambiguous?)))
    {
      var mOut, mErr, i := Gather(identity, token, stage, scratch);
      var p := Phase.Phase(phase.next, phase.cause, phase.mask, phase.attested, phase.authorized);
      record := Choose(i, p, old(Now()), wait, notifications, mOut, mErr, scratch, late);
    }

    /** The last marks and measurements, and the input of an error report. */
    method Gather(identity: seq<byte>, token: seq<byte>, stage: seq<byte>, scratch: ScratchResult)
      returns (mOut: Stream.Measurement, mErr: Stream.Measurement, i: ErrorInput)
      requires Valid() && Done()
      modifies phase, out, out.hash, out.hash.block, err, err.hash, err.hash.block
      ensures phase.View() == old(phase.View()).(mask := phase.mask)
      ensures errorCode == 0 && scratch.Complete? ==>
                && phase.mask == Phase.CONTROLLER_FINALITY
                && mOut == Stream.Measured(old(out.seen), STREAM_LIMIT)
                && mErr == Stream.Measured(old(err.seen), STREAM_LIMIT)
                && Ready(phase.View(), old(Now()), mOut, mErr, wait, notifications)
      ensures i.identity == identity && i.token == token && i.stage == stage && i.code == errorCode
      ensures i.terminal == 1 && i.reaped == 1 && i.statusEof == 1
      ensures if i.code == 0 then i.subject == 0 && i.outEof == 1 && i.errEof == 1
              else SubjectMatches(i.code, i.subject, i.outEof, i.errEof, 1)
    {
      mOut, mErr := Measure();
      if scratch.Complete? {
        phase.Mark(Phase.ScratchObserved);
      }
      i := ErrorInput(identity, token, stage, errorCode, errorSubject, Flag(reaped), Flag(reaped),
                      if errorSubject == SUBJECT_STDOUT then 0 else Flag(out.eof),
                      if errorSubject == SUBJECT_STDERR then 0 else Flag(err.eof), 1, Flag(statusEof));
    }
  }

  /** What is still open when the loop has been left without an error, and decides whether its result is reported: the
    * late reads work and are stable, only the limit that is the cause was reached, a limit ended in the supervisor's
    * SIGKILL or, for memory, in a failing exit, and the amounts are there. */
  predicate Agrees(c: Phase.Cause, s: Sight, late: LateReads) {
    var a := late.first;
    && late.clock && late.heap && late.first == late.second
    && a.ceiling == HEAP_BYTES && a.current <= a.peak <= a.ceiling && a.systemFailed == 0 && a.notificationFailed == 0
    && a.denied == s.notifications
    && (s.out.crossed || s.err.crossed <==> c.kind == Phase.OUTPUT_LIMIT)
    && (s.notifications == 1 <==> c.kind == Phase.MEMORY_LIMIT)
    && (c.kind == Phase.OUTPUT_LIMIT ==> s.wait == Phase.Killed(9))
    && (c.kind == Phase.WALL_TIMEOUT ==> s.wait == Phase.Killed(9) && late.metrics.wallMs >= WALL_TIME_MS)
    && (c.kind == Phase.MEMORY_LIMIT ==>
          (s.wait == Phase.Killed(9) || (s.wait.Exited? && s.wait.code != 0)) && c.value <= a.peak)
  }

  /** With a backed cause, the builder's evidence check comes down to `Agrees`. */
  lemma EvidenceExact(c: Phase.Cause, s: Sight, late: LateReads)
    requires Witnessed(c, s) && c.kind != 0 && c.sequence != 0 && s.reaped && WaitShape(s.wait) && s.notifications <= 1
    ensures var t := TerminationFromWait(s.wait, c.kind);
            Agrees(c, s, late) <==>
              && late.clock && late.heap && late.first == late.second && t.Some?
              && AllocatorShape(late.first, s.notifications, c.kind)
              && ReasonEvidence(c.kind, c, t.value, s.out, s.err, late.metrics.wallMs, late.first.peak)
  {
    if c.kind != Phase.OUTPUT_LIMIT && c.kind != Phase.MEMORY_LIMIT && c.kind != Phase.WALL_TIMEOUT {
      assert c.kind == Phase.TerminalCause(s.wait);
    }
  }

  /** The published verdict is forced by what the loop has seen: the termination it recorded, the crossings of its two
    * observers, and the denial it was notified of. */
  lemma RunForcesCause(c: Phase.Cause, s: Sight, late: LateReads)
    requires Witnessed(c, s) && c.kind != 0 && c.sequence != 0 && s.reaped && WaitShape(s.wait) && s.notifications <= 1
    requires Agrees(c, s, late)
    ensures var t := TerminationFromWait(s.wait, c.kind);
            t.Some? && ForcedReason(t.value, s.out.crossed || s.err.crossed, s.notifications == 1) == Some(c.kind)
  {
    EvidenceExact(c, s, late);
  }

  /** A measurement of a whole stream under the loop's limit. */
  predicate Whole(m: Stream.Measurement) { |m.digest| == 32 && m.limit == STREAM_LIMIT && Stream.MeasurementValid(m) }

  /** The phase and the evidence at the end of a loop without an error. */
  ghost predicate Ready(p: Phase.Phase, s: Sight, mOut: Stream.Measurement, mErr: Stream.Measurement,
                        w: Phase.WaitStatus,
                        notifications: byte) {
    && Phase.ReportReady(p) && Witnessed(p.cause, s) && Whole(mOut) && Whole(mErr)
    && s.out == OutputOf(mOut) && s.err == OutputOf(mErr)
    && s.wait == w && s.notifications == notifications <= 1 && s.reaped && WaitShape(w)
  }

  /** Which record is written, given what the loop left behind. */
  method Choose(i: ErrorInput, p: Phase.Phase, ghost s: Sight, w: Phase.WaitStatus, notifications: byte,
                mOut: Stream.Measurement, mErr: Stream.Measurement, scratch: ScratchResult, late: LateReads)
    returns (record: Record)
    requires |i.identity| == 128 && |i.token| == 32 && |i.stage| == STAGE_BYTES
    requires i.terminal == 1 && i.reaped == 1 && i.statusEof == 1
    requires if i.code == 0 then i.subject == 0 && i.outEof == 1 && i.errEof == 1
             else SubjectMatches(i.code, i.subject, i.outEof, i.errEof, 1)
    requires ScratchShape(scratch) && (i.code == 0 && scratch.Complete? ==> Ready(p, s, mOut, mErr, w, notifications))
    ensures record.ErrorRecord? <==>
              (&& IdentityValid(i.identity) && !AllZero(i.token) && StageComplete(i.stage)
               && ((i.code != 0 && scratch.Complete?) || (i.code == 0 && scratch.Ambiguous?)))
    ensures record.ErrorRecord? ==> ValidError(record.bytes) && ErrorFor(i.identity, i.token, i.stage, record.bytes)
    ensures record.ResultRecord? ==> ResultFor(i.identity, i.token, i.stage, p, record.bytes)
    ensures i.code == 0 && scratch.Complete? ==>
              (record.ResultRecord? <==>
                 && IdentityValid(i.identity) && !AllZero(i.token) && StageComplete(i.stage)
                 && !AllZero(mOut.digest) && !AllZero(mErr.digest) && Agrees(p.cause, s, late))
    ensures record.ResultRecord? ==>
              i.code == 0 && scratch.Complete? && Carries(record.bytes, p.cause, mOut, mErr, scratch.m)
  {
    match scratch {
      case Refused => record := NoRecord;
      case Ambiguous =>
        if i.code != 0 {
          record := NoRecord;
        } else {
          record := MakeError(i.(code := SCRATCH_INCOMPLETE, subject := SUBJECT_SCRATCH, scratch := 0));
        }
      case Complete(m) =>
        if i.code != 0 {
          record := MakeError(i.(scratch := m.complete));
        } else {
          record := MakeResult(i, p, s, w, notifications, mOut, mErr, m, late);
        }
    }
  }

  datatype ScratchResult = Refused | Ambiguous | Complete(m: ScratchMeasurement)

  /** What a complete inventory promises. */
  predicate ScratchShape(s: ScratchResult) {
    s.Complete? ==> ScratchOk(s.m) && s.m.limitBytes == SCRATCH_LIMIT_BYTES && s.m.limitEntries == SCRATCH_LIMIT_ENTRIES
  }

  /** The clock and the two allocator snapshots read after the loop; any of them may fail. */
  datatype LateReads = LateReads(clock: bool, metrics: Metrics, heap: bool, first: Snapshot, second: Snapshot)

  datatype Record = NoRecord | ErrorRecord(bytes: seq<byte>) | ResultRecord(bytes: seq<byte>)

  /** `termination_from_wait` */
  function TerminationFromWait(w: Phase.WaitStatus, cause: u16): Option<Termination> {
    match w
    case Exited(code) => Some(Termination(EXIT, code, U32_MAX))
    case Killed(signal) =>
      if cause == Phase.WALL_TIMEOUT || cause == Phase.MEMORY_LIMIT || cause == Phase.OUTPUT_LIMIT then
        (if signal != SIGKILL then None else Some(Termination(SUPERVISOR_KILL, U32_MAX, signal)))
      else Some(Termination(BY_SIGNAL, U32_MAX, signal))
    case Neither => None
  }

  method MakeError(i: ErrorInput) returns (record: Record)
    requires |i.identity| == 128 && |i.token| == 32 && |i.stage| == STAGE_BYTES
    ensures record.ErrorRecord? <==> ErrorAccepted(i)
    ensures record.NoRecord? || record.ErrorRecord?
    ensures record.ErrorRecord? ==> ValidError(record.bytes) && ErrorFor(i.identity, i.token, i.stage, record.bytes)
  {
    var ok, bytes := BuildError(i);
    if !ok {
      return NoRecord;
    }
    BuiltErrorValid(i);
    ErrorChecked(bytes);
    ErrorMade(i);
    record := ErrorRecord(bytes);
  }

  /** A valid result record with these measurements and this first cause. */
  ghost predicate Carries(r: seq<byte>, cause: Phase.Cause, mOut: Stream.Measurement, mErr: Stream.Measurement,
                          m: ScratchMeasurement) {
    && |r| == REPORT_BYTES && ValidResult(r) && |mOut.digest| == 32 && |mErr.digest| == 32
    && OutOf(r) == StreamBytes(mOut) && ErrOf(r) == StreamBytes(mErr)
    && ReasonOf(r) == cause.kind && VerdictCause(VerdictOf(r)) == cause && ScratchOf(r) == ScratchBytes(m)
  }

  method MakeResult(i: ErrorInput, p: Phase.Phase, ghost s: Sight, w: Phase.WaitStatus, notifications: byte,
                    mOut: Stream.Measurement, mErr: Stream.Measurement, m: ScratchMeasurement, late: LateReads)
    returns (record: Record)
    requires |i.identity| == 128 && |i.token| == 32 && |i.stage| == STAGE_BYTES
    requires Ready(p, s, mOut, mErr, w, notifications) && ScratchShape(Complete(m))
    ensures record.NoRecord? || record.ResultRecord?
    ensures record.ResultRecord? <==>
              && IdentityValid(i.identity) && !AllZero(i.token) && StageComplete(i.stage)
              && !AllZero(mOut.digest) && !AllZero(mErr.digest) && Agrees(p.cause, s, late)
    ensures record.ResultRecord? ==> Carries(record.bytes, p.cause, mOut, mErr, m)
    ensures record.ResultRecord? ==> ResultFor(i.identity, i.token, i.stage, p, record.bytes)
  {
    EvidenceExact(p.cause, s, late);
    var termination := TerminationFromWait(w, p.cause.kind);
    if !late.clock || !late.heap || late.first != late.second || termination.None? {
      return NoRecord;
    }
    record := MakeRecord(ResultInput(i.identity, i.token, p, termination.value, mOut, mErr, late.metrics, late.first, m,
                                     i.stage, 1, 1, notifications));
  }

  method MakeRecord(i: ResultInput) returns (record: Record)
    requires InputShape(i)
    ensures record.NoRecord? || record.ResultRecord?
    ensures record.ResultRecord? <==> ResultAccepted(i)
    ensures record.ResultRecord? ==> Carries(record.bytes, i.phase.cause, i.out, i.err, i.scratch)
    ensures record.ResultRecord? ==> ResultFor(i.identity, i.token, i.stage, i.phase, record.bytes)
  {
    var ok, bytes := BuildResult(i);
    if !ok {
      return NoRecord;
    }
    AcceptedSays(i);
    ResultMade(i);
    record := ResultRecord(bytes);
  }

  lemma AcceptedSays(i: ResultInput)
    requires InputShape(i) && ResultAccepted(i)
    ensures Carries(ResultReport(i), i.phase.cause, i.out, i.err, i.scratch)
  {
    BuiltResultValid(i);
    ResultChecked(ResultReport(i));
    InputSays(i);
  }

  lemma InputSays(i: ResultInput)
    requires InputShape(i)
    ensures var r := ResultReport(i);
            && OutOf(r) == StreamBytes(i.out) && ErrOf(r) == StreamBytes(i.err) && ReasonOf(r) == i.phase.cause.kind
            && VerdictCause(VerdictOf(r)) == i.phase.cause && ScratchOf(r) == ScratchBytes(i.scratch)
  {
    ReportSections(i);
    VerdictFields(i.phase.cause.kind, i.termination, i.phase.cause);
  }

  datatype LoopEnd = Aborted | Polling | Left

  function StreamMarks(subject: u16): set<Phase.Finality> {
    {Phase.CandidateTerminal, Phase.ProcessTreeReaped}
    + (if subject != SUBJECT_STDOUT then {Phase.StdoutEof} else {})
    + (if subject != SUBJECT_STDERR then {Phase.StderrEof} else {})
  }

  /** The phase while the loop runs: released, nothing marked since, at most a first cause with sequence 1. */
  ghost predicate PhaseRunning(p: Phase.Phase) {
    && p == Phase.RELEASED.(next := p.next, cause := p.cause) && Phase.Inv(p)
  }
}
