/** What the launcher may conclude: the streams it accepts, its terminal decision, and its poll loop. */
module Collect {
  import opened Bytes
  import opened Wrappers
  import opened Wire
  import opened Launcher

  // --------------------------------------------------- the accepted streams

  /** How a machine that has not failed is explained by the bytes it read: an accepted STARTED frame
    * `first` if it has seen one, then the accepted terminal if it has one, then the pending bytes. */
  ghost predicate Story(m: Machine, e: Expectation, bytes: seq<byte>, first: seq<byte>) {
    !m.failed ==>
      && bytes == (if m.started then first else []) + (if m.terminated then m.terminal else []) + m.pending
      && (m.started ==> Parsed(first) == Some(StartedFrame(e.identity, m.token, m.stage)) && StageOk(m.stage, e))
      && (m.terminated ==>
            var f := Parsed(m.terminal);
            && m.pending == [] && f.Some? && !f.value.StartedFrame? && Acceptable(f.value, m.started, m.stage, e)
            && m.terminalKind == if f.value.ResultFrame? then RUN_RESULT else RUN_ERROR)
  }

  lemma {:induction false} Explain(e: Expectation, bytes: seq<byte>) returns (first: seq<byte>)
    ensures Story(FeedAll(EMPTY, e, bytes), e, bytes, first)
  {
    if bytes == [] {
      first := [];
    } else {
      var init, last := bytes[..|bytes| - 1], bytes[|bytes| - 1];
      first := Explain(e, init);
      assert bytes == init + [last];
      first := ExplainByte(FeedAll(EMPTY, e, init), e, init, first, last);
    }
  }

  lemma ExplainByte(m: Machine, e: Expectation, bytes: seq<byte>, first: seq<byte>, b: byte) returns (next: seq<byte>)
    requires Story(m, e, bytes, first)
    ensures Story(FeedByte(m, e, b), e, bytes + [b], next)
  {
    next := first;
    if !m.failed && !m.terminated {
      var n := m.(pending := m.pending + [b]);
      assert bytes + [b] == (if m.started then first else []) + [] + n.pending;
      assert Story(n, e, bytes + [b], first);
      if Settle(n, e) == Accept(n, e) {
        next := ExplainFrame(n, e, bytes + [b], first);
      }
    }
  }

  lemma ExplainFrame(m: Machine, e: Expectation, bytes: seq<byte>, first: seq<byte>) returns (next: seq<byte>)
    requires Story(m, e, bytes, first)
    ensures Story(Accept(m, e), e, bytes, next)
  {
    var f := Parsed(m.pending);
    Units(if m.started then first else [], m.pending);
    if !Allowed(m, f, e) {
      next := first;
    } else if f.value.StartedFrame? {
      next := m.pending;
    } else {
      next := first;
    }
  }

  lemma Units(x: seq<byte>, y: seq<byte>)
    ensures x + [] + y == x + y && x + y + [] == x + y
    ensures y + [] + [] == y && ([] + []) + y == y
  {}

  /** A frame fed to a machine between frames is judged as a whole. */
  lemma FeedFrame(m: Machine, e: Expectation, frame: seq<byte>)
    requires Wf(m) && !m.failed && !m.terminated && m.pending == [] && m.expected == 0
    requires Parsed(frame).Some?
    ensures FeedAll(m, e, frame) == Accept(m.(pending := frame, expected := |frame|), e)
  {
    var head, tail := frame[..16], frame[16..];
    assert frame == head + tail && [] + head == head;
    assert Slice(head, 12, 4) == Slice(frame, 12, 4);
    FeedSplit(m, e, head, tail);
    FeedPiece(m, e, head);
    var n := m.(pending := head, expected := |frame|);
    assert FeedAll(m, e, head) == n;
    FeedPiece(n, e, tail);
  }

  lemma FeedAcceptable(m: Machine, e: Expectation, frame: seq<byte>, f: Frame)
    requires Wf(m) && !m.failed && !m.terminated && m.pending == [] && m.expected == 0
    requires Parsed(frame) == Some(f) && Acceptable(f, m.started, m.stage, e)
    ensures FeedAll(m, e, frame) == Take(m.(pending := frame, expected := |frame|), Some(f), true)
  {
    FeedFrame(m, e, frame);
  }

  /** A STARTED payload the launcher accepts: valid, with the expected identity and a stage matching the source. */
  ghost predicate AcceptedStart(ps: seq<byte>, e: Expectation) {
    && PayloadValid(RUN_STARTED, ps) && |ps| == STARTED_BYTES && Slice(ps, 0, IDENTITY_BYTES) == e.identity
    && StageMatches(Slice(ps, STARTED_STAGE, STAGE_BYTES), e)
  }

  /** A valid ERROR payload with the expected identity. */
  ghost predicate ExpectedError(pe: seq<byte>, e: Expectation) {
    PayloadValid(RUN_ERROR, pe) && |pe| == ERROR_BYTES && Slice(pe, 0, IDENTITY_BYTES) == e.identity
  }

  /** A contained run: exactly one STARTED frame and one RESULT frame, both canonical encodings of valid
    * payloads, with the expected identity, a stage matching the source, and the same stage bytes. */
  ghost predicate ContainedRun(stream: seq<byte>, e: Expectation, ps: seq<byte>, pr: seq<byte>) {
    && AcceptedStart(ps, e)
    && PayloadValid(RUN_RESULT, pr) && |pr| == RESULT_BYTES && Slice(pr, 0, IDENTITY_BYTES) == e.identity
    && Slice(pr, RESULT_STAGE, STAGE_BYTES) == Slice(ps, STARTED_STAGE, STAGE_BYTES)
    && stream == RunFrame(RUN_STARTED, ps) + RunFrame(RUN_RESULT, pr)
  }

  /** A run that failed after its start: one STARTED frame and one terminal ERROR frame with the same stage. */
  ghost predicate FailedRun(stream: seq<byte>, e: Expectation, ps: seq<byte>, pe: seq<byte>) {
    && AcceptedStart(ps, e) && ExpectedError(pe, e)
    && F16(pe, 128) != PHASE_STARTED && pe[139] != 0
    && Slice(pe, ERROR_STAGE, STAGE_BYTES) == Slice(ps, STARTED_STAGE, STAGE_BYTES)
    && stream == RunFrame(RUN_STARTED, ps) + RunFrame(RUN_ERROR, pe)
  }

  /** A run that failed before its start: one ERROR frame, whose stage, if it has one, matches the source. */
  ghost predicate FailedStart(stream: seq<byte>, e: Expectation, pe: seq<byte>) {
    && ExpectedError(pe, e)
    && F16(pe, 128) == PHASE_STARTED && (pe[139] != 0 ==> StageMatches(Slice(pe, ERROR_STAGE, STAGE_BYTES), e))
    && stream == RunFrame(RUN_ERROR, pe)
  }

  /** A run of which only the start is known. */
  ghost predicate StartedRun(stream: seq<byte>, e: Expectation, ps: seq<byte>) {
    AcceptedStart(ps, e) && stream == RunFrame(RUN_STARTED, ps)
  }

  /** The machine state that makes the launcher conclude a RESULT. */
  predicate HoldsResult(m: Machine) {
    !m.failed && m.pending == [] && m.terminated && m.terminalKind == RUN_RESULT
  }

  lemma ParsedPayload(frame: seq<byte>) returns (v: View)
    requires Parsed(frame).Some?
    ensures DecodeRun(frame) == Some(v) && PayloadValid(v.kind, v.payload) && KindKnown(v.kind)
    ensures 32 <= |v.payload| <= MAX_PAYLOAD_BYTES && frame == RunFrame(v.kind, v.payload)
  {
    v := DecodeRun(frame).value;
    PayloadShape(v.kind, v.payload);
    DecodeRunExact(frame, v);
  }

  /** For every byte stream: the machine holds a RESULT exactly after a contained run. */
  lemma ResultExact(e: Expectation, stream: seq<byte>)
    ensures HoldsResult(FeedAll(EMPTY, e, stream)) <==> exists ps, pr :: ContainedRun(stream, e, ps, pr)
  {
    if HoldsResult(FeedAll(EMPTY, e, stream)) {
      var ps, pr := OnlyContained(e, stream);
    }
    forall ps, pr | ContainedRun(stream, e, ps, pr) ensures HoldsResult(FeedAll(EMPTY, e, stream)) {
      ContainedAccepted(e, stream, ps, pr);
    }
  }

  lemma OnlyContained(e: Expectation, stream: seq<byte>) returns (ps: seq<byte>, pr: seq<byte>)
    requires HoldsResult(FeedAll(EMPTY, e, stream))
    ensures ContainedRun(stream, e, ps, pr)
    ensures FeedAll(EMPTY, e, stream).terminal == RunFrame(RUN_RESULT, pr)
  {
    var m := FeedAll(EMPTY, e, stream);
    var first := Explain(e, stream);
    var v := ParsedPayload(m.terminal);
    KindOfFrame(v);
    pr := v.payload;
    ps := StartOf(e, first, m.token, m.stage);
    assert first + m.terminal + [] == first + m.terminal;
  }

  lemma KindOfFrame(v: View)
    requires PayloadValid(v.kind, v.payload)
    ensures |v.payload| >= IDENTITY_BYTES
    ensures v.kind == RUN_STARTED ==> |v.payload| == STARTED_BYTES
    ensures v.kind == RUN_RESULT ==> |v.payload| == RESULT_BYTES
    ensures v.kind == RUN_ERROR ==> |v.payload| == ERROR_BYTES
    ensures Fields(v).StartedFrame? <==> v.kind == RUN_STARTED
    ensures Fields(v).ResultFrame? <==> v.kind == RUN_RESULT
    ensures Fields(v).ErrorFrame? <==> v.kind == RUN_ERROR
  {
    PayloadShape(v.kind, v.payload);
  }

  /** The machine after an accepted STARTED. */
  function AfterStart(ps: seq<byte>): Machine requires |ps| == STARTED_BYTES {
    EMPTY.(token := Slice(ps, 136, 32), stage := Slice(ps, STARTED_STAGE, STAGE_BYTES), started := true)
  }

  lemma StartAccepted(e: Expectation, ps: seq<byte>)
    requires AcceptedStart(ps, e)
    ensures FeedAll(EMPTY, e, RunFrame(RUN_STARTED, ps)) == AfterStart(ps)
  {
    RunFrameDecodes(RUN_STARTED, ps);
    FeedAcceptable(EMPTY, e, RunFrame(RUN_STARTED, ps),
                   StartedFrame(e.identity, Slice(ps, 136, 32), Slice(ps, STARTED_STAGE, STAGE_BYTES)));
  }

  lemma ContainedAccepted(e: Expectation, stream: seq<byte>, ps: seq<byte>, pr: seq<byte>)
    requires ContainedRun(stream, e, ps, pr)
    ensures HoldsResult(FeedAll(EMPTY, e, stream)) && FeedAll(EMPTY, e, stream).started
    ensures FeedAll(EMPTY, e, stream).terminal == RunFrame(RUN_RESULT, pr)
  {
    var f := RunFrame(RUN_RESULT, pr);
    StartAccepted(e, ps);
    RunFrameDecodes(RUN_RESULT, pr);
    FeedSplit(EMPTY, e, RunFrame(RUN_STARTED, ps), f);
    TerminalAccepted(AfterStart(ps), e, f, ResultFrame(e.identity, Slice(ps, STARTED_STAGE, STAGE_BYTES)));
  }

  lemma TerminalAccepted(m: Machine, e: Expectation, f: seq<byte>, t: Frame)
    requires !m.failed && !m.terminated && m.pending == [] && m.expected == 0
    requires Parsed(f) == Some(t) && !t.StartedFrame? && Acceptable(t, m.started, m.stage, e)
    ensures var n := FeedAll(m, e, f);
            && !n.failed && n.pending == [] && n.started == m.started && n.terminated && n.terminal == f
            && n.terminalKind == if t.ResultFrame? then RUN_RESULT else RUN_ERROR
  {
    FeedAcceptable(m, e, f, t);
  }

  // ------------------------------------------------- the other outcomes

  /** The machine states that make the launcher conclude an ERROR, or nothing more than how far the run came. */
  predicate HoldsError(m: Machine) {
    !m.failed && m.pending == [] && m.terminated && m.terminalKind == RUN_ERROR
  }

  predicate HoldsNothing(m: Machine) { !m.failed && m.pending == [] && !m.terminated }

  lemma ErrorParsed(pe: seq<byte>, e: Expectation)
    requires ExpectedError(pe, e)
    ensures Parsed(RunFrame(RUN_ERROR, pe))
         == Some(ErrorFrame(e.identity, F16(pe, 128), pe[139] != 0, Slice(pe, ERROR_STAGE, STAGE_BYTES)))
  {
    RunFrameDecodes(RUN_ERROR, pe);
  }

  lemma FailedRunAccepted(e: Expectation, stream: seq<byte>, ps: seq<byte>, pe: seq<byte>)
    requires FailedRun(stream, e, ps, pe)
    ensures var m := FeedAll(EMPTY, e, stream); HoldsError(m) && m.started && m.terminal == RunFrame(RUN_ERROR, pe)
  {
    var f := RunFrame(RUN_ERROR, pe);
    StartAccepted(e, ps);
    ErrorParsed(pe, e);
    FeedSplit(EMPTY, e, RunFrame(RUN_STARTED, ps), f);
    TerminalAccepted(AfterStart(ps), e, f, Parsed(f).value);
  }

  lemma FailedStartAccepted(e: Expectation, stream: seq<byte>, pe: seq<byte>)
    requires FailedStart(stream, e, pe)
    ensures var m := FeedAll(EMPTY, e, stream); HoldsError(m) && !m.started && m.terminal == RunFrame(RUN_ERROR, pe)
  {
    ErrorParsed(pe, e);
    TerminalAccepted(EMPTY, e, stream, Parsed(stream).value);
  }

  /** What a machine that holds an ERROR has read. */
  lemma OnlyFailed(e: Expectation, stream: seq<byte>) returns (ps: seq<byte>, pe: seq<byte>)
    requires HoldsError(FeedAll(EMPTY, e, stream))
    ensures FailedRun(stream, e, ps, pe) || FailedStart(stream, e, pe)
  {
    var m := FeedAll(EMPTY, e, stream);
    var first := Explain(e, stream);
    pe := ErrorOf(m.terminal);
    ps := [];
    assert first + m.terminal + [] == first + m.terminal && [] + m.terminal + [] == m.terminal;
    if m.started {
      ps := StartOf(e, first, m.token, m.stage);
    }
  }

  lemma ErrorOf(frame: seq<byte>) returns (pe: seq<byte>)
    requires Parsed(frame).Some? && Parsed(frame).value.ErrorFrame?
    ensures PayloadValid(RUN_ERROR, pe) && |pe| == ERROR_BYTES && frame == RunFrame(RUN_ERROR, pe)
    ensures Parsed(frame).value
         == ErrorFrame(Slice(pe, 0, IDENTITY_BYTES), F16(pe, 128), pe[139] != 0, Slice(pe, ERROR_STAGE, STAGE_BYTES))
  {
    var v := ParsedPayload(frame);
    KindOfFrame(v);
    pe := v.payload;
  }

  lemma StartOf(e: Expectation, first: seq<byte>, token: seq<byte>, stage: seq<byte>) returns (ps: seq<byte>)
    requires Parsed(first) == Some(StartedFrame(e.identity, token, stage)) && StageOk(stage, e)
    ensures AcceptedStart(ps, e) && first == RunFrame(RUN_STARTED, ps) && Slice(ps, STARTED_STAGE, STAGE_BYTES) == stage
  {
    var v := ParsedPayload(first);
    KindOfFrame(v);
    ps := v.payload;
  }

  /** For every byte stream: the machine holds an ERROR exactly after a run that failed before or after its start. */
  lemma ErrorExact(e: Expectation, stream: seq<byte>)
    ensures HoldsError(FeedAll(EMPTY, e, stream))
       <==> (exists pe :: FailedStart(stream, e, pe)) || (exists ps, pe :: FailedRun(stream, e, ps, pe))
  {
    if HoldsError(FeedAll(EMPTY, e, stream)) {
      var ps, pe := OnlyFailed(e, stream);
    }
    forall pe | FailedStart(stream, e, pe) ensures HoldsError(FeedAll(EMPTY, e, stream)) {
      FailedStartAccepted(e, stream, pe);
    }
    forall ps, pe | FailedRun(stream, e, ps, pe) ensures HoldsError(FeedAll(EMPTY, e, stream)) {
      FailedRunAccepted(e, stream, ps, pe);
    }
  }

  /** And it holds no terminal, between frames, exactly after nothing at all or one accepted STARTED. */
  lemma NothingExact(e: Expectation, stream: seq<byte>)
    ensures var m := FeedAll(EMPTY, e, stream);
            && (HoldsNothing(m) && !m.started <==> stream == [])
            && (HoldsNothing(m) && m.started <==> exists ps :: StartedRun(stream, e, ps))
  {
    var m := FeedAll(EMPTY, e, stream);
    var first := Explain(e, stream);
    if HoldsNothing(m) && m.started {
      assert first + [] + [] == first;
      var ps := StartOf(e, first, m.token, m.stage);
      assert StartedRun(stream, e, ps);
    }
    forall ps | StartedRun(stream, e, ps) ensures m == AfterStart(ps) {
      StartAccepted(e, ps);
    }
  }

  // ------------------------------------------------------ the terminal

  datatype Wait = Exited(code: int) | Signaled(signal: int) | Unknown

  predicate Clean(w: Wait) { w.Exited? && w.code == 0 }

  datatype Kind = Result | Error | DerivedError

  datatype Terminal = Terminal(
    kind: Kind, frame: seq<byte>, phase: u16, errorClass: u16, errorCode: u16, errorStage: u16,
    startState: byte, cleanupState: byte, attested: bool, reapState: byte, eofState: byte, wait: Wait)

  datatype Collected = InvalidArgument | SystemFailure | TrustedInvariant | Polling | Done(t: Terminal)

  const SUPERVISOR_CRASHED: u16 := 3
  const RESULT_PIPE_LOST: u16 := 4
  const TERMINAL_FRAME_MISSING: u16 := 5
  const REAP_AMBIGUOUS: u16 := 6

  function Derived(m: Machine, cls: u16, code: u16, stage: u16, reaped: bool, eof: bool, wait: Wait): Terminal {
    Terminal(DerivedError, [], if m.started then PHASE_TERMINAL else PHASE_STARTED, cls, code, stage,
             if m.started then TRI_TRUE else TRI_FALSE, TRI_UNKNOWN, m.started,
             if reaped then TRI_TRUE else TRI_UNKNOWN, if eof then TRI_TRUE else TRI_UNKNOWN,
             if reaped then wait else Unknown)
  }

  /** The terminal of a retained frame. */
  function Handed(m: Machine, v: View, wait: Wait): Terminal
    requires |v.payload| >= 238
  {
    var p := v.payload;
    var t := Terminal(if m.terminalKind == RUN_RESULT then Result else Error, m.terminal,
                      F16(p, 128), 0, 0, 0, 0, 0, m.started, TRI_TRUE, TRI_TRUE, wait);
    if v.kind == RUN_ERROR then
      t.(errorClass := F16(p, 130), errorCode := F16(p, 132), errorStage := F16(p, 134),
         startState := p[136], cleanupState := p[137])
    else t
  }

  /** `finish_machine` */
  ghost function Finish(m: Machine, wait: Wait, reaped: bool, eof: bool, watchdog: bool): Collected {
    if m.failed || m.pending != [] || !reaped || !eof then TrustedInvariant
    else if m.terminated then
      var v := DecodeRun(m.terminal);
      if !Clean(wait) || v.None? then TrustedInvariant
      else
        PayloadShape(v.value.kind, v.value.payload);
        Done(Handed(m, v.value, wait))
    else if watchdog || !Clean(wait) then
      Done(Derived(m, ERROR_UNAVAILABLE, SUPERVISOR_CRASHED, AT_SUPERVISION, true, true, wait))
    else
      Done(Derived(m, ERROR_AMBIGUOUS, TERMINAL_FRAME_MISSING, AT_POSTFLIGHT, true, true, wait))
  }

  /** `collect_v1` after the poll loop. */
  ghost function Decide(
      m: Machine, infraCode: u16, infraStage: u16, wait: Wait, reaped: bool, eof: bool, watchdog: bool): Collected
  {
    if m.failed then TrustedInvariant
    else if infraCode != 0 then Done(Derived(m, ERROR_AMBIGUOUS, infraCode, infraStage, reaped, eof, wait))
    else Finish(m, wait, reaped, eof, watchdog)
  }

  ghost predicate ReportsResult(c: Collected) { c.Done? && c.t.kind == Result }

  /** A RESULT is reported exactly for a contained run whose supervisor was reaped after a clean exit, with
    * the end of the pipe seen and no infrastructure error; and then the RESULT frame itself is handed on. */
  lemma DecideExact(
    e: Expectation, stream: seq<byte>, infraCode: u16, infraStage: u16, wait: Wait, reaped: bool, eof: bool,
    watchdog: bool)
    ensures var c := Decide(FeedAll(EMPTY, e, stream), infraCode, infraStage, wait, reaped, eof, watchdog);
            && (ReportsResult(c) <==>
                  eof && reaped && Clean(wait) && infraCode == 0 && EndsInResult(stream, e))
            && (forall ps, pr ::
                  ReportsResult(c) && ContainedRun(stream, e, ps, pr) ==> c.t.frame == RunFrame(RUN_RESULT, pr))
  {
    var m := FeedAll(EMPTY, e, stream);
    TerminalDecodes(e, stream);
    DecideHolds(m, infraCode, infraStage, wait, reaped, eof, watchdog);
    ResultExact(e, stream);
    forall ps, pr | ContainedRun(stream, e, ps, pr) ensures m.terminal == RunFrame(RUN_RESULT, pr) {
      ContainedAccepted(e, stream, ps, pr);
    }
  }

  /** The stream of a run of which the launcher learns a terminal, or that it may complete by one of its own. */
  ghost predicate EndsInError(stream: seq<byte>, e: Expectation) {
    (exists pe :: FailedStart(stream, e, pe)) || (exists ps, pe :: FailedRun(stream, e, ps, pe))
  }

  ghost predicate EndsInResult(stream: seq<byte>, e: Expectation) { exists ps, pr :: ContainedRun(stream, e, ps, pr) }

  ghost predicate EndsEarly(stream: seq<byte>, e: Expectation)
  {
    stream == [] || exists ps :: StartedRun(stream, e, ps)
  }

  /** Every outcome of `finish_machine`, in terms of the stream: an ERROR exactly for a run that failed, a derived
    * error exactly for a run that ended early, and a broken invariant exactly in all other cases. */
  lemma OutcomeExact(e: Expectation, stream: seq<byte>, wait: Wait, reaped: bool, eof: bool, watchdog: bool)
    ensures var c := Decide(FeedAll(EMPTY, e, stream), 0, 0, wait, reaped, eof, watchdog);
            var over := eof && reaped;
            && (c.Done? && c.t.kind == Result <==> over && Clean(wait) && EndsInResult(stream, e))
            && (c.Done? && c.t.kind == Error <==> over && Clean(wait) && EndsInError(stream, e))
            && (c.Done? && c.t.kind == DerivedError <==> over && EndsEarly(stream, e))
            && (c.TrustedInvariant? <==>
                  || !over
                  || !((Clean(wait) && (EndsInResult(stream, e) || EndsInError(stream, e))) || EndsEarly(stream, e)))
  {
    var m := FeedAll(EMPTY, e, stream);
    ResultExact(e, stream);
    ErrorExact(e, stream);
    NothingExact(e, stream);
    TerminalDecodes(e, stream);
    TerminalKind(e, stream);
    FinishCases(m, wait, reaped, eof, watchdog);
  }

  lemma TerminalKind(e: Expectation, stream: seq<byte>)
    ensures var m := FeedAll(EMPTY, e, stream);
            !m.failed && m.terminated ==>
              m.pending == [] && (m.terminalKind == RUN_RESULT || m.terminalKind == RUN_ERROR)
  {
    var first := Explain(e, stream);
  }

  lemma FinishCases(m: Machine, wait: Wait, reaped: bool, eof: bool, watchdog: bool)
    requires !m.failed && m.terminated ==> DecodeRun(m.terminal).Some?
    requires !m.failed && m.terminated ==> m.terminalKind == RUN_RESULT || m.terminalKind == RUN_ERROR
    ensures var c := Decide(m, 0, 0, wait, reaped, eof, watchdog);
            var over := eof && reaped;
            && (c.Done? && c.t.kind == Result <==> over && Clean(wait) && HoldsResult(m))
            && (c.Done? && c.t.kind == Error <==> over && Clean(wait) && HoldsError(m))
            && (c.Done? && c.t.kind == DerivedError <==> over && HoldsNothing(m))
            && (c.Done? || c.TrustedInvariant?)
  {}

  /** An ERROR terminal hands on the frame and its fields. */
  lemma ErrorFields(e: Expectation, stream: seq<byte>, pe: seq<byte>, wait: Wait, reaped: bool, eof: bool,
                    watchdog: bool)
    requires ExpectedError(pe, e)
    requires var m := FeedAll(EMPTY, e, stream); HoldsError(m) && m.terminal == RunFrame(RUN_ERROR, pe)
    requires eof && reaped && Clean(wait)
    ensures var c := Decide(FeedAll(EMPTY, e, stream), 0, 0, wait, reaped, eof, watchdog);
            && c.Done? && c.t.kind == Error && c.t.frame == RunFrame(RUN_ERROR, pe)
            && c.t.phase == F16(pe, 128) && c.t.errorClass == F16(pe, 130) && c.t.errorCode == F16(pe, 132)
            && c.t.errorStage == F16(pe, 134) && c.t.startState == pe[136] && c.t.cleanupState == pe[137]
            && c.t.attested == FeedAll(EMPTY, e, stream).started
  {
    RunFrameDecodes(RUN_ERROR, pe);
  }

  /** A derived error says how far the run came, and whether the supervisor failed or just said no more. */
  lemma DerivedFields(m: Machine, wait: Wait, watchdog: bool)
    requires HoldsNothing(m)
    ensures var c := Decide(m, 0, 0, wait, true, true, watchdog);
            && c.Done? && c.t.frame == [] && c.t.attested == m.started
            && c.t.phase == (if m.started then PHASE_TERMINAL else PHASE_STARTED)
            && c.t.startState == (if m.started then TRI_TRUE else TRI_FALSE)
            && (c.t.errorCode == SUPERVISOR_CRASHED <==> watchdog || !Clean(wait))
            && (c.t.errorCode == TERMINAL_FRAME_MISSING <==> !watchdog && Clean(wait))
  {}

  /** The second decoding of the retained frame, in `finish_machine`, cannot fail. */
  lemma TerminalDecodes(e: Expectation, stream: seq<byte>)
    ensures var m := FeedAll(EMPTY, e, stream);
            !m.failed && m.terminated ==> DecodeRun(m.terminal).Some?
  {
    var first := Explain(e, stream);
  }

  lemma DecideHolds(m: Machine, infraCode: u16, infraStage: u16, wait: Wait, reaped: bool, eof: bool, watchdog: bool)
    requires !m.failed && m.terminated ==> DecodeRun(m.terminal).Some?
    ensures var c := Decide(m, infraCode, infraStage, wait, reaped, eof, watchdog);
            && (ReportsResult(c) <==> eof && reaped && Clean(wait) && infraCode == 0 && HoldsResult(m))
            && (ReportsResult(c) ==> c.t.frame == m.terminal)
  {}

  // ------------------------------------------------------- the poll loop

  datatype PipeRead = Data(bytes: seq<byte>) | Eof | Interrupted | WouldBlock | Broken
  datatype TimerRead = Quiet | Expired | BadTimer
  datatype WaitRead = NotReady | Reaped(status: Wait) | NoChild

  /** One return of `poll`: what each of the three descriptors then yields. */
  datatype Turn = PollInterrupted | PollFailed | Ready(timer: TimerRead, input: seq<PipeRead>, wait: WaitRead)

  /** What the loop has observed so far. */
  datatype Observed = Observed(
    stream: seq<byte>, eof: bool, infraCode: u16, waitDone: bool, reaped: bool, wait: Wait, watchdog: bool)

  function TimerSeen(o: Observed, timer: TimerRead): Observed { o.(watchdog := o.watchdog || timer == Expired) }

  /** The pipe is read up to its stop, unless it has ended or is lost. */
  function PipeSeen(o: Observed, input: seq<PipeRead>): Observed {
    if o.eof || o.infraCode == RESULT_PIPE_LOST then o
    else
      o.(stream := o.stream + Delivered(input), eof := Stop(input).Eof?,
         infraCode := if Stop(input).Broken? && o.infraCode == 0 then RESULT_PIPE_LOST else o.infraCode)
  }

  /** The child is waited for until it was reaped or is known to be lost. */
  function WaitSeen(o: Observed, w: WaitRead): Observed {
    if o.waitDone || w.NotReady? then o
    else if w.Reaped? then o.(wait := w.status, reaped := true, waitDone := true)
    else o.(waitDone := true, infraCode := if o.infraCode == 0 then REAP_AMBIGUOUS else o.infraCode)
  }

  const START := Observed([], false, 0, false, false, Unknown, false)

  /** The stage reported with an infrastructure code. */
  function InfraStage(code: u16): u16 {
    if code == RESULT_PIPE_LOST then AT_SUPERVISION else if code == REAP_AMBIGUOUS then AT_CLEANUP else 0
  }

  /** The child is accounted for, and the pipe has ended or is lost. */
  predicate Over(o: Observed) { o.waitDone && (o.eof || o.infraCode == RESULT_PIPE_LOST) }

  /** Failures of the loop itself; the timer is masked out once it has expired. */
  predicate Fatal(o: Observed, t: Turn) { t.PollFailed? || (t.Ready? && !o.watchdog && t.timer == BadTimer) }

  function After(o: Observed, t: Turn): Observed {
    if t.Ready? then WaitSeen(PipeSeen(TimerSeen(o, t.timer), t.input), t.wait) else o
  }

  /** Where a sequence of poll outcomes leads: the last observation, and whether a failure came first. */
  datatype Course = Course(o: Observed, fatal: bool)

  function Through(o: Observed, turns: seq<Turn>): Course
    decreases |turns|
  {
    if Over(o) || turns == [] then Course(o, false)
    else if Fatal(o, turns[0]) then Course(o, true)
    else Through(After(o, turns[0]), turns[1..])
  }

  /** The supervisor has been killed: it ran out of time, broke the protocol, or could not be observed. */
  ghost predicate Killed(o: Observed, e: Expectation) {
    o.watchdog || o.infraCode != 0 || FeedAll(EMPTY, e, o.stream).failed
  }

  class Collector {
    const e: Expectation
    const reader: Reader
    var waitDone: bool
    var reaped: bool
    var eof: bool
    var wait: Wait
    var watchdog: bool
    var killSent: bool
    var invariantFailed: bool
    var infraCode: u16
    var infraStage: u16
    /** All bytes the pipe has delivered, and all signals sent. */
    ghost var stream: seq<byte>
    ghost var kills: nat

    ghost predicate Valid()
      reads this, reader, reader.buffer
    {
      && reader.Valid() && reader.e == e && reader.State() == FeedAll(EMPTY, e, stream)
      && invariantFailed == reader.failed && (killSent <==> watchdog || infraCode != 0 || invariantFailed)
      && kills == (if killSent then 1 else 0) && infraStage == InfraStage(infraCode)
      && (reaped ==> waitDone) && (waitDone && !reaped ==> infraCode != 0)
    }

    /** What the loop has observed so far. */
    ghost function Now(): Observed
      reads this
    {
      Observed(stream, eof, infraCode, waitDone, reaped, wait, watchdog)
    }

    constructor (e: Expectation)
      ensures Valid() && this.e == e && fresh(reader) && fresh(reader.buffer)
      ensures Now() == START && kills == 0
    {
      this.e := e;
      reader := new Reader(e);
      waitDone, reaped, eof, wait, watchdog, killSent := false, false, false, Unknown, false, false;
      invariantFailed, infraCode, infraStage, stream, kills := false, 0, 0, [], 0;
    }

    /** `kill_supervisor_once` */
    method KillOnce()
      requires kills == if killSent then 1 else 0
      modifies this`killSent, this`kills
      ensures killSent && kills == 1
    {
      if !killSent {
        kills := kills + 1;
        killSent := true;
      }
    }

    /** A piece of pipe data. */
    method Receive(bytes: seq<byte>)
      requires Valid() && bytes != []
      modifies this`stream, this`invariantFailed, this`killSent, this`kills, reader, reader.buffer
      ensures Valid() && stream == old(stream) + bytes
    {
      MoreBytes(e, stream, bytes);
      stream := stream + bytes;
      if !invariantFailed {
        var fine := reader.Feed(bytes);
        assert reader.State() == FeedAll(EMPTY, e, stream);
        if !fine {
          invariantFailed := true;
          KillOnce();
        }
      }
    }

    /** The read loop after the pipe became readable: everything up to the first end, block or fault. */
    method OnReadable(input: seq<PipeRead>)
      requires Valid() && !eof
      requires forall i :: 0 <= i < |input| && input[i].Data? ==> input[i].bytes != []
      modifies this`stream, this`invariantFailed, this`killSent, this`kills, this`eof, this`infraCode, this`infraStage,
               reader, reader.buffer
      ensures Valid() && stream == old(stream) + Delivered(input)
      ensures eof <==> Stop(input).Eof?
      ensures infraCode == if Stop(input).Broken? && old(infraCode) == 0 then RESULT_PIPE_LOST else old(infraCode)
    {
      var i := 0;
      assert stream + Delivered(input[0..]) == old(stream) + Delivered(input);
      while i < |input| && (input[i].Data? || input[i].Interrupted?)
        invariant Valid() && 0 <= i <= |input| && !eof && infraCode == old(infraCode)
        invariant stream + Delivered(input[i..]) == old(stream) + Delivered(input)
        invariant Stop(input[i..]) == Stop(input)
      {
        NextRead(stream, input, i);
        if input[i].Data? {
          Receive(input[i].bytes);
        }
        i := i + 1;
      }
      assert stream + [] == stream;
      if i < |input| {
        OnStop(input[i]);
      }
    }

    /** The read that ends the loop. */
    method OnStop(r: PipeRead)
      requires Valid() && !eof && !r.Data?
      modifies this`eof, this`infraCode, this`infraStage, this`killSent, this`kills
      ensures Valid() && eof == r.Eof?
      ensures infraCode == if r.Broken? && old(infraCode) == 0 then RESULT_PIPE_LOST else old(infraCode)
    {
      if r.Eof? {
        eof := true;
      } else if r.Broken? {
        if infraCode == 0 {
          infraCode, infraStage := RESULT_PIPE_LOST, AT_SUPERVISION;
        }
        KillOnce();
      }
    }

    method OnWait(w: WaitRead)
      requires Valid() && !waitDone
      modifies this`wait, this`reaped, this`waitDone, this`infraCode, this`infraStage, this`killSent, this`kills
      ensures Valid() && waitDone == !w.NotReady? && reaped == w.Reaped?
      ensures wait == if w.Reaped? then w.status else old(wait)
      ensures infraCode == if w.NoChild? && old(infraCode) == 0 then REAP_AMBIGUOUS else old(infraCode)
    {
      match w {
        case NotReady =>
        case Reaped(status) =>
          wait, reaped, waitDone := status, true, true;
        case NoChild =>
          waitDone := true;
          if infraCode == 0 {
            infraCode, infraStage := REAP_AMBIGUOUS, AT_CLEANUP;
          }
          KillOnce();
      }
    }

    /** One turn of the poll loop; a descriptor that is masked out yields nothing. */
    method OnTurn(turn: Turn) returns (fatal: bool)
      requires Valid() && TurnShape(turn)
      modifies this, reader, reader.buffer
      ensures Valid() && (fatal <==> Fatal(old(Now()), turn))
      ensures Now() == if fatal then old(Now()) else After(old(Now()), turn)
    {
      if !turn.Ready? {
        return turn.PollFailed?;
      }
      if !watchdog && turn.timer == BadTimer {
        return true;
      }
      OnTimer(turn.timer);
      OnPipe(turn.input);
      OnChild(turn.wait);
      fatal := false;
    }

    method OnTimer(timer: TimerRead)
      requires Valid()
      modifies this`watchdog, this`killSent, this`kills
      ensures Valid() && Now() == TimerSeen(old(Now()), timer)
    {
      if !watchdog && timer == Expired {
        watchdog := true;
        KillOnce();
      }
    }

    method OnPipe(input: seq<PipeRead>)
      requires Valid()
      requires forall i :: 0 <= i < |input| && input[i].Data? ==> input[i].bytes != []
      modifies this`stream, this`invariantFailed, this`killSent, this`kills, this`eof, this`infraCode, this`infraStage,
               reader, reader.buffer
      ensures Valid() && Now() == PipeSeen(old(Now()), input)
    {
      if !eof && infraCode != RESULT_PIPE_LOST {
        OnReadable(input);
      }
    }

    method OnChild(w: WaitRead)
      requires Valid()
      modifies this`wait, this`reaped, this`waitDone, this`infraCode, this`infraStage, this`killSent, this`kills
      ensures Valid() && Now() == WaitSeen(old(Now()), w)
    {
      if !waitDone {
        OnWait(w);
      }
    }

    /** `proc17_qa_launcher_collect_v1`, for every sequence of poll outcomes: the answer, the observation it rests on
      * and the kill are what `Through` says of the turns. Turns that run out leave the loop polling. */
    method Run(watchdogSeconds: nat, setupOk: bool, turns: seq<Turn>) returns (r: Collected)
      requires Valid() && Now() == START && kills == 0
      requires forall i :: 0 <= i < |turns| ==> TurnShape(turns[i])
      modifies this, reader, reader.buffer
      ensures var valid, c := watchdogSeconds != 0 && ExpectationValid(e), Through(START, turns);
              && (r.InvalidArgument? <==> !valid)
              && (r.SystemFailure? <==> valid && (!setupOk || c.fatal))
              && (r.Polling? <==> valid && setupOk && !c.fatal && !Over(c.o))
              && kills == (if valid && (!setupOk || c.fatal || Killed(c.o, e)) then 1 else 0)
              && (valid && setupOk ==> Now() == c.o)
              && (valid && setupOk && !c.fatal && Over(c.o) ==>
                    r == Decide(FeedAll(EMPTY, e, c.o.stream), c.o.infraCode, InfraStage(c.o.infraCode), c.o.wait,
                                c.o.reaped, c.o.eof, c.o.watchdog))
              && (ReportsResult(r) <==>
                    && valid && setupOk && !c.fatal && Over(c.o)
                    && c.o.eof && c.o.reaped && Clean(c.o.wait) && c.o.infraCode == 0 && EndsInResult(c.o.stream, e))
              && (forall ps, pr ::
                    ReportsResult(r) && ContainedRun(c.o.stream, e, ps, pr) ==> r.t.frame == RunFrame(RUN_RESULT, pr))
      ensures r.Done? && r.t.kind != DerivedError ==> reaped && eof && infraCode == 0
      ensures r.Done? && !reaped ==> r.t.kind == DerivedError && r.t.reapState == TRI_UNKNOWN
    {
      if watchdogSeconds == 0 || !ExpectationValid(e) {
        return InvalidArgument;
      }
      if !setupOk {
        KillOnce();
        return SystemFailure;
      }
      var i := 0;
      while !(waitDone && (eof || infraCode == RESULT_PIPE_LOST)) && i < |turns|
        invariant Valid() && 0 <= i <= |turns| && Through(START, turns) == Through(Now(), turns[i..])
      {
        var fatal := OnTurn(turns[i]);
        if fatal {
          KillOnce();
          return SystemFailure;
        }
        i := i + 1;
      }
      if !(waitDone && (eof || infraCode == RESULT_PIPE_LOST)) {
        return Polling;
      }
      r := Conclude();
    }

    method Conclude() returns (r: Collected)
      requires Valid() && Over(Now())
      ensures r == Decide(FeedAll(EMPTY, e, stream), infraCode, InfraStage(infraCode), wait, reaped, eof, watchdog)
      ensures r.Done? || r.TrustedInvariant?
      ensures ReportsResult(r) <==>
                eof && reaped && Clean(wait) && infraCode == 0 && EndsInResult(stream, e)
      ensures forall ps, pr ::
                ReportsResult(r) && ContainedRun(stream, e, ps, pr) ==> r.t.frame == RunFrame(RUN_RESULT, pr)
      ensures r.Done? && r.t.kind != DerivedError ==> reaped && eof && infraCode == 0
      ensures r.Done? && !reaped ==> r.t.kind == DerivedError && r.t.reapState == TRI_UNKNOWN
    {
      DecideExact(e, stream, infraCode, infraStage, wait, reaped, eof, watchdog);
      if invariantFailed {
        r := TrustedInvariant;
      } else if infraCode != 0 {
        r := Done(Derived(reader.Snapshot(), ERROR_AMBIGUOUS, infraCode, infraStage, reaped, eof, wait));
      } else {
        r := FinishMachine(reader.Snapshot(), wait, reaped, eof, watchdog);
      }
    }
  }

  lemma MoreBytes(e: Expectation, stream: seq<byte>, bytes: seq<byte>)
    ensures var m := FeedAll(EMPTY, e, stream);
            && FeedAll(EMPTY, e, stream + bytes) == FeedAll(m, e, bytes)
            && (m.failed ==> FeedAll(m, e, bytes) == m)
  {
    var m := FeedAll(EMPTY, e, stream);
    FeedSplit(EMPTY, e, stream, bytes);
    if m.failed {
      FailedSticks(m, e, bytes);
    }
  }

  /** The data of a script of reads, up to the first end, block or fault. */
  function Delivered(input: seq<PipeRead>): seq<byte> {
    if input == [] then []
    else match input[0]
         case Data(bytes) => bytes + Delivered(input[1..])
         case Interrupted => Delivered(input[1..])
         case _ => []
  }

  /** What ends a script of reads; a script that runs out stands for a pipe that would block. */
  function Stop(input: seq<PipeRead>): PipeRead {
    if input == [] then WouldBlock
    else if input[0].Data? || input[0].Interrupted? then Stop(input[1..])
    else input[0]
  }

  lemma NextRead(stream: seq<byte>, input: seq<PipeRead>, i: nat)
    requires i < |input| && (input[i].Data? || input[i].Interrupted?)
    ensures input[i].Data? ==> stream + input[i].bytes + Delivered(input[i + 1..]) == stream + Delivered(input[i..])
    ensures input[i].Interrupted? ==> Delivered(input[i + 1..]) == Delivered(input[i..])
    ensures Stop(input[i + 1..]) == Stop(input[i..])
  {
    assert input[i..][1..] == input[i + 1..];
  }

  predicate TurnShape(turn: Turn) {
    turn.Ready? ==> forall i :: 0 <= i < |turn.input| && turn.input[i].Data? ==> turn.input[i].bytes != []
  }

  /** `finish_machine`, decoding the retained frame once more. */
  method FinishMachine(m: Machine, wait: Wait, reaped: bool, eof: bool, watchdog: bool) returns (c: Collected)
    ensures c == Finish(m, wait, reaped, eof, watchdog)
  {
    if m.failed || m.pending != [] || !reaped || !eof {
      return TrustedInvariant;
    }
    if !m.terminated {
      return Done(if watchdog || !Clean(wait)
                  then Derived(m, ERROR_UNAVAILABLE, SUPERVISOR_CRASHED, AT_SUPERVISION, true, true, wait)
                  else Derived(m, ERROR_AMBIGUOUS, TERMINAL_FRAME_MISSING, AT_POSTFLIGHT, true, true, wait));
    }
    var v := DecodeRunFrame(m.terminal);
    if !Clean(wait) || v.None? {
      return TrustedInvariant;
    }
    PayloadShape(v.value.kind, v.value.payload);
    c := Done(Handed(m, v.value, wait));
  }
}
