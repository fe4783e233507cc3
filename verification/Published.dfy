/** The frames of a run from their writers to the launcher: STARTED as the candidate emits it, the terminal as
  * the supervisor publishes it, and what the launcher then concludes. */
module Published {
  import opened Bytes
  import opened Wrappers
  import opened Wire
  import opened Launcher
  import opened Collect
  import opened Records
  import opened Report
  import Phase

  // ------------------------------------------------------------ STARTED

  function StartedPayload(identity: seq<byte>, token: seq<byte>, stage: seq<byte>): (p: seq<byte>)
    requires |identity| == 128 && |token| == 32 && |stage| == STAGE_BYTES
    ensures |p| == STARTED_BYTES
  {
    identity + (U16(PHASE_STARTED) + U16(1)) + ([1, 1] + Zeros(2)) + token + stage
  }

  predicate StartedAccepted(identity: seq<byte>, token: seq<byte>, stage: seq<byte>)
    requires |identity| == 128 && |token| == 32 && |stage| == STAGE_BYTES
  {
    IdentityValid(identity) && !AllZero(token) && StageValid(stage)
  }

  lemma StartedParts(d: seq<byte>, k: seq<byte>, f: seq<byte>, t: seq<byte>, g: seq<byte>)
    requires |d| == 128 && |k| == 4 && |f| == 4 && |t| == 32 && |g| == 84
    ensures var p := d + k + f + t + g;
            && |p| == STARTED_BYTES && Slice(p, 0, 128) == d && Slice(p, 128, 4) == k
            && p[132] == f[0] && p[133] == f[1] && p[134] == f[2] && p[135] == f[3]
            && Slice(p, 136, 32) == t && Slice(p, STARTED_STAGE, STAGE_BYTES) == g
  {}

  lemma StartedSays(identity: seq<byte>, token: seq<byte>, stage: seq<byte>)
    requires |identity| == 128 && |token| == 32 && |stage| == STAGE_BYTES
    ensures var p := StartedPayload(identity, token, stage);
            && Slice(p, 0, 128) == identity && F16(p, 128) == PHASE_STARTED && F16(p, 130) == 1
            && p[132] == 1 && p[133] == 1 && p[134] == 0 && p[135] == 0
            && Slice(p, 136, 32) == token && Slice(p, STARTED_STAGE, STAGE_BYTES) == stage
  {
    var p := StartedPayload(identity, token, stage);
    StartedParts(identity, U16(PHASE_STARTED) + U16(1), [1, 1] + Zeros(2), token, stage);
    TwoFields(U16(PHASE_STARTED), U16(1));
    SubSlice(p, 128, 4, 0, 2);
    SubSlice(p, 128, 4, 2, 2);
  }

  lemma StartedPayloadValid(identity: seq<byte>, token: seq<byte>, stage: seq<byte>)
    requires |identity| == 128 && |token| == 32 && |stage| == STAGE_BYTES && StartedAccepted(identity, token, stage)
    ensures PayloadValid(RUN_STARTED, StartedPayload(identity, token, stage))
  {
    var p := StartedPayload(identity, token, stage);
    StartedSays(identity, token, stage);
    IdentitySlice(p, identity);
    PayloadRule(RUN_STARTED, p);
  }

  /** The candidate's end of the public pipe. */
  class StartedWriter {
    var emitted: bool
    var closed: bool
    var descriptorOpen: bool
    /** Every byte written to the pipe by this writer. */
    ghost var written: seq<byte>

    constructor ()
      ensures !emitted && !closed && descriptorOpen && written == []
    {
      emitted, closed, descriptorOpen, written := false, false, true, [];
    }

    /** `proc17_qa_phase_emit_started_and_close`: one atomic write, then the descriptor is gone, whatever happens. */
    method EmitAndClose(identity: seq<byte>, token: seq<byte>, stage: seq<byte>, writes: bool, closes: bool)
      returns (ok: bool)
      requires |identity| == 128 && |token| == 32 && |stage| == STAGE_BYTES
      modifies this
      ensures !descriptorOpen
      ensures ok <==>
                old(descriptorOpen) && !old(emitted) && StartedAccepted(identity, token, stage) && writes && closes
      ensures emitted == (old(emitted) || (old(descriptorOpen) && StartedAccepted(identity, token, stage) && writes))
      ensures written == old(written) + if emitted && !old(emitted)
                then RunFrame(RUN_STARTED, StartedPayload(identity, token, stage)) else []
      ensures ok ==> emitted && closed
    {
      if !descriptorOpen || emitted || !StartedAccepted(identity, token, stage) {
        descriptorOpen := false;
        assert written + [] == written;
        return false;
      }
      var payload := WriteStarted(identity, token, stage);
      StartedPayloadValid(identity, token, stage);
      var buffer := new byte[MAX_FRAME_BYTES];
      var _, total := Wire.EncodeInto(RUN_STARTED, payload[..32], payload, buffer);
      if !writes {
        descriptorOpen := false;
        assert written + [] == written;
        return false;
      }
      written := written + buffer[..total];
      emitted := true;
      descriptorOpen := false;
      if !closes {
        return false;
      }
      closed := true;
      ok := true;
    }
  }

  method WriteStarted(identity: seq<byte>, token: seq<byte>, stage: seq<byte>) returns (p: seq<byte>)
    requires |identity| == 128 && |token| == 32 && |stage| == STAGE_BYTES
    ensures p == StartedPayload(identity, token, stage)
  {
    var a := new byte[STARTED_BYTES](_ => 0);
    ghost var done := Put(a, 0, identity, []);
    assert done == identity;
    done := Put(a, 128, U16(PHASE_STARTED), done);
    done := Put(a, 130, U16(1), done);
    assert done == identity + (U16(PHASE_STARTED) + U16(1));
    ghost var start := done;
    done := Put(a, 132, [1, 1], done);
    BuiltGap(a[..], done, 2);
    done := done + Zeros(2);
    assert done == start + ([1, 1] + Zeros(2));
    done := Put(a, 136, token, done);
    done := Put(a, STARTED_STAGE, stage, done);
    BuiltAll(a[..], done);
    p := a[..];
  }

  // ------------------------------------------------------- end to end

  /** What finalization publishes as a RESULT after the matching STARTED, the launcher accepts, in whatever pieces
    * it arrives, provided the reported stage matches the expected source. */
  lemma PublishedAccepted(r: seq<byte>, token: seq<byte>, w: Report.Wait, o: Ending, startToken: seq<byte>,
                          e: Expectation)
    requires ExpectationValid(e) && |startToken| == 32 && !AllZero(startToken)
    requires Matches(r, e.identity, token) && ValidResult(r) && w == Report.Exited(0) && o == CLEANED
    requires |r| == REPORT_BYTES && StageMatches(StageOf(r), e)
    ensures var v := Finalize(r, e.identity, token, w, o);
            var ps := StartedPayload(e.identity, startToken, StageOf(r));
            && v.Publish? && v.kind == RUN_RESULT && |v.payload| == RESULT_BYTES
            && ContainedRun(RunFrame(RUN_STARTED, ps) + RunFrame(RUN_RESULT, v.payload), e, ps, v.payload)
            && HoldsResult(FeedAll(EMPTY, e, RunFrame(RUN_STARTED, ps) + RunFrame(RUN_RESULT, v.payload)))
  {
    var v := Finalize(r, e.identity, token, w, o);
    var ps := StartedPayload(e.identity, startToken, StageOf(r));
    FinalizeExact(r, e.identity, token, w, o);
    StartedPayloadValid(e.identity, startToken, StageOf(r));
    StartedSays(e.identity, startToken, StageOf(r));
    PayloadSays(e.identity, r);
    ContainedAccepted(e, RunFrame(RUN_STARTED, ps) + RunFrame(RUN_RESULT, v.payload), ps, v.payload);
  }

  // The verdict fields of a public result payload.
  function PublicTermination(p: seq<byte>): Termination requires |p| == RESULT_BYTES {
    VerdictTermination(Slice(p, 132, 32))
  }
  function PublicReason(p: seq<byte>): u16 requires |p| == RESULT_BYTES { VerdictReason(Slice(p, 132, 32)) }
  predicate PublicCrossed(p: seq<byte>) requires |p| == RESULT_BYTES {
    Slice(p, RESULT_STDOUT, STREAM_BYTES)[56] != 0 || Slice(p, RESULT_STDERR, STREAM_BYTES)[56] != 0
  }
  predicate PublicDenied(p: seq<byte>)
    requires |p| == RESULT_BYTES
  {
    Slice(p, RESULT_RESOURCE, RESOURCE_BYTES)[80] != 0
  }

  /** A published verdict is forced by the evidence published with it. */
  lemma PublishedVerdictForced(r: seq<byte>, identity: seq<byte>, token: seq<byte>, w: Report.Wait, o: Ending)
    requires Finalize(r, identity, token, w, o).Publish? && Finalize(r, identity, token, w, o).kind == RUN_RESULT
    ensures var p := Finalize(r, identity, token, w, o).payload;
            && |p| == RESULT_BYTES
            && ForcedReason(PublicTermination(p), PublicCrossed(p), PublicDenied(p)) == Some(PublicReason(p))
  {
    FinalizeExact(r, identity, token, w, o);
    PayloadSays(identity, r);
    ForcedOf(r);
  }

  lemma ForcedOf(r: seq<byte>)
    requires ValidResult(r)
    ensures |r| == REPORT_BYTES && ForcedReason(TerminationOf(r), CrossedIn(r), DeniedIn(r)) == Some(ReasonOf(r))
  {
    assert PrivateResultValid(r);
    VerdictForced(r);
  }

  /** The first cause, the measurements and the stage that a public result payload carries. */
  ghost predicate CarriesInput(p: seq<byte>, i: ResultInput)
    requires |p| == RESULT_BYTES && InputShape(i)
  {
    && PublicReason(p) == i.phase.cause.kind && PublicTermination(p) == i.termination
    && VerdictCause(Slice(p, 132, 32)) == i.phase.cause
    && Slice(p, RESULT_STDOUT, STREAM_BYTES) == StreamBytes(i.out)
    && Slice(p, RESULT_STDERR, STREAM_BYTES) == StreamBytes(i.err)
    && Slice(p, RESULT_RESOURCE, RESOURCE_BYTES) == ResourceBytes(i.metrics, i.allocator)
    && Slice(p, RESULT_SCRATCH, SCRATCH_BYTES) == ScratchBytes(i.scratch)
    && Slice(p, RESULT_STAGE, STAGE_BYTES) == i.stage
  }

  /** From the controller's observations to the launcher's terminal: an accepted input is built, published and
    * concluded as a RESULT that carries the first cause and every measurement of the input. */
  lemma ControllerToLauncher(i: ResultInput, startToken: seq<byte>, e: Expectation, watchdog: bool)
    requires InputShape(i) && ResultAccepted(i) && ExpectationValid(e) && e.identity == i.identity
    requires StageMatches(i.stage, e) && |startToken| == 32 && !AllZero(startToken)
    ensures var v := Finalize(ResultReport(i), e.identity, i.token, Report.Exited(0), CLEANED);
            var ps := StartedPayload(e.identity, startToken, i.stage);
            && v.Publish? && v.kind == RUN_RESULT && |v.payload| == RESULT_BYTES
            && CarriesInput(v.payload, i)
            && Concluded(e, ps, v, watchdog).Done? && Concluded(e, ps, v, watchdog).t.kind == Result
            && Concluded(e, ps, v, watchdog).t.frame == RunFrame(RUN_RESULT, v.payload)
  {
    var r := ResultReport(i);
    var v := Finalize(r, e.identity, i.token, Report.Exited(0), CLEANED);
    var ps := StartedPayload(e.identity, startToken, i.stage);
    BuiltIsValid(i);
    PublishedAccepted(r, i.token, Report.Exited(0), CLEANED, startToken, e);
    FinalizeExact(r, e.identity, i.token, Report.Exited(0), CLEANED);
    PayloadCarries(e.identity, i);
    ResultConcluded(e, ps, v, watchdog);
  }

  lemma ResultConcluded(e: Expectation, ps: seq<byte>, v: Verdict, watchdog: bool)
    requires v.Publish? && v.kind == RUN_RESULT && 32 <= |v.payload| <= MAX_PAYLOAD_BYTES && |ps| == STARTED_BYTES
    requires ContainedRun(RunFrame(RUN_STARTED, ps) + RunFrame(RUN_RESULT, v.payload), e, ps, v.payload)
    ensures Concluded(e, ps, v, watchdog).Done? && Concluded(e, ps, v, watchdog).t.kind == Result
    ensures Concluded(e, ps, v, watchdog).t.frame == RunFrame(RUN_RESULT, v.payload)
  {
    var stream := RunFrame(RUN_STARTED, ps) + RunFrame(RUN_RESULT, v.payload);
    DecideExact(e, stream, 0, 0, Collect.Exited(0), true, true, watchdog);
  }

  /** What the launcher concludes from STARTED and the published frame, the supervisor reaped after a clean exit. */
  ghost function Concluded(e: Expectation, ps: seq<byte>, v: Verdict, watchdog: bool): Collected
    requires |ps| == STARTED_BYTES && v.Publish? && KindKnown(v.kind) && 32 <= |v.payload| <= MAX_PAYLOAD_BYTES
  {
    var stream := RunFrame(RUN_STARTED, ps) + RunFrame(v.kind, v.payload);
    Decide(FeedAll(EMPTY, e, stream), 0, 0, Collect.Exited(0), true, true, watchdog)
  }

  lemma PayloadCarries(identity: seq<byte>, i: ResultInput)
    requires |identity| == 128 && InputShape(i)
    ensures CarriesInput(ResultPayload(identity, ResultReport(i)), i)
  {
    PayloadSays(identity, ResultReport(i));
    ReportSections(i);
    VerdictFields(i.phase.cause.kind, i.termination, i.phase.cause);
  }

  /** What the launcher says about a run that failed. */
  ghost predicate SaysError(c: Collected, payload: seq<byte>, code: u16, stage: u16)
    requires |payload| == ERROR_BYTES
  {
    && c.Done? && c.t.kind == Error && c.t.frame == RunFrame(RUN_ERROR, payload)
    && c.t.phase == PHASE_TERMINAL && c.t.errorClass == ERROR_AMBIGUOUS && c.t.errorCode == code
    && c.t.errorStage == stage
    && c.t.startState == TRI_TRUE && c.t.cleanupState == TRI_FALSE && c.t.attested
  }

  /** An ERROR published after STARTED is concluded as that error. */
  lemma ErrorConcluded(e: Expectation, startToken: seq<byte>, g: seq<byte>, code: u16, stage: u16, watchdog: bool)
    requires ExpectationValid(e) && |startToken| == 32 && !AllZero(startToken)
    requires |g| == STAGE_BYTES && StageMatches(g, e) && 1 <= code <= 9 && 1 <= stage <= 7
    ensures var ps, pe := StartedPayload(e.identity, startToken, g), ErrorPayload(e.identity, code, stage, g);
            && FailedRun(RunFrame(RUN_STARTED, ps) + RunFrame(RUN_ERROR, pe), e, ps, pe)
            && SaysError(Concluded(e, ps, Publish(RUN_ERROR, pe), watchdog), pe, code, stage)
  {
    var ps, pe := StartedPayload(e.identity, startToken, g), ErrorPayload(e.identity, code, stage, g);
    var stream := RunFrame(RUN_STARTED, ps) + RunFrame(RUN_ERROR, pe);
    StartedPayloadValid(e.identity, startToken, g);
    StartedSays(e.identity, startToken, g);
    ErrorPayloadValid(e.identity, code, stage, g);
    ErrorSays(e.identity, code, stage, g);
    FailedRunAccepted(e, stream, ps, pe);
    ErrorFields(e, stream, pe, Collect.Exited(0), true, true, watchdog);
  }

  /** From an accepted error input to the launcher's terminal: the report is built, published with its code, and
    * concluded as that error. */
  lemma ErrorToLauncher(i: ErrorInput, startToken: seq<byte>, e: Expectation, watchdog: bool)
    requires |i.identity| == 128 && |i.token| == 32 && |i.stage| == STAGE_BYTES && ErrorAccepted(i)
    requires ExpectationValid(e) && e.identity == i.identity && StageMatches(i.stage, e)
    requires |startToken| == 32 && !AllZero(startToken)
    ensures var v := Finalize(ErrorReport(i), e.identity, i.token, Report.Exited(0), CLEANED);
            var ps := StartedPayload(e.identity, startToken, i.stage);
            && v == Publish(RUN_ERROR, ErrorPayload(e.identity, i.code, AT_POSTFLIGHT, i.stage))
            && FailedRun(RunFrame(RUN_STARTED, ps) + RunFrame(RUN_ERROR, v.payload), e, ps, v.payload)
            && SaysError(Concluded(e, ps, v, watchdog), v.payload, i.code, AT_POSTFLIGHT)
  {
    ErrorPublished(i);
    ErrorConcluded(e, startToken, i.stage, i.code, AT_POSTFLIGHT, watchdog);
  }

  lemma ErrorPublished(i: ErrorInput)
    requires |i.identity| == 128 && |i.token| == 32 && |i.stage| == STAGE_BYTES && ErrorAccepted(i)
    ensures Finalize(ErrorReport(i), i.identity, i.token, Report.Exited(0), CLEANED)
         == Publish(RUN_ERROR, ErrorPayload(i.identity, i.code, AT_POSTFLIGHT, i.stage))
  {
    var r := ErrorReport(i);
    BuiltErrorValid(i);
    ErrorChecked(r);
    ErrorReads(i);
    HeadOfReport(r, TERMINAL_ERROR, i.identity, i.token);
    FinalizeExact(r, i.identity, i.token, Report.Exited(0), CLEANED);
  }

  /** A result whose cleanup is missing something is published, and concluded, as an incomplete cleanup. */
  lemma CutShortToLauncher(i: ResultInput, w: Report.Wait, o: Ending, startToken: seq<byte>, e: Expectation,
                           watchdog: bool)
    requires InputShape(i) && ResultAccepted(i) && CutShort(o, w)
    requires ExpectationValid(e) && e.identity == i.identity && StageMatches(i.stage, e)
    requires |startToken| == 32 && !AllZero(startToken)
    ensures var v := Finalize(ResultReport(i), e.identity, i.token, w, o);
            var ps := StartedPayload(e.identity, startToken, i.stage);
            && v == Publish(RUN_ERROR, ErrorPayload(e.identity, CLEANUP_INCOMPLETE, AT_CLEANUP, i.stage))
            && SaysError(Concluded(e, ps, v, watchdog), v.payload, CLEANUP_INCOMPLETE, AT_CLEANUP)
  {
    BuiltIsValid(i);
    OneKind(ResultReport(i));
    FinalizeExact(ResultReport(i), e.identity, i.token, w, o);
    ErrorConcluded(e, startToken, i.stage, CLEANUP_INCOMPLETE, AT_CLEANUP, watchdog);
  }

  lemma BuiltIsValid(i: ResultInput)
    requires InputShape(i) && ResultAccepted(i)
    ensures ValidResult(ResultReport(i)) && Matches(ResultReport(i), i.identity, i.token)
    ensures StageOf(ResultReport(i)) == i.stage
    ensures ReasonOf(ResultReport(i)) == i.phase.cause.kind && TerminationOf(ResultReport(i)) == i.termination
  {
    BuiltResultValid(i);
    ResultChecked(ResultReport(i));
    BuiltFields(i);
  }

  lemma BuiltFields(i: ResultInput)
    requires InputShape(i)
    ensures var r := ResultReport(i);
            && Slice(r, 16, 128) == i.identity && Slice(r, 144, 32) == i.token && StageOf(r) == i.stage
            && ReasonOf(r) == i.phase.cause.kind && TerminationOf(r) == i.termination
  {
    ReportSections(i);
    VerdictFields(i.phase.cause.kind, i.termination, i.phase.cause);
    HeadOfReport(ResultReport(i), TERMINAL_RESULT, i.identity, i.token);
  }

  lemma HeadOfReport(r: seq<byte>, kind: u16, identity: seq<byte>, token: seq<byte>)
    requires |r| == REPORT_BYTES && |identity| == 128 && |token| == 32 && HeadOf(r) == HeadBytes(kind, identity, token)
    ensures Slice(r, 16, 128) == identity && Slice(r, 144, 32) == token
  {
    Report.HeadFields(kind, identity, token);
    SubSlice(r, 0, 176, 16, 128);
    SubSlice(r, 0, 176, 144, 32);
  }
}
