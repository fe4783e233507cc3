/** What the run model covers: its steps are what the writers do, and every record that a builder makes is published by
  * some run. */
module RunCoverage {
  import opened Bytes
  import opened Wrappers
  import opened Wire
  import opened Report
  import opened Published
  import opened RunProtocol
  import Collect
  import Phase
  import Status
  import Supervisor

  // ------------------------------------------- the writers take the steps

  /** The candidate's writer takes the step `Emit`: same bytes, same end of the descriptor, same outcome. */
  method EmitTakesStep(c: Params, s: State, w: StartedWriter, writes: bool, closes: bool)
    returns (ok: bool, ghost added: seq<byte>)
    requires ParamShape(c) && s.candidate.Preparing? && !w.emitted && w.descriptorOpen == s.holders.candidate
    modifies w
    ensures w.written == old(w.written) + added && (w.emitted <==> added != [])
    ensures var t := Step(c, s, Emit(writes, closes));
            && t.pipe == s.pipe + added && w.descriptorOpen == t.holders.candidate
            && t.candidate == if ok then Emitted else Gone
  {
    EmitIs(c, s, writes, closes);
    EmitStep(c, s, writes, closes);
    EmptySuffix(s.pipe);
    ok := w.EmitAndClose(c.identity, c.token, c.stage, writes, closes);
    added := if w.emitted then StartedBytes(c) else [];
  }

  lemma EmitStep(c: Params, s: State, writes: bool, closes: bool)
    requires ParamShape(c) && s.candidate.Preparing?
    ensures var wrote := s.holders.candidate && StartedAccepted(c.identity, c.token, c.stage) && writes;
            var t := StepEmit(c, s, writes, closes);
            && t.pipe == (if wrote then s.pipe + StartedBytes(c) else s.pipe) && !t.holders.candidate
            && t.candidate == if wrote && closes then Emitted else Gone
  {}

  lemma EmptySuffix(bytes: seq<byte>) ensures bytes + [] == bytes {}

  /** The supervisor, once the controller has ended, takes the steps `Collect` and `Publish`, or fails: the frame
    * that it writes is what these steps put on the pipe. */
  method PublishTakesSteps(c: Params, s: State, turns: seq<Supervisor.Turn>, waits: bool, closes: bool, writes: bool)
    returns (collected: bool, frame: Option<seq<byte>>)
    requires ParamShape(c) && s.supervisor.Waiting? && s.holders.supervisor && s.controller.Ended?
    ensures collected <==> Supervisor.Collects(|s.report|, turns) && waits
    ensures var t := if collected then Step(c, Step(c, s, Action.Collect), Action.Publish(closes, writes))
                     else Step(c, s, SupervisorFails);
            t.supervisor.Finished? && t.pipe == s.pipe + if frame.Some? then frame.value else []
  {
    var code := if s.controller.clean then 0 else 124;
    collected, frame := Supervisor.Publish(s.report, turns, waits, Report.Exited(code), closes, writes, c.identity,
                                           c.token);
    SupervisorSteps(c, s, closes, writes);
    if frame.Some? {
      DecodeRunExact(frame.value, DecodeRun(frame.value).value);
    }
  }

  lemma SupervisorSteps(c: Params, s: State, closes: bool, writes: bool)
    requires ParamShape(c) && s.supervisor.Waiting? && s.holders.supervisor && s.controller.Ended?
    ensures Step(c, s, SupervisorFails).supervisor.Finished? && Step(c, s, SupervisorFails).pipe == s.pipe + []
    ensures |s.report| == REPORT_BYTES ==>
              var t := Step(c, Step(c, s, Action.Collect), Action.Publish(closes, writes));
              var v := Finalize(s.report, c.identity, c.token, Report.Exited(if s.controller.clean then 0 else 124),
                                AfterCollect(closes));
              && t.supervisor.Finished?
              && (if v.Publish? && writes then
                    && KindKnown(v.kind) && 32 <= |v.payload| <= MAX_PAYLOAD_BYTES
                    && t.pipe == s.pipe + RunFrame(v.kind, v.payload)
                    && t.published == StartedThen(v.kind, v.payload)
                  else t.pipe == s.pipe + [])
  {
    EmptySuffix(s.pipe);
    if |s.report| == REPORT_BYTES {
      CollectStep(c, s);
      PublishStep(c, s.(supervisor := Collected), closes, writes);
    }
  }

  lemma CollectStep(c: Params, s: State)
    requires ParamShape(c) && s.supervisor.Waiting? && s.controller.Ended? && |s.report| == REPORT_BYTES
    ensures Step(c, s, Action.Collect) == s.(supervisor := Collected)
  {}

  lemma PublishStep(c: Params, s: State, closes: bool, writes: bool)
    requires ParamShape(c) && s.supervisor.Collected? && s.holders.supervisor && s.controller.Ended?
    ensures var t := Step(c, s, Action.Publish(closes, writes));
            var v := Allowed(c, s, closes);
            && t.supervisor.Finished?
            && (if v.Publish? && writes then
                  && KindKnown(v.kind) && 32 <= |v.payload| <= MAX_PAYLOAD_BYTES
                  && t.pipe == s.pipe + RunFrame(v.kind, v.payload) && t.published == StartedThen(v.kind, v.payload)
                else t.pipe == s.pipe)
  {
    PublishIs(c, s, closes, writes);
    if Allowed(c, s, closes).Publish? {
      Publishable(s.report, c.identity, c.token, ExitOf(s), AfterCollect(closes));
    }
  }

  // ----------------------------------------------- every record has a run

  /** Some run leads to this state. */
  ghost predicate Reachable(c: Params, s: State)
    requires ParamShape(c)
  {
    exists actions :: Run(c, actions) == s
  }

  /** Some run publishes this. */
  ghost predicate Reaches(c: Params, p: Publication)
    requires ParamShape(c)
  {
    exists s :: Reachable(c, s) && s.published == p
  }

  lemma Next(c: Params, s: State, a: Action)
    requires ParamShape(c) && Reachable(c, s)
    ensures Reachable(c, Step(c, s, a))
  {
    var actions :| Run(c, actions) == s;
    assert (actions + [a])[..|actions + [a]| - 1] == actions;
    assert Run(c, actions + [a]) == Step(c, s, a);
  }

  lemma Next3(c: Params, s: State, a: Action, b: Action, d: Action)
    requires ParamShape(c) && Reachable(c, s)
    ensures Reachable(c, Step(c, Step(c, Step(c, s, a), b), d))
  {
    Next(c, s, a);
    Next(c, Step(c, s, a), b);
    Next(c, Step(c, Step(c, s, a), b), d);
  }

  /** The controller is there, the candidate has been forked, and the controller has dropped the pipe. */
  function Forked(s: State): State {
    s.(supervisor := Waiting, controller := AwaitReady, candidate := Preparing, holders := Holders(true, false, true))
  }

  lemma ForkSteps(c: Params, s: State)
    requires ParamShape(c) && !AllZero(c.token) && StageValid(c.stage)
    requires s.supervisor.Preflight? && s.holders == Holders(true, false, false)
    ensures Step(c, Step(c, Step(c, s, CreateController), Fork), DropPipe) == Forked(s)
  {}

  lemma ReadySteps(c: Params, s: State)
    requires ParamShape(c) && s.toController == [Status.Message(Status.READY, 1)]
    requires s.controller.AwaitReady? && s.phase == Phase.INIT
    ensures Step(c, Step(c, Step(c, s, ReceiveReady), Arm), Authorize)
         == s.(controller := Authorized, toController := [], phase := Phase.RELEASED, clockArmed := true)
  {}

  lemma ReleaseSteps(c: Params, s: State)
    requires ParamShape(c) && s.toCandidate == [] && s.controller.Authorized? && s.candidate.ReadySent?
    ensures Step(c, Step(c, Step(c, s, SendRelease), ReceiveRelease), StartLua)
         == s.(controller := Looping, candidate := InLua, luaStarted := true)
  {
    assert [] + [Status.Message(Status.RELEASE, 2)] == [Status.Message(Status.RELEASE, 2)];
    var t := s.(controller := Looping, toCandidate := [Status.Message(Status.RELEASE, 2)]);
    assert Step(c, s, SendRelease) == StepController(c, s, SendRelease) == t;
    LuaSteps(c, t);
  }

  lemma LuaSteps(c: Params, s: State)
    requires ParamShape(c) && s.toCandidate == [Status.Message(Status.RELEASE, 2)] && s.candidate.ReadySent?
    ensures Step(c, Step(c, s, ReceiveRelease), StartLua)
         == s.(toCandidate := [], candidate := InLua, luaStarted := true)
  {}

  lemma LoopSteps(c: Params, s: State, e: Phase.Epoch)
    requires ParamShape(c) && s.controller.Looping? && s.candidate.InLua? && s.holders == Holders(true, false, false)
    ensures Step(c, Step(c, Step(c, s, Observe(e)), CandidateExits), Action.Reap)
         == s.(phase := Phase.EpochStep(s.phase, e), candidate := Candidate.Gone, reaped := true)
  {}

  /** STARTED is on the pipe, and READY on its way. */
  function Announced(s: State, pipe: seq<byte>): State {
    s.(pipe := pipe, holders := Holders(true, false, false), published := OnlyStarted, candidate := ReadySent,
       toController := [Status.Message(Status.READY, 1)])
  }

  lemma EmitSteps(c: Params, s: State)
    requires ParamShape(c) && StartedAccepted(c.identity, c.token, c.stage)
    requires s.candidate.Preparing? && s.holders == Holders(true, false, true) && s.toController == [] && s.pipe == []
    ensures Step(c, Step(c, s, Emit(true, true)), SendReady) == Announced(s, StartedBytes(c))
  {
    EmptyPrefix(StartedBytes(c));
    var t := s.(pipe := StartedBytes(c), holders := Holders(true, false, false), published := OnlyStarted,
                candidate := Emitted);
    EmitIs(c, s, true, true);
    assert StepEmit(c, s, true, true) == t;
    ReadyStep(c, t);
  }

  lemma ReadyStep(c: Params, s: State)
    requires ParamShape(c) && s.candidate.Emitted? && s.toController == []
    ensures Step(c, s, SendReady)
         == s.(candidate := Candidate.ReadySent, toController := [Status.Message(Status.READY, 1)])
  {
    assert [] + [Status.Message(Status.READY, 1)] == [Status.Message(Status.READY, 1)];
  }

  lemma ReportSteps(c: Params, s: State, r: seq<byte>)
    requires ParamShape(c) && s.controller.Looping? && s.reaped && s.holders == Holders(true, false, false)
    requires s.supervisor.Waiting? && Buildable(c, s.phase, r) && |r| == REPORT_BYTES
    ensures Step(c, Step(c, s, WriteReport(r, true, true)), Action.Collect)
         == s.(report := r, controller := Ended(true), supervisor := Collected)
  {}

  /** Lua runs, and nothing has been observed yet. */
  ghost function Running(c: Params): State
    requires ParamShape(c)
  {
    Announced(Forked(BEGIN), StartedBytes(c)).(
      controller := Looping, toController := [], phase := Phase.RELEASED, clockArmed := true, candidate := InLua,
      luaStarted := true)
  }

  lemma LuaReached(c: Params)
    requires ParamShape(c) && StartedAccepted(c.identity, c.token, c.stage)
    ensures Reachable(c, Running(c))
  {
    assert Run(c, []) == BEGIN;
    Next3(c, BEGIN, CreateController, Fork, DropPipe);
    ForkSteps(c, BEGIN);
    var s := Forked(BEGIN);
    Next(c, s, Emit(true, true));
    Next(c, Step(c, s, Emit(true, true)), SendReady);
    EmitSteps(c, s);
    s := Announced(s, StartedBytes(c));
    Next3(c, s, ReceiveReady, Arm, Authorize);
    ReadySteps(c, s);
    s := s.(controller := Authorized, toController := [], phase := Phase.RELEASED, clockArmed := true);
    Next3(c, s, SendRelease, ReceiveRelease, StartLua);
    ReleaseSteps(c, s);
  }

  /** Whatever a builder makes after one epoch of the loop gets published as finalization allows, whether or not the
    * supervisor can close its control descriptors. */
  lemma RecordReached(c: Params, e: Phase.Epoch, r: seq<byte>, closes: bool)
    requires ParamShape(c) && StartedAccepted(c.identity, c.token, c.stage)
    requires Buildable(c, Phase.EpochStep(Phase.RELEASED, e), r)
    requires Finalize(r, c.identity, c.token, Report.Exited(0), AfterCollect(closes)).Publish?
    ensures var v := Finalize(r, c.identity, c.token, Report.Exited(0), AfterCollect(closes));
            Reaches(c, StartedThen(v.kind, v.payload))
  {
    LuaReached(c);
    var s := Running(c);
    Next3(c, s, Observe(e), CandidateExits, Action.Reap);
    LoopSteps(c, s, e);
    s := s.(phase := Phase.EpochStep(s.phase, e), candidate := Candidate.Gone, reaped := true);
    BuildableSays(c, s.phase, r);
    Next(c, s, WriteReport(r, true, true));
    Next(c, Step(c, s, WriteReport(r, true, true)), Action.Collect);
    ReportSteps(c, s, r);
    s := s.(report := r, controller := Ended(true), supervisor := Collected);
    Next(c, s, Action.Publish(closes, true));
    PublishStep(c, s, closes, true);
  }

  // ---------------------------------------------------- results and errors

  /** A first cause that one observation can claim. */
  predicate Claimable(c: Phase.Cause) {
    && c.sequence == 1
    && match c.kind
       case 1 => c.value == 0
       case 2 => 0 < c.value <= 255
       case 3 => 0 < c.value <= 255 && c.value != Phase.SIGXCPU && c.value != Phase.SIGSYS
       case 4 => c.value > 0
       case 5 => c.value == Phase.SIGXCPU
       case 6 => c.value > 0
       case 7 => c.value > 0
       case 9 => c.value == Phase.SIGSYS
       case _ => false
  }

  const QUIET := Phase.Epoch(0, 0, 0, 0, 0, Phase.Neither, 0, 0, 0, 0)

  /** The epoch that makes just this observation. */
  function EpochFor(c: Phase.Cause): Phase.Epoch
    requires Claimable(c)
  {
    match c.kind
    case 4 => QUIET.(wallExpired := 1, wallLimit := c.value)
    case 6 => QUIET.(heapDenied := 1, heapPeak := c.value)
    case 7 => QUIET.(stdoutCrossed := 1, stdoutBytes := c.value)
    case _ =>
      QUIET.(terminal := 1,
             wait := if c.kind == 1 || c.kind == 2 then Phase.WaitStatus.Exited(c.value) else Phase.Killed(c.value))
  }

  lemma EpochClaims(c: Phase.Cause)
    requires Claimable(c)
    ensures Phase.EpochStep(Phase.RELEASED, EpochFor(c)) == Phase.RELEASED.(next := 1, cause := c)
  {
    var e := EpochFor(c);
    var i: nat := if c.kind == 7 then 0 else if c.kind == 6 then 2 else if c.kind == 4 then 3 else 4;
    assert Phase.Source(e, i) == Phase.Saw(c.kind, c.value);
    assert Phase.OneCause(e, c.kind, c.value);
    Phase.Trichotomy(e);
  }

  lemma AcceptedClaimable(i: ResultInput)
    requires InputShape(i) && ResultAccepted(i) && i.phase.cause.sequence == 1
    ensures Claimable(i.phase.cause)
  {}

  /** An accepted result is published by some run exactly if its cause is a first one: any such input that the builder
    * accepts can come up, and no other. */
  lemma ResultReached(i: ResultInput)
    requires InputShape(i) && ResultAccepted(i)
    ensures var c := Params(i.identity, i.token, i.stage);
            && ParamShape(c)
            && (Reaches(c, StartedThen(RUN_RESULT, ResultPayload(i.identity, ResultReport(i))))
                <==> i.phase.cause.sequence == 1)
  {
    var c := Params(i.identity, i.token, i.stage);
    var p := StartedThen(RUN_RESULT, ResultPayload(i.identity, ResultReport(i)));
    if i.phase.cause.sequence == 1 {
      FirstReached(i);
    }
    if Reaches(c, p) {
      BuiltCause(i);
      ReachedFirst(c, ResultReport(i));
    }
  }

  lemma FirstReached(i: ResultInput)
    requires InputShape(i) && ResultAccepted(i) && i.phase.cause.sequence == 1
    ensures var c := Params(i.identity, i.token, i.stage);
            ParamShape(c) && Reaches(c, StartedThen(RUN_RESULT, ResultPayload(i.identity, ResultReport(i))))
  {
    AcceptedClaimable(i);
    EpochClaims(i.phase.cause);
    ResultPublished(i);
    var e, r := EpochFor(i.phase.cause), ResultReport(i);
    SamePhase(i.identity, i.token, i.stage, i.phase, Phase.EpochStep(Phase.RELEASED, e), r);
    RecordReached(Params(i.identity, i.token, i.stage), e, r, true);
  }

  /** A record is made for a phase of which only cause, attestation and release matter. */
  lemma SamePhase(identity: seq<byte>, token: seq<byte>, stage: seq<byte>, p: Phase.Phase, q: Phase.Phase, r: seq<byte>)
    requires ResultFor(identity, token, stage, p, r)
    requires p.cause == q.cause && p.attested == q.attested && p.authorized == q.authorized
    ensures ResultFor(identity, token, stage, q, r)
  {
    var i := ResultSource(identity, token, stage, p, r);
    assert ResultFrom(i, identity, token, stage, q, r);
    assert MadeResult(identity, token, stage, q, r);
  }

  lemma ResultPublished(i: ResultInput)
    requires InputShape(i) && ResultAccepted(i)
    ensures ResultFor(i.identity, i.token, i.stage, i.phase, ResultReport(i)) && i.phase.attested && i.phase.authorized
    ensures ParamShape(Params(i.identity, i.token, i.stage)) && StartedAccepted(i.identity, i.token, i.stage)
    ensures Finalize(ResultReport(i), i.identity, i.token, Report.Exited(0), AfterCollect(true))
         == Verdict.Publish(RUN_RESULT, ResultPayload(i.identity, ResultReport(i)))
  {
    ResultMade(i);
    BuiltIsValid(i);
    FinalizeExact(ResultReport(i), i.identity, i.token, Report.Exited(0), AfterCollect(true));
  }

  lemma ReachedFirst(c: Params, r: seq<byte>)
    requires ParamShape(c) && |r| == REPORT_BYTES
    requires Reaches(c, StartedThen(RUN_RESULT, ResultPayload(c.identity, r)))
    ensures VerdictCause(VerdictOf(r)).sequence == 1
  {
    var s :| Reachable(c, s) && s.published == StartedThen(RUN_RESULT, ResultPayload(c.identity, r));
    var actions :| Run(c, actions) == s;
    TerminalMeansClean(c, actions);
    FirstCause(c, actions);
    PayloadSays(c.identity, r);
  }

  /** In every run a first cause has sequence 1. */
  lemma {:induction false} FirstCause(c: Params, actions: seq<Action>)
    requires ParamShape(c)
    ensures Counted(Run(c, actions).phase)
  {
    if actions != [] {
      FirstCause(c, actions[..|actions| - 1]);
      CountedStays(c, Run(c, actions[..|actions| - 1]), actions[|actions| - 1]);
    }
  }

  ghost predicate Counted(p: Phase.Phase) { if p.cause.kind == 0 then p.next == 0 else p.cause.sequence == 1 }

  lemma CountedStays(c: Params, s: State, a: Action)
    requires ParamShape(c) && Counted(s.phase)
    ensures Counted(Step(c, s, a).phase)
  {
    PhaseMoves(c, s, a);
  }

  lemma PhaseMoves(c: Params, s: State, a: Action)
    requires ParamShape(c)
    ensures var q := Step(c, s, a).phase;
            || q == s.phase || q == Phase.ReadyStep(s.phase) || q == Phase.AuthorizeStep(s.phase)
            || (a.Observe? && q == Phase.EpochStep(s.phase, a.epoch))
  {
    if a.TokenFails? || a.Emit? || a.WriteReport? || a.Publish? {
      FramesLeavePhase(c, s, a);
    } else {
      ControllerMoves(c, s, a);
    }
  }

  lemma FramesLeavePhase(c: Params, s: State, a: Action)
    requires ParamShape(c) && (a.TokenFails? || a.Emit? || a.WriteReport? || a.Publish?)
    ensures Step(c, s, a).phase == s.phase
  {}

  lemma ControllerMoves(c: Params, s: State, a: Action)
    requires ParamShape(c)
    ensures var q := StepController(c, s, a).phase;
            q == s.phase || q == Phase.ReadyStep(s.phase) || q == Phase.AuthorizeStep(s.phase)
    ensures StepSupervisor(c, s, a).phase == s.phase == StepCandidate(s, a).phase
  {}

  /** Every accepted error input is published by some run, with its code. */
  lemma ErrorReached(i: ErrorInput)
    requires |i.identity| == 128 && |i.token| == 32 && |i.stage| == STAGE_BYTES && ErrorAccepted(i)
    ensures var c := Params(i.identity, i.token, i.stage);
            && ParamShape(c)
            && Reaches(c, StartedThen(RUN_ERROR, ErrorPayload(i.identity, i.code, AT_POSTFLIGHT, i.stage)))
  {
    ErrorMade(i);
    ErrorPublished(i);
    RecordReached(Params(i.identity, i.token, i.stage), QUIET, ErrorReport(i), true);
  }
}
