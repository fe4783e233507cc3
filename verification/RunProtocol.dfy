/** A whole run as interleaved steps of supervisor, namespace controller and candidate over the public pipe, the
  * status channel and the private report pipe. System calls may fail at every step; once it runs Lua, the
  * candidate may put anything on every channel of which it still holds a descriptor. */
module RunProtocol {
  import opened Bytes
  import opened Wrappers
  import opened Wire
  import opened Report
  import opened Published
  import Launcher
  import Collect
  import Phase
  import Status

  /** The constants of one run: the identity of the request, the token, the encoded source stage. */
  datatype Params = Params(identity: seq<byte>, token: seq<byte>, stage: seq<byte>)

  /** The identity comes from a decoded request, so it is valid. */
  predicate ParamShape(c: Params) {
    |c.identity| == 128 && |c.token| == 32 && |c.stage| == STAGE_BYTES && IdentityValid(c.identity)
  }

  datatype Candidate = Unborn | Preparing | Emitted | ReadySent | Released | InLua | Gone
  datatype Controller =
    | NotCreated | Setup | Forked | AwaitReady | Attested | Armed | Authorized | Looping | Ended(clean: bool)
  datatype Supervisor = Preflight | Waiting | Collected | Finished

  /** Which processes hold a descriptor of the public pipe. */
  datatype Holders = Holders(supervisor: bool, controller: bool, candidate: bool)

  const NOBODY := Holders(false, false, false)

  datatype State = State(
    pipe: seq<byte>, holders: Holders, toController: seq<Status.Message>, toCandidate: seq<Status.Message>,
    candidate: Candidate, luaStarted: bool,
    controller: Controller, phase: Phase.Phase, clockArmed: bool, reaped: bool, report: seq<byte>,
    supervisor: Supervisor, published: Publication)

  /** What has been put on the public pipe, by whom. */
  datatype Publication = Nothing | PreStartError | OnlyStarted | StartedThen(kind: u16, payload: seq<byte>)

  ghost const BEGIN :=
    State([], Holders(true, false, false), [], [], Unborn, false, NotCreated, Phase.INIT, false, false, [], Preflight,
          Nothing)

  // ------------------------------------------------------------ frames

  function PreErrorPayload(identity: seq<byte>): (p: seq<byte>)
    requires |identity| == 128
    ensures |p| == ERROR_BYTES
  {
    identity + (U16(PHASE_STARTED) + U16(2) + U16(1) + U16(1)) + [TRI_FALSE, TRI_TRUE, 0, 0] + Zeros(128)
  }

  lemma PreErrorParts(d: seq<byte>, ph: seq<byte>, a: seq<byte>, c: seq<byte>, st: seq<byte>, t: seq<byte>)
    requires |d| == 128 && |ph| == 2 && |a| == 2 && |c| == 2 && |st| == 2 && |t| == 4
    ensures var p := d + (ph + a + c + st) + t + Zeros(128);
            && |p| == ERROR_BYTES && Slice(p, 0, 128) == d && Slice(p, 128, 2) == ph && Slice(p, 130, 2) == a
            && Slice(p, 132, 2) == c && Slice(p, 134, 2) == st && p[136] == t[0] && p[137] == t[1] && p[138] == t[2]
            && p[139] == t[3] && AllZero(Slice(p, 140, 4)) && AllZero(Slice(p, ERROR_COST, 40))
            && AllZero(Slice(p, ERROR_STAGE, STAGE_BYTES))
  {}

  lemma PreErrorSays(identity: seq<byte>)
    requires |identity| == 128
    ensures var p := PreErrorPayload(identity);
            && Slice(p, 0, 128) == identity && F16(p, 128) == PHASE_STARTED && F16(p, 130) == 2 && F16(p, 132) == 1
            && F16(p, 134) == 1 && p[136] == TRI_FALSE && p[137] == TRI_TRUE && p[138] == 0 && p[139] == 0
            && Zero(p, 140, 4) && Zero(p, ERROR_COST, 40) && Zero(p, ERROR_STAGE, STAGE_BYTES)
  {
    PreErrorParts(identity, U16(PHASE_STARTED), U16(2), U16(1), U16(1), [TRI_FALSE, TRI_TRUE, 0, 0]);
  }

  lemma PreErrorValid(identity: seq<byte>)
    requires |identity| == 128 && IdentityValid(identity)
    ensures PayloadValid(RUN_ERROR, PreErrorPayload(identity))
  {
    var p := PreErrorPayload(identity);
    PreErrorSays(identity);
    IdentitySlice(p, identity);
    assert ErrorHeadValid(p);
    PayloadRule(RUN_ERROR, p);
  }

  ghost function PreErrorBytes(c: Params): seq<byte>
    requires ParamShape(c)
  {
    RunFrame(RUN_ERROR, PreErrorPayload(c.identity))
  }

  ghost function StartedBytes(c: Params): seq<byte> requires ParamShape(c) {
    RunFrame(RUN_STARTED, StartedPayload(c.identity, c.token, c.stage))
  }

  // ------------------------------------------------------------- steps

  datatype Action =
    | SupervisorFails | TokenFails(writes: bool) | CreateController
    | ControllerFails | Fork | DropPipe | ReceiveReady | Arm | Authorize | SendRelease
    | Observe(epoch: Phase.Epoch) | Reap | WriteReport(bytes: seq<byte>, whole: bool, closes: bool)
    | CandidateExits | Emit(writes: bool, closes: bool) | SendReady | ReceiveRelease | StartLua
    | LuaSends(m: Status.Message) | LuaWrites(bytes: seq<byte>)
    | Collect | Publish(closes: bool, writes: bool)

  /** What the controller may write: a record one of its builders made for this run, from the phase it is in
    * after its last marks. This is what `Controller.Conclude` promises of its records. */
  ghost predicate Buildable(c: Params, p: Phase.Phase, r: seq<byte>) {
    ResultFor(c.identity, c.token, c.stage, p, r) || ErrorFor(c.identity, c.token, c.stage, r)
  }

  predicate Alive(c: Candidate) { !c.Unborn? && !c.Gone? }

  /** The cleanup of the controller: a candidate is killed and waited for. */
  ghost function Fail(s: State): State {
    s.(controller := Ended(false), candidate := if s.candidate.Unborn? then Unborn else Gone,
       holders := s.holders.(controller := false, candidate := false))
  }

  /** One step; an action that is not enabled changes nothing. */
  ghost function Step(c: Params, s: State, a: Action): State
    requires ParamShape(c)
  {
    match a
    case SupervisorFails => StepSupervisor(c, s, a)
    case CreateController => StepSupervisor(c, s, a)
    case Collect => StepSupervisor(c, s, a)
    case TokenFails(writes) => StepToken(c, s, writes)
    case Publish(closes, writes) => StepPublish(c, s, closes, writes)
    case Emit(writes, closes) => StepEmit(c, s, writes, closes)
    case SendReady => StepCandidate(s, a)
    case ReceiveRelease => StepCandidate(s, a)
    case StartLua => StepCandidate(s, a)
    case LuaSends(_) => StepCandidate(s, a)
    case LuaWrites(bytes) => StepLuaWrites(s, bytes)
    case CandidateExits => StepCandidate(s, a)
    case Observe(epoch) => StepObserve(s, epoch)
    case WriteReport(bytes, whole, closes) => StepReport(c, s, bytes, whole, closes)
    case _ => StepController(c, s, a)
  }

  ghost function StepSupervisor(c: Params, s: State, a: Action): State
    requires ParamShape(c)
  {
    match a
    case SupervisorFails => Finish(s)
    case CreateController =>
      if s.supervisor.Preflight? && !AllZero(c.token) then
        s.(supervisor := Waiting, controller := Setup, holders := s.holders.(controller := true))
      else s
    case Collect =>
      if !s.supervisor.Waiting? || !s.controller.Ended? then s
      else if |s.report| == REPORT_BYTES then s.(supervisor := Collected)
      else Finish(s)
    case _ => s
  }

  /** The supervisor closes its descriptor of the pipe, whatever else happens. */
  ghost function Finish(s: State): State { s.(supervisor := Finished, holders := s.holders.(supervisor := false)) }

  /** The supervisor could not make a token: no controller is created. */
  ghost function StepToken(c: Params, s: State, writes: bool): State
    requires ParamShape(c)
  {
    if !s.supervisor.Preflight? then s
    else if writes && s.holders.supervisor then
      Finish(s).(pipe := s.pipe + PreErrorBytes(c), published := PreStartError)
    else Finish(s)
  }

  ghost function StepController(c: Params, s: State, a: Action): State
    requires ParamShape(c)
  {
    match a
    case ControllerFails => if s.controller.NotCreated? || s.controller.Ended? then s else Fail(s)
    case Fork =>
      if s.controller.Setup? && StageValid(c.stage) then
        s.(controller := Forked, candidate := Preparing,
           holders := s.holders.(candidate := s.holders.controller))
      else s
    case DropPipe =>
      if s.controller.Forked? then s.(controller := AwaitReady, holders := s.holders.(controller := false)) else s
    case ReceiveReady =>
      if !s.controller.AwaitReady? || s.toController == [] then s
      else if s.toController[0] == Status.Message(Status.READY, 1) && Phase.ReadyAccepted(s.phase) then
        s.(controller := Attested, phase := Phase.ReadyStep(s.phase), toController := s.toController[1..])
      else Fail(s)
    case Arm => if s.controller.Attested? then s.(controller := Armed, clockArmed := true) else s
    case Authorize =>
      if !s.controller.Armed? then s
      else if s.phase.attested && !s.phase.authorized then
        s.(controller := Authorized, phase := Phase.AuthorizeStep(s.phase))
      else Fail(s)
    case SendRelease =>
      if s.controller.Authorized? then
        s.(controller := Looping, toCandidate := s.toCandidate + [Status.Message(Status.RELEASE, 2)])
      else s
    case Reap => if s.controller.Looping? && s.candidate.Gone? then s.(reaped := true) else s
    case _ => s
  }

  ghost function StepObserve(s: State, epoch: Phase.Epoch): State {
    if s.controller.Looping? then s.(phase := Phase.EpochStep(s.phase, epoch)) else s
  }

  ghost function StepCandidate(s: State, a: Action): State {
    match a
    case SendReady =>
      if s.candidate.Emitted? then
        s.(candidate := ReadySent, toController := s.toController + [Status.Message(Status.READY, 1)])
      else s
    case ReceiveRelease =>
      if s.candidate.ReadySent? && s.toCandidate != [] then
        s.(candidate := if s.toCandidate[0] == Status.Message(Status.RELEASE, 2) then Released else Gone,
           holders := if s.toCandidate[0] == Status.Message(Status.RELEASE, 2) then s.holders
                      else s.holders.(candidate := false),
           toCandidate := s.toCandidate[1..])
      else s
    case StartLua => if s.candidate.Released? then s.(candidate := InLua, luaStarted := true) else s
    case LuaSends(m) => if s.candidate.InLua? then s.(toController := s.toController + [m]) else s
    case CandidateExits =>
      if Alive(s.candidate) then s.(candidate := Gone, holders := s.holders.(candidate := false)) else s
    case _ => s
  }

  /** The candidate's Lua writes whatever it likes to the public pipe, if it still can. */
  ghost function StepLuaWrites(s: State, bytes: seq<byte>): State {
    if s.candidate.InLua? && s.holders.candidate then s.(pipe := s.pipe + bytes) else s
  }

  /** `proc17_qa_phase_emit_started_and_close`, seen from outside: the descriptor is closed on every path. */
  ghost function StepEmit(c: Params, s: State, writes: bool, closes: bool): State
    requires ParamShape(c)
  {
    var t := s.(holders := s.holders.(candidate := false));
    if !s.candidate.Preparing? then s
    else if s.holders.candidate && StartedAccepted(c.identity, c.token, c.stage) && writes then
      t.(pipe := s.pipe + StartedBytes(c), published := OnlyStarted, candidate := if closes then Emitted else Gone)
    else t.(candidate := Gone)
  }

  /** A record of which only a part got written. */
  function Torn(bytes: seq<byte>): (t: seq<byte>) ensures |t| < REPORT_BYTES { bytes[..Min(|bytes|, REPORT_BYTES - 1)] }

  /** After the candidate was reaped, the report is written, perhaps only in part, its pipe is closed, and the
    * controller ends: cleanly only after both succeeded. */
  ghost function StepReport(c: Params, s: State, bytes: seq<byte>, whole: bool, closes: bool): State
    requires ParamShape(c)
  {
    if s.controller.Looping? && s.reaped && Buildable(c, s.phase, bytes) then
      s.(report := if whole then bytes else Torn(bytes), controller := Ended(whole && closes),
         holders := s.holders.(controller := false))
    else s
  }

  lemma Publishable(r: seq<byte>, identity: seq<byte>, token: seq<byte>, w: Report.Wait, o: Ending)
    requires Finalize(r, identity, token, w, o).Publish?
    ensures var v := Finalize(r, identity, token, w, o);
            PayloadValid(v.kind, v.payload) && KindKnown(v.kind) && 32 <= |v.payload| <= MAX_PAYLOAD_BYTES
  {
    FinalizeExact(r, identity, token, w, o);
    var v := Finalize(r, identity, token, w, o);
    PayloadShape(v.kind, v.payload);
  }

  /** The supervisor has the whole record and has reaped the controller; closing its descriptors may fail. */
  ghost function StepPublish(c: Params, s: State, closes: bool, writes: bool): State
    requires ParamShape(c)
  {
    if !s.supervisor.Collected? || !s.controller.Ended? then s
    else
      var v := Allowed(c, s, closes);
      if v.Publish? && writes && s.holders.supervisor then
        Publishable(s.report, c.identity, c.token, ExitOf(s), AfterCollect(closes));
        Finish(s).(pipe := s.pipe + RunFrame(v.kind, v.payload), published := StartedThen(v.kind, v.payload))
      else Finish(s)
  }

  ghost function ExitOf(s: State): Report.Wait
    requires s.controller.Ended?
  {
    Report.Exited(if s.controller.clean then 0 else 124)
  }

  /** What finalization allows to be published now. */
  ghost function Allowed(c: Params, s: State, closes: bool): Verdict
    requires ParamShape(c) && s.controller.Ended?
  {
    Finalize(s.report, c.identity, c.token, ExitOf(s), AfterCollect(closes))
  }

  ghost function Run(c: Params, actions: seq<Action>): State
    requires ParamShape(c)
  {
    if actions == [] then BEGIN else Step(c, Run(c, actions[..|actions| - 1]), actions[|actions| - 1])
  }

  // ------------------------------------------------------- invariants

  predicate Started(s: State) { s.published.OnlyStarted? || s.published.StartedThen? }

  /** A terminal frame that fits the STARTED frame before it. */
  ghost predicate TerminalFits(c: Params, kind: u16, p: seq<byte>) requires ParamShape(c) {
    && PayloadValid(kind, p) && |p| >= 128 && p[..128] == c.identity
    && (kind == RUN_RESULT || kind == RUN_ERROR)
    && (kind == RUN_RESULT ==> |p| == RESULT_BYTES && Slice(p, RESULT_STAGE, STAGE_BYTES) == c.stage)
    && (kind == RUN_ERROR ==>
          && |p| == ERROR_BYTES && F16(p, 128) == PHASE_TERMINAL && p[139] == 1
          && Slice(p, ERROR_STAGE, STAGE_BYTES) == c.stage)
  }

  ghost predicate PipeShape(c: Params, pipe: seq<byte>, published: Publication) requires ParamShape(c) {
    match published
    case Nothing => pipe == []
    case PreStartError => pipe == PreErrorBytes(c)
    case OnlyStarted => pipe == StartedBytes(c) && StartedAccepted(c.identity, c.token, c.stage)
    case StartedThen(kind, p) =>
      && StartedAccepted(c.identity, c.token, c.stage) && TerminalFits(c, kind, p)
      && KindKnown(kind) && 32 <= |p| <= MAX_PAYLOAD_BYTES
      && pipe == StartedBytes(c) + RunFrame(kind, p)
  }

  /** How far each process is tells what is on the pipe. */
  ghost predicate Order(s: State) {
    && (s.supervisor.Preflight? ==> s.controller.NotCreated? && s.published.Nothing?)
    && (s.controller.NotCreated? ==>
          && s.candidate.Unborn? && s.toController == [] && s.toCandidate == [] && s.report == []
          && !s.phase.attested && !s.phase.authorized
          && !Started(s))
    && (s.controller.Setup? ==> s.candidate.Unborn?)
    && (s.reaped ==> s.candidate.Gone?)
    && (s.published.PreStartError? ==> s.controller.NotCreated? && s.supervisor.Finished?)
    && (s.candidate.Unborn? || s.candidate.Preparing? ==> !Started(s) && s.toController == [])
    && (Alive(s.candidate) && !s.candidate.Preparing? ==> Started(s))
    && (s.toController != [] ==> Started(s))
    && (s.published.StartedThen? ==> s.candidate.Gone? && s.supervisor.Finished? && |s.report| == REPORT_BYTES)
  }

  /** Who can still write to the pipe: the candidate only before it has emitted STARTED, the controller only until
    * it has forked, the supervisor until it ends. */
  ghost predicate Holding(s: State) {
    && (s.holders.candidate ==> s.candidate.Preparing?)
    && (s.holders.controller ==> s.controller.Setup? || s.controller.Forked?)
    && (s.holders.supervisor <==> !s.supervisor.Finished?)
  }

  /** READY accepted, clock armed, release authorised, in this order, and only then RELEASE and Lua. */
  ghost predicate Release(s: State) {
    && (s.phase.attested ==> Started(s))
    && (s.controller.Setup? || s.controller.Forked? || s.controller.AwaitReady? ==> !s.phase.attested)
    && (s.controller.Attested? || s.clockArmed || s.phase.authorized ==> s.phase.attested)
    && (s.controller.Armed? || s.phase.authorized ==> s.clockArmed)
    && (s.controller.Authorized? || s.controller.Looping? ==> s.phase.authorized)
    && (s.toCandidate != [] || s.candidate.Released? || s.candidate.InLua? || s.luaStarted ==> s.phase.authorized)
  }

  ghost predicate Reporting(c: Params, s: State) requires ParamShape(c) {
    && (s.report != [] ==> s.candidate.Gone? && s.controller.Ended? && s.phase.authorized)
    && (|s.report| == REPORT_BYTES ==> StageOf(s.report) == c.stage)
    && (|s.report| == REPORT_BYTES && ValidResult(s.report) ==>
          s.phase.cause.kind != 0 && VerdictCause(VerdictOf(s.report)) == s.phase.cause)
    && (s.supervisor.Collected? ==> s.controller.Ended? && |s.report| == REPORT_BYTES)
  }

  /** A terminal is on the pipe only because finalization allowed it for a whole record and a clean controller. */
  ghost predicate Finality(c: Params, s: State) requires ParamShape(c) {
    s.published.StartedThen? ==>
      && s.controller == Ended(true) && |s.report| == REPORT_BYTES
      && exists closes :: Allowed(c, s, closes) == Verdict.Publish(s.published.kind, s.published.payload)
  }

  ghost predicate Inv(c: Params, s: State) requires ParamShape(c) {
    PipeShape(c, s.pipe, s.published) && Order(s) && Holding(s) && Release(s) && Reporting(c, s)
    && Finality(c, s)
  }

  lemma BuildableSays(c: Params, p: Phase.Phase, r: seq<byte>)
    requires ParamShape(c) && Buildable(c, p, r)
    ensures |r| == REPORT_BYTES && StageOf(r) == c.stage
    ensures ValidResult(r) ==> p.cause.kind != 0 && VerdictCause(VerdictOf(r)) == p.cause
  {
    if ResultFor(c.identity, c.token, c.stage, p, r) {
      ResultForSays(c, p, r);
    } else {
      ErrorForSays(c, r);
    }
  }

  lemma ResultForSays(c: Params, p: Phase.Phase, r: seq<byte>)
    requires ResultFor(c.identity, c.token, c.stage, p, r)
    ensures |r| == REPORT_BYTES && StageOf(r) == c.stage
    ensures p.cause.kind != 0 && VerdictCause(VerdictOf(r)) == p.cause
  {
    var i := ResultSource(c.identity, c.token, c.stage, p, r);
    BuiltFields(i);
    BuiltCause(i);
  }

  lemma ErrorForSays(c: Params, r: seq<byte>)
    requires ErrorFor(c.identity, c.token, c.stage, r)
    ensures |r| == REPORT_BYTES && StageOf(r) == c.stage && !ValidResult(r)
  {
    var i := ErrorSource(c.identity, c.token, c.stage, r);
    ErrorReads(i);
    ErrorOnly(i);
  }

  lemma BuiltCause(i: ResultInput)
    requires InputShape(i) && ResultAccepted(i)
    ensures var r := ResultReport(i); VerdictCause(VerdictOf(r)) == i.phase.cause && i.phase.cause.kind != 0
  {
    ReportSections(i);
    VerdictFields(i.phase.cause.kind, i.termination, i.phase.cause);
  }

  lemma ErrorOnly(i: ErrorInput)
    requires |i.identity| == 128 && |i.token| == 32 && |i.stage| == STAGE_BYTES && ErrorAccepted(i)
    ensures !ValidResult(ErrorReport(i))
  {
    BuiltErrorValid(i);
    ErrorChecked(ErrorReport(i));
    OneKind(ErrorReport(i));
  }

  lemma PublishFits(c: Params, r: seq<byte>, w: Report.Wait, o: Ending)
    requires ParamShape(c) && |r| == REPORT_BYTES && StageOf(r) == c.stage
    requires Finalize(r, c.identity, c.token, w, o).Publish?
    ensures var v := Finalize(r, c.identity, c.token, w, o); TerminalFits(c, v.kind, v.payload)
  {
    var v := Finalize(r, c.identity, c.token, w, o);
    FinalizeExact(r, c.identity, c.token, w, o);
    PayloadShape(v.kind, v.payload);
    if v.kind == RUN_RESULT {
      PayloadSays(c.identity, r);
    } else if ValidError(r) {
      ErrorSays(c.identity, F16(r, 176), AT_POSTFLIGHT, StageOf(r));
    } else {
      ErrorSays(c.identity, CLEANUP_INCOMPLETE, AT_CLEANUP, StageOf(r));
    }
  }

  /** After an unclean exit nothing may be published, not even about a whole record. */
  lemma UncleanRefused(r: seq<byte>, identity: seq<byte>, token: seq<byte>, closes: bool)
    ensures Finalize(r, identity, token, Report.Exited(124), AfterCollect(closes)) == Refused
  {}

  lemma PublishKeeps(c: Params, s: State, closes: bool, writes: bool)
    requires ParamShape(c) && Inv(c, s)
    ensures Inv(c, StepPublish(c, s, closes, writes))
  {
    PublishOrder(c, s, closes, writes);
    if s.supervisor.Collected? && s.controller.Ended? && Allowed(c, s, closes).Publish? && writes {
      PublishPipe(c, s, closes, writes);
      PublishFinality(c, s, closes, writes);
    } else {
      FinalityKept(c, s, StepPublish(c, s, closes, writes));
    }
  }

  lemma PublishOrder(c: Params, s: State, closes: bool, writes: bool)
    requires ParamShape(c) && Order(s) && Holding(s) && Release(s) && Reporting(c, s)
    ensures var t := StepPublish(c, s, closes, writes);
            && Order(t) && Holding(t) && Release(t) && Reporting(c, t)
            && t.report == s.report && t.controller == s.controller
            && ((s.supervisor.Collected? && s.controller.Ended? && Allowed(c, s, closes).Publish? && writes)
                || (t.pipe == s.pipe && t.published == s.published))
  {}

  lemma PublishFinality(c: Params, s: State, closes: bool, writes: bool)
    requires ParamShape(c) && Holding(s) && Reporting(c, s)
    requires s.supervisor.Collected? && s.controller.Ended? && Allowed(c, s, closes).Publish? && writes
    ensures Finality(c, StepPublish(c, s, closes, writes))
  {
    UncleanRefused(s.report, c.identity, c.token, closes);
    assert Allowed(c, StepPublish(c, s, closes, writes), closes) == Allowed(c, s, closes);
  }

  lemma PublishPipe(c: Params, s: State, closes: bool, writes: bool)
    requires ParamShape(c) && PipeShape(c, s.pipe, s.published)
    requires Order(s) && Holding(s) && Release(s) && Reporting(c, s)
    requires s.supervisor.Collected? && s.controller.Ended? && Allowed(c, s, closes).Publish? && writes
    ensures var t := StepPublish(c, s, closes, writes); PipeShape(c, t.pipe, t.published)
  {
    PublishFits(c, s.report, ExitOf(s), AfterCollect(closes));
    Publishable(s.report, c.identity, c.token, ExitOf(s), AfterCollect(closes));
  }

  lemma ReportKeeps(c: Params, s: State, bytes: seq<byte>, whole: bool, closes: bool)
    requires ParamShape(c) && Inv(c, s)
    ensures Inv(c, StepReport(c, s, bytes, whole, closes))
  {
    var t := StepReport(c, s, bytes, whole, closes);
    if t != s {
      BuildableSays(c, s.phase, bytes);
      assert t.pipe == s.pipe && t.published == s.published;
      FinalityKept(c, s, t);
    }
  }

  lemma EmitKeeps(c: Params, s: State, writes: bool, closes: bool)
    requires ParamShape(c) && Inv(c, s)
    ensures Inv(c, StepEmit(c, s, writes, closes))
  {
    EmitOrder(c, s, writes, closes);
    EmptyPrefix(StartedBytes(c));
  }

  lemma EmitOrder(c: Params, s: State, writes: bool, closes: bool)
    requires ParamShape(c) && Order(s) && Holding(s) && Release(s) && Reporting(c, s)
    ensures var t := StepEmit(c, s, writes, closes);
            && Order(t) && Holding(t) && Release(t) && Reporting(c, t)
            && (t == s || (!s.published.StartedThen? && !t.published.StartedThen?))
            && (t.published == s.published ==> t.pipe == s.pipe)
            && (t.published != s.published ==>
                  t.published.OnlyStarted? && s.candidate.Preparing? && t.pipe == s.pipe + StartedBytes(c)
                  && StartedAccepted(c.identity, c.token, c.stage) && !Started(s) && !s.published.PreStartError?)
  {}

  lemma EmptyPrefix(frame: seq<byte>) ensures [] + frame == frame {}

  lemma TokenKeeps(c: Params, s: State, writes: bool)
    requires ParamShape(c) && Inv(c, s)
    ensures Inv(c, StepToken(c, s, writes))
  {
    TokenOrder(c, s, writes);
    EmptyPrefix(PreErrorBytes(c));
  }

  lemma TokenOrder(c: Params, s: State, writes: bool)
    requires ParamShape(c) && Order(s) && Holding(s) && Release(s) && Reporting(c, s)
    ensures var t := StepToken(c, s, writes);
            && Order(t) && Holding(t) && Release(t) && Reporting(c, t)
            && (t == s || (s.published.Nothing? && !t.published.StartedThen?))
            && (t.published == s.published ==> t.pipe == s.pipe)
            && (t.published != s.published ==> t.published.PreStartError? && t.pipe == s.pipe + PreErrorBytes(c))
  {}

  lemma ObserveKeeps(c: Params, s: State, e: Phase.Epoch)
    requires ParamShape(c) && Inv(c, s)
    ensures Inv(c, StepObserve(s, e))
  {
    EpochKeepsFlags(s.phase, e);
    FinalityKept(c, s, StepObserve(s, e));
  }

  lemma EpochKeepsFlags(p: Phase.Phase, e: Phase.Epoch)
    ensures var q := Phase.EpochStep(p, e);
            q.attested == p.attested && q.authorized == p.authorized && (p.cause.kind != 0 ==> q.cause == p.cause)
  {}

  /** A published terminal stays explained while record and controller stay as they are. */
  lemma FinalityKept(c: Params, s: State, t: State)
    requires ParamShape(c) && Finality(c, s) && t.published == s.published
    requires s.published.StartedThen? ==> t.report == s.report && t.controller == s.controller
    ensures Finality(c, t)
  {
    if s.published.StartedThen? {
      var closes :| Allowed(c, s, closes) == Verdict.Publish(s.published.kind, s.published.payload);
      assert Allowed(c, t, closes) == Allowed(c, s, closes);
    }
  }

  lemma SupervisorKeeps(c: Params, s: State, a: Action)
    requires ParamShape(c) && Inv(c, s)
    ensures Inv(c, StepSupervisor(c, s, a))
  {
    SupervisorOrder(c, s, a);
    SupervisorReporting(c, s, a);
    FinalityKept(c, s, StepSupervisor(c, s, a));
  }

  lemma SupervisorOrder(c: Params, s: State, a: Action)
    requires ParamShape(c) && Order(s) && Holding(s) && Release(s)
    ensures var t := StepSupervisor(c, s, a); Order(t) && Holding(t) && Release(t)
  {}

  lemma SupervisorReporting(c: Params, s: State, a: Action)
    requires ParamShape(c) && Order(s) && Reporting(c, s)
    ensures var t := StepSupervisor(c, s, a);
            && Reporting(c, t) && t.pipe == s.pipe && t.published == s.published && t.report == s.report
            && (s.published.StartedThen? ==> t.controller == s.controller)
  {}

  lemma ControllerKeeps(c: Params, s: State, a: Action)
    requires ParamShape(c) && Inv(c, s)
    ensures Inv(c, StepController(c, s, a))
  {
    ControllerOrder(c, s, a);
    ControllerHolding(c, s, a);
    ControllerRelease(c, s, a);
    ControllerReporting(c, s, a);
    FinalityKept(c, s, StepController(c, s, a));
  }

  lemma ControllerOrder(c: Params, s: State, a: Action)
    requires ParamShape(c) && Order(s)
    ensures Order(StepController(c, s, a))
  {}

  lemma ControllerHolding(c: Params, s: State, a: Action)
    requires ParamShape(c) && Order(s) && Holding(s)
    ensures Holding(StepController(c, s, a))
  {}

  lemma ControllerRelease(c: Params, s: State, a: Action)
    requires ParamShape(c) && Order(s) && Release(s)
    ensures Release(StepController(c, s, a))
  {}

  lemma ControllerReporting(c: Params, s: State, a: Action)
    requires ParamShape(c) && Reporting(c, s) && Order(s)
    ensures Reporting(c, StepController(c, s, a))
    ensures var t := StepController(c, s, a); t.pipe == s.pipe && t.published == s.published && t.report == s.report
    ensures s.controller.Ended? ==> StepController(c, s, a) == s
  {}

  lemma CandidateKeeps(c: Params, s: State, a: Action)
    requires ParamShape(c) && Inv(c, s)
    ensures Inv(c, StepCandidate(s, a))
  {
    CandidateOrder(s, a);
    CandidateReporting(c, s, a);
    FinalityKept(c, s, StepCandidate(s, a));
  }

  lemma CandidateOrder(s: State, a: Action)
    requires Order(s) && Holding(s) && Release(s)
    ensures var t := StepCandidate(s, a); Order(t) && Holding(t) && Release(t)
  {}

  lemma CandidateReporting(c: Params, s: State, a: Action)
    requires ParamShape(c) && Reporting(c, s) && Order(s)
    ensures Reporting(c, StepCandidate(s, a))
    ensures var t := StepCandidate(s, a); t.pipe == s.pipe && t.published == s.published && t.report == s.report
    ensures StepCandidate(s, a).controller == s.controller
  {}

  lemma StepKeeps(c: Params, s: State, a: Action)
    requires ParamShape(c) && Inv(c, s)
    ensures Inv(c, Step(c, s, a))
  {
    match a {
      case TokenFails(writes) => TokenCase(c, s, writes);
      case Emit(writes, closes) => EmitCase(c, s, writes, closes);
      case WriteReport(bytes, whole, closes) => ReportCase(c, s, bytes, whole, closes);
      case Publish(closes, writes) => PublishCase(c, s, closes, writes);
      case Observe(epoch) => ObserveCase(c, s, epoch);
      case LuaWrites(bytes) => LuaCase(c, s, bytes);
      case _ => OtherKeeps(c, s, a);
    }
  }

  /** Lua holds no descriptor of the public pipe, so its writes go nowhere. */
  lemma LuaIsOut(c: Params, s: State, bytes: seq<byte>)
    requires ParamShape(c) && Inv(c, s)
    ensures StepLuaWrites(s, bytes) == s && (s.candidate.InLua? ==> !s.holders.candidate)
  {}

  lemma TokenCase(c: Params, s: State, writes: bool)
    requires ParamShape(c) && Inv(c, s)
    ensures Inv(c, Step(c, s, TokenFails(writes)))
  {
    TokenKeeps(c, s, writes);
    TokenIs(c, s, writes);
  }

  lemma TokenIs(c: Params, s: State, writes: bool)
    requires ParamShape(c)
    ensures Step(c, s, TokenFails(writes)) == StepToken(c, s, writes)
  {}

  lemma EmitCase(c: Params, s: State, writes: bool, closes: bool)
    requires ParamShape(c) && Inv(c, s)
    ensures Inv(c, Step(c, s, Emit(writes, closes)))
  {
    EmitKeeps(c, s, writes, closes);
    EmitIs(c, s, writes, closes);
  }

  lemma EmitIs(c: Params, s: State, writes: bool, closes: bool)
    requires ParamShape(c)
    ensures Step(c, s, Emit(writes, closes)) == StepEmit(c, s, writes, closes)
  {}

  lemma ReportCase(c: Params, s: State, bytes: seq<byte>, whole: bool, closes: bool)
    requires ParamShape(c) && Inv(c, s)
    ensures Inv(c, Step(c, s, WriteReport(bytes, whole, closes)))
  {
    ReportKeeps(c, s, bytes, whole, closes);
    ReportIs(c, s, bytes, whole, closes);
  }

  lemma ReportIs(c: Params, s: State, bytes: seq<byte>, whole: bool, closes: bool)
    requires ParamShape(c)
    ensures Step(c, s, WriteReport(bytes, whole, closes)) == StepReport(c, s, bytes, whole, closes)
  {}

  lemma PublishCase(c: Params, s: State, closes: bool, writes: bool)
    requires ParamShape(c) && Inv(c, s)
    ensures Inv(c, Step(c, s, Action.Publish(closes, writes)))
  {
    PublishKeeps(c, s, closes, writes);
    PublishIs(c, s, closes, writes);
  }

  lemma PublishIs(c: Params, s: State, closes: bool, writes: bool)
    requires ParamShape(c)
    ensures Step(c, s, Action.Publish(closes, writes)) == StepPublish(c, s, closes, writes)
  {}

  lemma OtherKeeps(c: Params, s: State, a: Action)
    requires ParamShape(c) && Inv(c, s) && !a.TokenFails? && !a.Emit? && !a.WriteReport? && !a.Publish?
    requires !a.Observe? && !a.LuaWrites?
    ensures Inv(c, Step(c, s, a))
  {
    ProcessKeeps(c, s, a);
  }

  lemma ObserveCase(c: Params, s: State, epoch: Phase.Epoch)
    requires ParamShape(c) && Inv(c, s)
    ensures Inv(c, Step(c, s, Observe(epoch)))
  {
    ObserveKeeps(c, s, epoch);
    ObserveIs(c, s, epoch);
  }

  lemma ObserveIs(c: Params, s: State, epoch: Phase.Epoch)
    requires ParamShape(c)
    ensures Step(c, s, Observe(epoch)) == StepObserve(s, epoch)
  {}

  lemma LuaCase(c: Params, s: State, bytes: seq<byte>)
    requires ParamShape(c) && Inv(c, s)
    ensures Inv(c, Step(c, s, LuaWrites(bytes)))
  {
    LuaIsOut(c, s, bytes);
    LuaIs(c, s, bytes);
  }

  lemma LuaIs(c: Params, s: State, bytes: seq<byte>)
    requires ParamShape(c)
    ensures Step(c, s, LuaWrites(bytes)) == StepLuaWrites(s, bytes)
  {}

  lemma ProcessKeeps(c: Params, s: State, a: Action)
    requires ParamShape(c) && Inv(c, s)
    ensures Inv(c, StepSupervisor(c, s, a)) && Inv(c, StepController(c, s, a)) && Inv(c, StepCandidate(s, a))
  {
    SupervisorKeeps(c, s, a);
    ControllerKeeps(c, s, a);
    CandidateKeeps(c, s, a);
  }

  lemma {:induction false} RunInv(c: Params, actions: seq<Action>)
    requires ParamShape(c)
    ensures Inv(c, Run(c, actions))
  {
    if actions != [] {
      RunInv(c, actions[..|actions| - 1]);
      StepKeeps(c, Run(c, actions[..|actions| - 1]), actions[|actions| - 1]);
    }
  }

  // ------------------------------------------------------- main results

  /** In every interleaving the public pipe holds nothing, one pre-start ERROR, one STARTED, or STARTED and one
    * terminal frame. */
  lemma PipeLanguage(c: Params, actions: seq<Action>)
    requires ParamShape(c)
    ensures var pipe := Run(c, actions).pipe;
            || pipe == []
            || pipe == PreErrorBytes(c)
            || pipe == StartedBytes(c)
            || exists kind, p :: TerminalFits(c, kind, p) && KindKnown(kind) && 32 <= |p| <= MAX_PAYLOAD_BYTES
                                 && pipe == StartedBytes(c) + RunFrame(kind, p)
  {
    RunInv(c, actions);
  }

  /** Candidate Lua runs only after STARTED was written, READY accepted, the clock armed and the release
    * authorised. */
  lemma LuaOnlyAfterRelease(c: Params, actions: seq<Action>)
    requires ParamShape(c) && Run(c, actions).luaStarted
    ensures var s := Run(c, actions);
            Started(s) && s.phase.attested && s.clockArmed && s.phase.authorized
  {
    RunInv(c, actions);
  }

  /** While candidate Lua runs, only the supervisor can still write to the public pipe. */
  lemma LuaHoldsNoPipe(c: Params, actions: seq<Action>)
    requires ParamShape(c) && Run(c, actions).candidate.InLua?
    ensures !Run(c, actions).holders.candidate && !Run(c, actions).holders.controller
  {
    RunHolding(c, actions);
  }

  lemma RunHolding(c: Params, actions: seq<Action>)
    requires ParamShape(c)
    ensures Holding(Run(c, actions)) && Release(Run(c, actions))
  {
    RunInv(c, actions);
  }

  /** Once no process holds the pipe, which is when the launcher reads its end, it never changes again. */
  lemma {:induction false} EndIsFinal(c: Params, actions: seq<Action>, i: nat)
    requires ParamShape(c) && i <= |actions| && Run(c, actions[..i]).holders == NOBODY
    ensures Run(c, actions).pipe == Run(c, actions[..i]).pipe && Run(c, actions).holders == NOBODY
    decreases |actions|
  {
    if i == |actions| {
      assert actions[..i] == actions;
    } else {
      var init := actions[..|actions| - 1];
      assert init[..i] == actions[..i];
      EndIsFinal(c, init, i);
      RunHolding(c, init);
      NoHolderNoChange(c, Run(c, init), actions[|actions| - 1]);
    }
  }

  lemma NoHolderNoChange(c: Params, s: State, a: Action)
    requires ParamShape(c) && Holding(s) && s.holders == NOBODY
    ensures Step(c, s, a).pipe == s.pipe && Step(c, s, a).holders == NOBODY
  {
    if a.TokenFails? || a.Emit? || a.WriteReport? || a.Publish? {
      NoHolderNoWrite(c, s, a);
    } else {
      NoHolderElse(c, s, a);
    }
  }

  lemma NoHolderElse(c: Params, s: State, a: Action)
    requires ParamShape(c) && Holding(s) && s.holders == NOBODY
    ensures StepSupervisor(c, s, a).pipe == s.pipe && StepSupervisor(c, s, a).holders == NOBODY
    ensures StepController(c, s, a).pipe == s.pipe && StepController(c, s, a).holders == NOBODY
    ensures StepCandidate(s, a).pipe == s.pipe && StepCandidate(s, a).holders == NOBODY
  {}

  lemma NoHolderNoWrite(c: Params, s: State, a: Action)
    requires ParamShape(c) && Holding(s) && s.holders == NOBODY
    requires a.TokenFails? || a.Emit? || a.WriteReport? || a.Publish?
    ensures Step(c, s, a).pipe == s.pipe && Step(c, s, a).holders == NOBODY
  {}

  /** The launcher, fed the public pipe of any run whose stage matches the expected source, never fails, is always
    * between frames, and holds a terminal exactly when one was published: a RESULT exactly for a RESULT. */
  lemma LauncherFollows(c: Params, actions: seq<Action>, e: Launcher.Expectation)
    requires ParamShape(c) && e.identity == c.identity && Launcher.StageMatches(c.stage, e)
    ensures var s := Run(c, actions);
            var m := Launcher.FeedAll(Launcher.EMPTY, e, s.pipe);
            && !m.failed && m.pending == [] && m.started == Started(s)
            && (m.terminated <==> s.published.PreStartError? || s.published.StartedThen?)
            && (Collect.HoldsResult(m) <==> s.published.StartedThen? && s.published.kind == RUN_RESULT)
  {
    RunInv(c, actions);
    var s := Run(c, actions);
    match s.published {
      case Nothing =>
      case PreStartError => FeedPreError(c, e);
      case OnlyStarted => FeedStarted(c, e);
      case StartedThen(kind, p) => FeedTerminal(c, e, kind, p);
    }
  }

  lemma FeedPreError(c: Params, e: Launcher.Expectation)
    requires ParamShape(c) && e.identity == c.identity
    ensures Collect.FailedStart(PreErrorBytes(c), e, PreErrorPayload(c.identity))
    ensures var m := Launcher.FeedAll(Launcher.EMPTY, e, PreErrorBytes(c)); Collect.HoldsError(m) && !m.started
  {
    PreErrorValid(c.identity);
    PreErrorSays(c.identity);
    Collect.FailedStartAccepted(e, PreErrorBytes(c), PreErrorPayload(c.identity));
  }

  lemma FeedStarted(c: Params, e: Launcher.Expectation)
    requires ParamShape(c) && e.identity == c.identity && Launcher.StageMatches(c.stage, e)
    requires StartedAccepted(c.identity, c.token, c.stage)
    ensures Collect.AcceptedStart(StartedPayload(c.identity, c.token, c.stage), e)
    ensures var m := Launcher.FeedAll(Launcher.EMPTY, e, StartedBytes(c)); Collect.HoldsNothing(m) && m.started
  {
    StartedPayloadValid(c.identity, c.token, c.stage);
    StartedSays(c.identity, c.token, c.stage);
    Collect.StartAccepted(e, StartedPayload(c.identity, c.token, c.stage));
  }

  lemma FeedTerminal(c: Params, e: Launcher.Expectation, kind: u16, p: seq<byte>)
    requires ParamShape(c) && e.identity == c.identity && Launcher.StageMatches(c.stage, e)
    requires StartedAccepted(c.identity, c.token, c.stage) && TerminalFits(c, kind, p)
    requires KindKnown(kind) && 32 <= |p| <= MAX_PAYLOAD_BYTES
    ensures var m := Launcher.FeedAll(Launcher.EMPTY, e, StartedBytes(c) + RunFrame(kind, p));
            m.started && if kind == RUN_RESULT then Collect.HoldsResult(m) else Collect.HoldsError(m)
  {
    var ps, stream := StartedPayload(c.identity, c.token, c.stage), StartedBytes(c) + RunFrame(kind, p);
    FeedStarted(c, e);
    StartedSays(c.identity, c.token, c.stage);
    if kind == RUN_RESULT {
      Collect.ContainedAccepted(e, stream, ps, p);
    } else {
      Collect.FailedRunAccepted(e, stream, ps, p);
    }
  }

  /** A published terminal means that the candidate is gone and that the controller wrote a whole record and exited
    * cleanly; a published RESULT carries the very first cause that the controller claimed. */
  lemma TerminalMeansClean(c: Params, actions: seq<Action>)
    requires ParamShape(c) && Run(c, actions).published.StartedThen?
    ensures var s := Run(c, actions);
            && s.candidate.Gone? && s.controller == Ended(true) && s.phase.authorized
            && (s.published.kind == RUN_RESULT ==>
                  && |s.published.payload| == RESULT_BYTES && s.phase.cause.kind != 0
                  && VerdictCause(Slice(s.published.payload, 132, 32)) == s.phase.cause)
  {
    RunInv(c, actions);
    var s := Run(c, actions);
    if s.published.kind == RUN_RESULT {
      var closes :| Allowed(c, s, closes) == Verdict.Publish(s.published.kind, s.published.payload);
      FinalizeExact(s.report, c.identity, c.token, ExitOf(s), AfterCollect(closes));
      PayloadSays(c.identity, s.report);
    }
  }

  /** After an unclean exit of the controller no terminal is published, even if its record is whole. */
  lemma UncleanPublishesNothing(c: Params, actions: seq<Action>)
    requires ParamShape(c) && Run(c, actions).controller == Ended(false)
    ensures !Run(c, actions).published.StartedThen?
  {
    RunInv(c, actions);
  }
}
