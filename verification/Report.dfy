/** The private 572-byte controller report: the two builders, the two validators, and the finalizer that turns
  * a valid report into a public terminal frame. */
module Report {
  import opened Bytes
  import opened Wrappers
  import opened Wire
  import opened Records
  import Stream
  import Phase

  const REPORT_BYTES: nat := 572
  const VERSION: u16 := 2
  const TERMINAL_RESULT: u16 := 1
  const TERMINAL_ERROR: u16 := 2
  /** "P17QACR" and a zero byte */
  const REPORT_MAGIC: seq<byte> := [80, 49, 55, 81, 65, 67, 82, 0]

  const STREAM_LIMIT: u64 := 1048576
  const SCRATCH_LIMIT_BYTES: u64 := 67108864
  const SCRATCH_LIMIT_ENTRIES: u64 := 4096
  const WALL_TIME_MS: u64 := 30000
  const NSIG: u32 := 65
  const SIGKILL: u32 := 9

  const EXIT: u16 := 1
  const BY_SIGNAL: u16 := 2
  const SUPERVISOR_KILL: u16 := 3

  datatype Termination = Termination(kind: u16, exitCode: u32, signal: u32)

  // ---------------------------------------------------------- evidence

  predicate TerminationShape(t: Termination) {
    if t.kind == EXIT then t.exitCode <= 255 && t.signal == U32_MAX
    else if t.kind == BY_SIGNAL then t.exitCode == U32_MAX && 0 < t.signal < NSIG
    else t.kind == SUPERVISOR_KILL && t.exitCode == U32_MAX && t.signal == SIGKILL
  }

  /** `allocator_shape_valid` */
  predicate AllocatorShape(a: Snapshot, notifications: byte, reason: u16) {
    && a.ceiling == HEAP_BYTES && a.current <= a.peak <= a.ceiling
    && a.denied <= 1 && a.systemFailed == 0 && a.notificationFailed == 0
    && notifications <= 1 && notifications == a.denied
    && (reason == Phase.MEMORY_LIMIT <==> a.denied != 0)
  }

  /** What one output stream contributes. */
  datatype Output = Output(observed: u64, crossed: bool)

  function MaximumOutput(out: Output, err: Output): u64 {
    var m := if out.crossed then out.observed else 0;
    if err.crossed && err.observed > m then err.observed else m
  }

  /** `reason_evidence_valid` */
  predicate ReasonEvidence(
      reason: u16, cause: Phase.Cause, t: Termination, out: Output, err: Output, wallMs: u64, peak: u64)
  {
    && cause.kind == reason && cause.sequence != 0
    && 1 <= reason <= 9 && reason != Phase.SCRATCH_LIMIT && TerminationShape(t)
    && (reason == Phase.OUTPUT_LIMIT <==> out.crossed || err.crossed)
    && match reason
       case 1 => t.kind == EXIT && t.exitCode == 0 && cause.value == 0
       case 2 => t.kind == EXIT && t.exitCode != 0 && cause.value == t.exitCode
       case 3 => t.kind == BY_SIGNAL && t.signal != Phase.SIGXCPU && t.signal != Phase.SIGSYS && cause.value == t.signal
       case 4 => t.kind == SUPERVISOR_KILL && cause.value == WALL_TIME_MS && wallMs >= WALL_TIME_MS
       case 5 => t.kind == BY_SIGNAL && t.signal == Phase.SIGXCPU && cause.value == Phase.SIGXCPU
       case 6 => (t.kind == SUPERVISOR_KILL || (t.kind == EXIT && t.exitCode != 0)) && 0 < cause.value <= peak
       case 7 => t.kind == SUPERVISOR_KILL && 0 < cause.value <= MaximumOutput(out, err)
       case 9 => t.kind == BY_SIGNAL && t.signal == Phase.SIGSYS && cause.value == Phase.SIGSYS
       case _ => false
  }

  /** The reason that the evidence forces, read off in one go. */
  function ForcedReason(t: Termination, crossed: bool, denied: bool): Option<u16> {
    if crossed && denied then None
    else if crossed then (if t.kind == SUPERVISOR_KILL then Some(Phase.OUTPUT_LIMIT) else None)
    else if denied then
      (if t.kind == SUPERVISOR_KILL || (t.kind == EXIT && t.exitCode != 0) then Some(Phase.MEMORY_LIMIT) else None)
    else if t.kind == EXIT then Some(if t.exitCode == 0 then Phase.EXPECTED_EXIT else Phase.UNEXPECTED_EXIT)
    else if t.kind == BY_SIGNAL then
      Some(if t.signal == Phase.SIGXCPU then Phase.CPU_LIMIT
           else if t.signal == Phase.SIGSYS then Phase.POLICY_VIOLATION else Phase.SIGNAL)
    else Some(Phase.WALL_TIMEOUT)
  }

  /** The evidence admits a reason exactly when it is the forced one and the amounts are there: a full wall
    * time for a timeout, a non-zero peak for a denial. */
  lemma ReasonExact(reason: u16, t: Termination, out: Output, err: Output, wallMs: u64, a: Snapshot,
                    notifications: byte)
    requires out.crossed ==> out.observed != 0
    requires err.crossed ==> err.observed != 0
    requires a.ceiling == HEAP_BYTES && a.current <= a.peak <= a.ceiling
    requires a.denied <= 1 && a.systemFailed == 0 && a.notificationFailed == 0 && notifications == a.denied
    ensures (exists cause ::
               ReasonEvidence(reason, cause, t, out, err, wallMs, a.peak) && AllocatorShape(a, notifications, reason))
       <==> (&& TerminationShape(t) && ForcedReason(t, out.crossed || err.crossed, a.denied != 0) == Some(reason)
             && (reason == Phase.WALL_TIMEOUT ==> wallMs >= WALL_TIME_MS)
             && (reason == Phase.MEMORY_LIMIT ==> a.peak != 0))
  {
    if TerminationShape(t) && ForcedReason(t, out.crossed || err.crossed, a.denied != 0) == Some(reason)
       && (reason == Phase.WALL_TIMEOUT ==> wallMs >= WALL_TIME_MS)
       && (reason == Phase.MEMORY_LIMIT ==> a.peak != 0)
    {
      var value: u64 :=
        match reason
        case 1 => 0
        case 2 => t.exitCode
        case 4 => WALL_TIME_MS
        case 6 => a.peak
        case 7 => MaximumOutput(out, err)
        case _ => t.signal;
      assert ReasonEvidence(reason, Phase.Cause(reason, 1, value), t, out, err, wallMs, a.peak);
    }
  }

  // -------------------------------------------------- records in the report

  function HeadBytes(kind: u16, identity: seq<byte>, token: seq<byte>): (h: seq<byte>)
    requires |identity| == 128 && |token| == 32
    ensures |h| == 176
  {
    REPORT_MAGIC + U16(VERSION) + U16(REPORT_BYTES) + U16(kind) + Zeros(2) + identity + token
  }

  predicate HeadValid(h: seq<byte>, kind: u16)
    requires |h| == 176
  {
    && Slice(h, 0, 8) == REPORT_MAGIC && F16(h, 8) == VERSION && F16(h, 10) == REPORT_BYTES && F16(h, 12) == kind
    && Zero(h, 14, 2) && IdentityValid(Slice(h, 16, 128)) && !Zero(h, 144, 32)
  }

  lemma HeadFields(kind: u16, identity: seq<byte>, token: seq<byte>)
    requires |identity| == 128 && |token| == 32
    ensures var h := HeadBytes(kind, identity, token);
            && Slice(h, 0, 8) == REPORT_MAGIC && F16(h, 8) == VERSION && F16(h, 10) == REPORT_BYTES
            && F16(h, 12) == kind && Zero(h, 14, 2) && Slice(h, 16, 128) == identity && Slice(h, 144, 32) == token
  {
    HeadParts(REPORT_MAGIC, U16(VERSION), U16(REPORT_BYTES), U16(kind), identity, token);
  }

  lemma HeadParts(g: seq<byte>, v: seq<byte>, n: seq<byte>, k: seq<byte>, id: seq<byte>, t: seq<byte>)
    requires |g| == 8 && |v| == 2 && |n| == 2 && |k| == 2 && |id| == 128 && |t| == 32
    ensures var h := g + v + n + k + Zeros(2) + id + t;
            && Slice(h, 0, 8) == g && Slice(h, 8, 2) == v && Slice(h, 10, 2) == n && Slice(h, 12, 2) == k
            && AllZero(Slice(h, 14, 2)) && Slice(h, 16, 128) == id && Slice(h, 144, 32) == t
  {}

  method WriteHead(a: array<byte>, kind: u16, identity: seq<byte>, token: seq<byte>)
    requires a.Length == REPORT_BYTES && Built(a[..], []) && |identity| == 128 && |token| == 32
    modifies a
    ensures Built(a[..], HeadBytes(kind, identity, token))
  {
    ghost var done := Put(a, 0, REPORT_MAGIC, []);
    assert done == REPORT_MAGIC;
    done := Put(a, 8, U16(VERSION), done);
    done := Put(a, 10, U16(REPORT_BYTES), done);
    done := Put(a, 12, U16(kind), done);
    BuiltGap(a[..], done, 2);
    done := done + Zeros(2);
    done := Put(a, 16, identity, done);
    done := Put(a, 144, token, done);
  }

  /** Reason, termination and first cause. */
  function VerdictBytes(reason: u16, t: Termination, cause: Phase.Cause): (v: seq<byte>)
    ensures |v| == 32
  {
    (U16(reason) + U16(t.kind) + U32(t.exitCode) + U32(t.signal))
    + (U16(reason) + Zeros(2) + U64(cause.sequence) + U64(cause.value))
  }

  function VerdictReason(v: seq<byte>): u16 requires |v| == 32 { F16(v, 0) }
  function VerdictTermination(v: seq<byte>): Termination requires |v| == 32 {
    Termination(F16(v, 2), F32(v, 4), F32(v, 8))
  }
  function VerdictCause(v: seq<byte>): Phase.Cause
    requires |v| == 32
  {
    Phase.Cause(F16(v, 12), F64(v, 16), F64(v, 24))
  }

  lemma VerdictFields(reason: u16, t: Termination, cause: Phase.Cause)
    ensures var v := VerdictBytes(reason, t, cause);
            && VerdictReason(v) == reason && VerdictTermination(v) == t
            && VerdictCause(v) == Phase.Cause(reason, cause.sequence, cause.value) && Zero(v, 14, 2)
  {
    VerdictParts(U16(reason), U16(t.kind), U32(t.exitCode), U32(t.signal), U64(cause.sequence), U64(cause.value));
  }

  lemma VerdictParts(r: seq<byte>, k: seq<byte>, x: seq<byte>, s: seq<byte>, q: seq<byte>, o: seq<byte>)
    requires |r| == 2 && |k| == 2 && |x| == 4 && |s| == 4 && |q| == 8 && |o| == 8
    ensures var v := (r + k + x + s) + (r + Zeros(2) + q + o);
            && Slice(v, 0, 2) == r && Slice(v, 2, 2) == k && Slice(v, 4, 4) == x && Slice(v, 8, 4) == s
            && Slice(v, 12, 2) == r && AllZero(Slice(v, 14, 2)) && Slice(v, 16, 8) == q && Slice(v, 24, 8) == o
  {}

  method WriteVerdict(a: array<byte>, reason: u16, t: Termination, cause: Phase.Cause, ghost head: seq<byte>)
    requires a.Length == REPORT_BYTES && |head| == 176 && Built(a[..], head)
    modifies a
    ensures Built(a[..], head + VerdictBytes(reason, t, cause))
  {
    ghost var done := Put(a, 176, U16(reason), head);
    done := Put(a, 178, U16(t.kind), done);
    done := Put(a, 180, U32(t.exitCode), done);
    done := Put(a, 184, U32(t.signal), done);
    done := Put(a, 188, U16(reason), done);
    BuiltGap(a[..], done, 2);
    done := done + Zeros(2);
    done := Put(a, 192, U64(cause.sequence), done);
    done := Put(a, 200, U64(cause.value), done);
    Assoc8(head, U16(reason), U16(t.kind), U32(t.exitCode), U32(t.signal), Zeros(2), U64(cause.sequence),
           U64(cause.value));
  }

  lemma Assoc8(h: seq<byte>, r: seq<byte>, k: seq<byte>, x: seq<byte>, s: seq<byte>, z: seq<byte>, q: seq<byte>,
               o: seq<byte>)
    ensures h + r + k + x + s + r + z + q + o == h + ((r + k + x + s) + (r + z + q + o))
  {}

  function Ones(n: nat): (s: seq<byte>)
    ensures |s| == n && forall i :: 0 <= i < n ==> s[i] == 1
  {
    seq(n, _ => 1)
  }

  /** Seven finality bytes, status end, allocator stability and the allocator's flags. */
  function FlagBytes(notifications: byte, systemFailed: byte, notificationFailed: byte): (f: seq<byte>)
    ensures |f| == 16
  {
    Ones(7) + [1, 1, notifications, systemFailed, notificationFailed] + Zeros(4)
  }

  method WriteFlags(a: array<byte>, n: byte, s: byte, f: byte, ghost before: seq<byte>)
    requires a.Length == REPORT_BYTES && |before| == 208 && Built(a[..], before)
    modifies a
    ensures Built(a[..], before + FlagBytes(n, s, f))
  {
    ghost var done := before;
    var index := 0;
    assert done == before + Ones(0);
    while index < 7
      invariant 0 <= index <= 7 && done == before + Ones(index) && Built(a[..], done)
    {
      done := Put(a, 208 + index, [1], done);
      index := index + 1;
      assert Ones(index - 1) + [1] == Ones(index);
    }
    done := Put(a, 215, [1, 1, n, s, f], done);
    BuiltGap(a[..], done, 4);
    assert before + Ones(7) + [1, 1, n, s, f] + Zeros(4) == before + FlagBytes(n, s, f);
  }

  // ---------------------------------------------------- the result report

  datatype ResultInput = ResultInput(
    identity: seq<byte>, token: seq<byte>, phase: Phase.Phase, termination: Termination,
    out: Stream.Measurement, err: Stream.Measurement, metrics: Metrics, allocator: Snapshot,
    scratch: ScratchMeasurement, stage: seq<byte>, statusEof: byte, allocatorStable: byte, notifications: byte)

  predicate InputShape(i: ResultInput) {
    && |i.identity| == 128 && |i.token| == 32 && |i.stage| == STAGE_BYTES
    && |i.out.digest| == 32 && |i.err.digest| == 32
  }

  predicate StreamShape(m: Stream.Measurement) requires |m.digest| == 32 {
    m.limit == STREAM_LIMIT && Stream.MeasurementValid(m) && !AllZero(m.digest)
  }

  function OutputOf(m: Stream.Measurement): Output { Output(m.observed, m.crossed) }

  predicate ResultAccepted(i: ResultInput) requires InputShape(i) {
    && i.statusEof == 1 && i.allocatorStable == 1
    && IdentityValid(i.identity) && !AllZero(i.token) && Phase.ReportReady(i.phase)
    && StreamShape(i.out) && StreamShape(i.err)
    && ScratchOk(i.scratch) && i.scratch.limitBytes == SCRATCH_LIMIT_BYTES
    && i.scratch.limitEntries == SCRATCH_LIMIT_ENTRIES
    && StageValid(i.stage) && i.stage[80] == 1 && i.stage[81] == 1
    && AllocatorShape(i.allocator, i.notifications, i.phase.cause.kind)
    && ReasonEvidence(i.phase.cause.kind, i.phase.cause, i.termination, OutputOf(i.out), OutputOf(i.err),
                      i.metrics.wallMs, i.allocator.peak)
  }

  function ResultReport(i: ResultInput): (r: seq<byte>)
    requires InputShape(i)
    ensures |r| == REPORT_BYTES
  {
    HeadBytes(TERMINAL_RESULT, i.identity, i.token)
    + VerdictBytes(i.phase.cause.kind, i.termination, i.phase.cause)
    + FlagBytes(i.notifications, i.allocator.systemFailed, i.allocator.notificationFailed)
    + U64(i.allocator.current)
    + StreamBytes(i.out) + StreamBytes(i.err) + ResourceBytes(i.metrics, i.allocator) + ScratchBytes(i.scratch)
    + i.stage
  }

  /** `proc17_qa_controller_report_build` */
  method BuildResult(i: ResultInput) returns (ok: bool, report: seq<byte>)
    requires InputShape(i)
    ensures ok <==> ResultAccepted(i)
    ensures ok ==> report == ResultReport(i)
  {
    if !ResultAccepted(i) {
      return false, [];
    }
    var a := new byte[REPORT_BYTES](_ => 0);
    assert Built(a[..], []);
    WriteHead(a, TERMINAL_RESULT, i.identity, i.token);
    ghost var h := HeadBytes(TERMINAL_RESULT, i.identity, i.token);
    WriteVerdict(a, i.phase.cause.kind, i.termination, i.phase.cause, h);
    ghost var v := h + VerdictBytes(i.phase.cause.kind, i.termination, i.phase.cause);
    WriteFlags(a, i.notifications, i.allocator.systemFailed, i.allocator.notificationFailed, v);
    ghost var f := v + FlagBytes(i.notifications, i.allocator.systemFailed, i.allocator.notificationFailed);
    WriteMeasurements(a, i, f);
    BuiltAll(a[..], ResultReport(i));
    return true, a[..];
  }

  method WriteMeasurements(a: array<byte>, i: ResultInput, ghost before: seq<byte>)
    requires a.Length == REPORT_BYTES && |before| == 224 && Built(a[..], before)
    requires InputShape(i) && StreamShape(i.out) && StreamShape(i.err) && ScratchOk(i.scratch)
    requires i.allocator.ceiling == HEAP_BYTES && i.allocator.denied <= 1
    modifies a
    ensures Built(a[..], before + U64(i.allocator.current) + StreamBytes(i.out) + StreamBytes(i.err)
                         + ResourceBytes(i.metrics, i.allocator) + ScratchBytes(i.scratch) + i.stage)
  {
    ghost var done := Put(a, 224, U64(i.allocator.current), before);
    var ok, bytes := EncodeStream(i.out);
    done := Put(a, 232, bytes, done);
    ok, bytes := EncodeStream(i.err);
    done := Put(a, 296, bytes, done);
    ok, bytes := EncodeResource(i.metrics, i.allocator);
    done := Put(a, 360, bytes, done);
    ok, bytes := EncodeScratch(i.scratch);
    done := Put(a, 448, bytes, done);
    done := Put(a, 488, i.stage, done);
  }

  // ------------------------------------------------- the result validator

  function HeadOf(r: seq<byte>): seq<byte> requires |r| == REPORT_BYTES { Slice(r, 0, 176) }
  function VerdictOf(r: seq<byte>): (v: seq<byte>) requires |r| == REPORT_BYTES ensures |v| == 32 { Slice(r, 176, 32) }
  function FlagsOf(r: seq<byte>): (f: seq<byte>) requires |r| == REPORT_BYTES ensures |f| == 16 { Slice(r, 208, 16) }
  function CurrentOf(r: seq<byte>): u64 requires |r| == REPORT_BYTES { F64(r, 224) }
  function OutOf(r: seq<byte>): (s: seq<byte>)
    requires |r| == REPORT_BYTES
    ensures |s| == STREAM_BYTES
  {
    Slice(r, 232, 64)
  }
  function ErrOf(r: seq<byte>): (s: seq<byte>)
    requires |r| == REPORT_BYTES
    ensures |s| == STREAM_BYTES
  {
    Slice(r, 296, 64)
  }
  function ResourceOf(r: seq<byte>): (s: seq<byte>)
    requires |r| == REPORT_BYTES
    ensures |s| == RESOURCE_BYTES
  {
    Slice(r, 360, 88)
  }
  function ScratchOf(r: seq<byte>): (s: seq<byte>)
    requires |r| == REPORT_BYTES
    ensures |s| == SCRATCH_BYTES
  {
    Slice(r, 448, 40)
  }
  function StageOf(r: seq<byte>): (s: seq<byte>)
    requires |r| == REPORT_BYTES
    ensures |s| == STAGE_BYTES
  {
    Slice(r, 488, 84)
  }

  function ReadOutput(s: seq<byte>): Output requires |s| == STREAM_BYTES { Output(F64(s, 0), s[56] != 0) }

  function ReadSnapshot(resource: seq<byte>, flags: seq<byte>, current: u64): Snapshot
    requires |resource| == RESOURCE_BYTES && |flags| == 16
  {
    Snapshot(F64(resource, 48), current, F64(resource, 40), resource[80], flags[10], flags[11])
  }

  predicate FlagsValid(f: seq<byte>) requires |f| == 16 {
    && (forall i :: 0 <= i < 7 ==> f[i] == 1)
    && f[7] == 1 && f[8] == 1 && f[9] <= 1 && Boolean(f[10]) && f[11] == 0 && Zero(f, 12, 4)
  }

  predicate ResourceConstants(x: seq<byte>) requires |x| == RESOURCE_BYTES {
    && F64(x, 32) == ADDRESS_SPACE_BYTES && F64(x, 48) == HEAP_BYTES && F64(x, 56) == MAX_PROCESSES
    && F64(x, 64) == MAX_OPEN_FILES && F64(x, 72) == MAX_FILE_BYTES
  }

  predicate ScratchConstants(s: seq<byte>) requires |s| == SCRATCH_BYTES {
    F64(s, 16) == SCRATCH_LIMIT_BYTES && F64(s, 24) == SCRATCH_LIMIT_ENTRIES
  }

  predicate StageComplete(g: seq<byte>) requires |g| == STAGE_BYTES { StageValid(g) && g[80] == 1 && g[81] == 1 }

  predicate VerdictValid(v: seq<byte>, f: seq<byte>, current: u64, out: seq<byte>, err: seq<byte>, x: seq<byte>)
    requires |v| == 32 && |f| == 16 && |out| == STREAM_BYTES && |err| == STREAM_BYTES && |x| == RESOURCE_BYTES
  {
    && Zero(v, 14, 2)
    && AllocatorShape(ReadSnapshot(x, f, current), f[9], VerdictReason(v))
    && ReasonEvidence(VerdictReason(v), VerdictCause(v), VerdictTermination(v), ReadOutput(out), ReadOutput(err),
                      F64(x, 0), F64(x, 40))
  }

  /** `private_result_valid` */
  predicate PrivateResultValid(r: seq<byte>) {
    && |r| == REPORT_BYTES
    && HeadValid(HeadOf(r), TERMINAL_RESULT) && FlagsValid(FlagsOf(r))
    && StreamValid(OutOf(r)) && StreamValid(ErrOf(r)) && F64(OutOf(r), 16) == STREAM_LIMIT
    && F64(ErrOf(r), 16) == STREAM_LIMIT
    && ResourceValid(ResourceOf(r)) && ResourceConstants(ResourceOf(r))
    && ScratchValid(ScratchOf(r)) && ScratchConstants(ScratchOf(r)) && StageComplete(StageOf(r))
    && VerdictValid(VerdictOf(r), FlagsOf(r), CurrentOf(r), OutOf(r), ErrOf(r), ResourceOf(r))
  }

  lemma Sections(h: seq<byte>, v: seq<byte>, f: seq<byte>, c: seq<byte>, o: seq<byte>, e: seq<byte>, x: seq<byte>,
                 s: seq<byte>, g: seq<byte>)
    requires |h| == 176 && |v| == 32 && |f| == 16 && |c| == 8 && |o| == 64 && |e| == 64 && |x| == 88 && |s| == 40
    requires |g| == 84
    ensures var r := h + v + f + c + o + e + x + s + g;
            && |r| == REPORT_BYTES && HeadOf(r) == h && VerdictOf(r) == v && FlagsOf(r) == f && Slice(r, 224, 8) == c
            && OutOf(r) == o && ErrOf(r) == e && ResourceOf(r) == x && ScratchOf(r) == s && StageOf(r) == g
  {}

  /** What a result report says, section by section. */
  lemma ReportSections(i: ResultInput)
    requires InputShape(i)
    ensures var r := ResultReport(i);
            && HeadOf(r) == HeadBytes(TERMINAL_RESULT, i.identity, i.token)
            && VerdictOf(r) == VerdictBytes(i.phase.cause.kind, i.termination, i.phase.cause)
            && FlagsOf(r) == FlagBytes(i.notifications, i.allocator.systemFailed, i.allocator.notificationFailed)
            && CurrentOf(r) == i.allocator.current
            && OutOf(r) == StreamBytes(i.out) && ErrOf(r) == StreamBytes(i.err)
            && ResourceOf(r) == ResourceBytes(i.metrics, i.allocator)
            && ScratchOf(r) == ScratchBytes(i.scratch) && StageOf(r) == i.stage
  {
    Sections(HeadBytes(TERMINAL_RESULT, i.identity, i.token),
             VerdictBytes(i.phase.cause.kind, i.termination, i.phase.cause),
             FlagBytes(i.notifications, i.allocator.systemFailed, i.allocator.notificationFailed),
             U64(i.allocator.current), StreamBytes(i.out), StreamBytes(i.err), ResourceBytes(i.metrics, i.allocator),
             ScratchBytes(i.scratch), i.stage);
  }

  lemma FlagFields(n: byte, s: byte, f: byte)
    ensures var x := FlagBytes(n, s, f);
            && (forall i :: 0 <= i < 7 ==> x[i] == 1) && x[7] == 1 && x[8] == 1 && x[9] == n && x[10] == s && x[11] == f
            && Zero(x, 12, 4)
  {}

  lemma BuiltVerdict(i: ResultInput)
    requires InputShape(i) && ResultAccepted(i)
    ensures VerdictValid(VerdictBytes(i.phase.cause.kind, i.termination, i.phase.cause),
                         FlagBytes(i.notifications, i.allocator.systemFailed, i.allocator.notificationFailed),
                         i.allocator.current, StreamBytes(i.out), StreamBytes(i.err),
                         ResourceBytes(i.metrics, i.allocator))
  {
    VerdictFields(i.phase.cause.kind, i.termination, i.phase.cause);
    FlagFields(i.notifications, i.allocator.systemFailed, i.allocator.notificationFailed);
    StreamFields(i.out);
    StreamFields(i.err);
    ResourceFields(i.metrics, i.allocator);
    assert ReadOutput(StreamBytes(i.out)) == OutputOf(i.out) && ReadOutput(StreamBytes(i.err)) == OutputOf(i.err);
  }

  lemma BuiltHead(kind: u16, identity: seq<byte>, token: seq<byte>)
    requires |identity| == 128 && |token| == 32 && IdentityValid(identity) && !AllZero(token)
    ensures HeadValid(HeadBytes(kind, identity, token), kind)
  {
    HeadFields(kind, identity, token);
  }

  lemma BuiltStream(m: Stream.Measurement)
    requires |m.digest| == 32 && StreamShape(m)
    ensures StreamValid(StreamBytes(m)) && F64(StreamBytes(m), 16) == STREAM_LIMIT
  {
    StreamFields(m);
  }

  lemma BuiltResource(m: Metrics, s: Snapshot)
    requires s.ceiling == HEAP_BYTES && s.denied <= 1
    ensures ResourceValid(ResourceBytes(m, s)) && ResourceConstants(ResourceBytes(m, s))
  {
    ResourceFields(m, s);
  }

  lemma BuiltScratch(m: ScratchMeasurement)
    requires ScratchOk(m) && m.limitBytes == SCRATCH_LIMIT_BYTES && m.limitEntries == SCRATCH_LIMIT_ENTRIES
    ensures ScratchValid(ScratchBytes(m)) && ScratchConstants(ScratchBytes(m))
  {
    ScratchFields(m);
  }

  /** Every input the result builder accepts gives bytes the private validator accepts. */
  lemma BuiltResultValid(i: ResultInput)
    requires InputShape(i) && ResultAccepted(i)
    ensures PrivateResultValid(ResultReport(i))
  {
    ReportSections(i);
    BuiltHead(TERMINAL_RESULT, i.identity, i.token);
    BuiltStream(i.out);
    BuiltStream(i.err);
    BuiltResource(i.metrics, i.allocator);
    BuiltScratch(i.scratch);
    FlagFields(i.notifications, i.allocator.systemFailed, i.allocator.notificationFailed);
    BuiltVerdict(i);
  }

  // ------------------------------------------------- the forced verdict

  function TerminationOf(r: seq<byte>): Termination requires |r| == REPORT_BYTES { VerdictTermination(VerdictOf(r)) }
  function ReasonOf(r: seq<byte>): u16 requires |r| == REPORT_BYTES { VerdictReason(VerdictOf(r)) }
  predicate CrossedIn(r: seq<byte>) requires |r| == REPORT_BYTES { OutOf(r)[56] != 0 || ErrOf(r)[56] != 0 }
  predicate DeniedIn(r: seq<byte>) requires |r| == REPORT_BYTES { ResourceOf(r)[80] != 0 }

  /** Over all 572-byte records: a valid one has exactly the reason its evidence forces. */
  lemma VerdictForced(r: seq<byte>)
    requires PrivateResultValid(r)
    ensures ForcedReason(TerminationOf(r), CrossedIn(r), DeniedIn(r)) == Some(ReasonOf(r))
  {
    EvidenceForces(VerdictOf(r), FlagsOf(r), CurrentOf(r), OutOf(r), ErrOf(r), ResourceOf(r));
  }

  lemma EvidenceForces(v: seq<byte>, f: seq<byte>, current: u64, out: seq<byte>, err: seq<byte>, x: seq<byte>)
    requires |v| == 32 && |f| == 16 && |out| == STREAM_BYTES && |err| == STREAM_BYTES && |x| == RESOURCE_BYTES
    requires VerdictValid(v, f, current, out, err, x)
    ensures ForcedReason(VerdictTermination(v), out[56] != 0 || err[56] != 0, x[80] != 0) == Some(VerdictReason(v))
  {}

  /** No two reasons validate for the same evidence; crossing with denial validates none; an expected exit
    * has code 0 and neither. */
  lemma EvidenceDetermines(r: seq<byte>, s: seq<byte>)
    requires PrivateResultValid(r) && PrivateResultValid(s)
    ensures TerminationOf(r) == TerminationOf(s) && CrossedIn(r) == CrossedIn(s) && DeniedIn(r) == DeniedIn(s)
            ==> ReasonOf(r) == ReasonOf(s)
    ensures !(CrossedIn(r) && DeniedIn(r))
    ensures ReasonOf(r) == Phase.EXPECTED_EXIT ==>
              TerminationOf(r).kind == EXIT && TerminationOf(r).exitCode == 0 && !CrossedIn(r) && !DeniedIn(r)
  {
    VerdictForced(r);
    VerdictForced(s);
  }

  // ----------------------------------------------------- the error report

  const OUTPUT_INCOMPLETE: u16 := 7
  const SCRATCH_INCOMPLETE: u16 := 8
  const CLEANUP_INCOMPLETE: u16 := 9
  const SUBJECT_STDOUT: u16 := 1
  const SUBJECT_STDERR: u16 := 2
  const SUBJECT_SCRATCH: u16 := 3

  datatype ErrorInput = ErrorInput(
    identity: seq<byte>, token: seq<byte>, stage: seq<byte>, code: u16, subject: u16, terminal: byte, reaped: byte,
    outEof: byte, errEof: byte, scratch: byte, statusEof: byte)

  /** Exactly one of the three observations is missing, the one the subject names. */
  predicate SubjectMatches(code: u16, subject: u16, outEof: byte, errEof: byte, scratch: byte) {
    || (code == OUTPUT_INCOMPLETE && subject == SUBJECT_STDOUT && outEof == 0 && errEof == 1 && scratch == 1)
    || (code == OUTPUT_INCOMPLETE && subject == SUBJECT_STDERR && outEof == 1 && errEof == 0 && scratch == 1)
    || (code == SCRATCH_INCOMPLETE && subject == SUBJECT_SCRATCH && outEof == 1 && errEof == 1 && scratch == 0)
  }

  predicate ErrorAccepted(i: ErrorInput)
    requires |i.identity| == 128 && |i.token| == 32 && |i.stage| == STAGE_BYTES
  {
    && IdentityValid(i.identity) && !AllZero(i.token) && StageComplete(i.stage)
    && i.terminal == 1 && i.reaped == 1 && i.statusEof == 1
    && SubjectMatches(i.code, i.subject, i.outEof, i.errEof, i.scratch)
  }

  function CodeBytes(code: u16, subject: u16): (c: seq<byte>) ensures |c| == 32 { U16(code) + U16(subject) + Zeros(28) }

  function ErrorReport(i: ErrorInput): (r: seq<byte>)
    requires |i.identity| == 128 && |i.token| == 32 && |i.stage| == STAGE_BYTES
    ensures |r| == REPORT_BYTES
  {
    HeadBytes(TERMINAL_ERROR, i.identity, i.token) + CodeBytes(i.code, i.subject)
    + [1, 1, i.terminal, i.reaped, i.outEof, i.errEof, i.scratch, i.statusEof] + Zeros(272) + i.stage
  }

  /** The builder accepts `i`, makes `r` of it, and `i` is about this run. */
  predicate ResultFrom(
      i: ResultInput, identity: seq<byte>, token: seq<byte>, stage: seq<byte>, p: Phase.Phase, r: seq<byte>)
  {
    && InputShape(i) && ResultAccepted(i) && r == ResultReport(i)
    && i.identity == identity && i.token == token && i.stage == stage
    && i.phase.cause == p.cause && i.phase.attested == p.attested && i.phase.authorized == p.authorized
  }

  predicate ErrorFrom(i: ErrorInput, identity: seq<byte>, token: seq<byte>, stage: seq<byte>, r: seq<byte>) {
    && |i.identity| == 128 && |i.token| == 32 && |i.stage| == STAGE_BYTES && ErrorAccepted(i) && r == ErrorReport(i)
    && i.identity == identity && i.token == token && i.stage == stage
  }

  /** A result record that the builder makes for this run, from a phase with this cause, attestation and release. */
  ghost predicate MadeResult(identity: seq<byte>, token: seq<byte>, stage: seq<byte>, p: Phase.Phase, r: seq<byte>) {
    exists i: ResultInput :: ResultFrom(i, identity, token, stage, p, r)
  }

  /** An error record that the builder makes for this run. */
  ghost predicate MadeError(identity: seq<byte>, token: seq<byte>, stage: seq<byte>, r: seq<byte>) {
    exists i: ErrorInput :: ErrorFrom(i, identity, token, stage, r)
  }

  /** Proofs about runs see the two as predicates; those that need the inputs mention `MadeResult` and `MadeError`. */
  datatype Makers = Makers(
    result: (seq<byte>, seq<byte>, seq<byte>, Phase.Phase, seq<byte>) -> bool,
    error: (seq<byte>, seq<byte>, seq<byte>, seq<byte>) -> bool)

  ghost predicate AreMakers(m: Makers) {
    && (forall d, t, g, p, r {:trigger MadeResult(d, t, g, p, r)} ::
          m.result(d, t, g, p, r) == MadeResult(d, t, g, p, r))
    && (forall d, t, g, r {:trigger MadeError(d, t, g, r)} :: m.error(d, t, g, r) == MadeError(d, t, g, r))
  }

  ghost function ReportMakers(): (m: Makers)
    ensures AreMakers(m)
  {
    assert AreMakers(Makers((d, t, g, p, r) => MadeResult(d, t, g, p, r), (d, t, g, r) => MadeError(d, t, g, r)));
    var m :| AreMakers(m);
    m
  }

  ghost predicate ResultFor(identity: seq<byte>, token: seq<byte>, stage: seq<byte>, p: Phase.Phase, r: seq<byte>) {
    ReportMakers().result(identity, token, stage, p, r)
  }

  ghost predicate ErrorFor(identity: seq<byte>, token: seq<byte>, stage: seq<byte>, r: seq<byte>) {
    ReportMakers().error(identity, token, stage, r)
  }

  lemma ResultMade(i: ResultInput)
    requires InputShape(i) && ResultAccepted(i)
    ensures ResultFor(i.identity, i.token, i.stage, i.phase, ResultReport(i))
  {
    assert ResultFrom(i, i.identity, i.token, i.stage, i.phase, ResultReport(i));
    assert MadeResult(i.identity, i.token, i.stage, i.phase, ResultReport(i));
  }

  lemma ResultSource(identity: seq<byte>, token: seq<byte>, stage: seq<byte>, p: Phase.Phase, r: seq<byte>)
    returns (i: ResultInput)
    requires ResultFor(identity, token, stage, p, r)
    ensures ResultFrom(i, identity, token, stage, p, r)
  {
    assert MadeResult(identity, token, stage, p, r);
    i :| ResultFrom(i, identity, token, stage, p, r);
  }

  lemma ErrorMade(i: ErrorInput)
    requires |i.identity| == 128 && |i.token| == 32 && |i.stage| == STAGE_BYTES && ErrorAccepted(i)
    ensures ErrorFor(i.identity, i.token, i.stage, ErrorReport(i))
  {
    assert ErrorFrom(i, i.identity, i.token, i.stage, ErrorReport(i));
    assert MadeError(i.identity, i.token, i.stage, ErrorReport(i));
  }

  lemma ErrorSource(identity: seq<byte>, token: seq<byte>, stage: seq<byte>, r: seq<byte>) returns (i: ErrorInput)
    requires ErrorFor(identity, token, stage, r)
    ensures ErrorFrom(i, identity, token, stage, r)
  {
    assert MadeError(identity, token, stage, r);
    i :| ErrorFrom(i, identity, token, stage, r);
  }

  /** `proc17_qa_controller_error_build` */
  method BuildError(i: ErrorInput) returns (ok: bool, report: seq<byte>)
    requires |i.identity| == 128 && |i.token| == 32 && |i.stage| == STAGE_BYTES
    ensures ok <==> ErrorAccepted(i)
    ensures ok ==> report == ErrorReport(i)
  {
    if !IdentityValid(i.identity) || AllZero(i.token) || !StageComplete(i.stage)
       || i.terminal != 1 || i.reaped != 1 || i.statusEof != 1 {
      return false, [];
    }
    var expectedOut: byte, expectedErr: byte, expectedScratch: byte := 1, 1, 1;
    if i.code == OUTPUT_INCOMPLETE && (i.subject == SUBJECT_STDOUT || i.subject == SUBJECT_STDERR) {
      expectedOut := if i.subject == SUBJECT_STDOUT then 0 else 1;
      expectedErr := if i.subject == SUBJECT_STDERR then 0 else 1;
    } else if i.code == SCRATCH_INCOMPLETE && i.subject == SUBJECT_SCRATCH {
      expectedScratch := 0;
    } else {
      return false, [];
    }
    if i.outEof != expectedOut || i.errEof != expectedErr || i.scratch != expectedScratch {
      return false, [];
    }
    report := WriteError(i);
    ok := true;
  }

  method WriteError(i: ErrorInput) returns (report: seq<byte>)
    requires |i.identity| == 128 && |i.token| == 32 && |i.stage| == STAGE_BYTES
    ensures report == ErrorReport(i)
  {
    var a := new byte[REPORT_BYTES](_ => 0);
    assert Built(a[..], []);
    WriteHead(a, TERMINAL_ERROR, i.identity, i.token);
    ghost var h := HeadBytes(TERMINAL_ERROR, i.identity, i.token);
    ghost var done := Put(a, 176, U16(i.code), h);
    done := Put(a, 178, U16(i.subject), done);
    BuiltGap(a[..], done, 28);
    AssocGap(h, U16(i.code), U16(i.subject), Zeros(28));
    done := h + CodeBytes(i.code, i.subject);
    done := Put(a, 208, [1, 1, i.terminal, i.reaped, i.outEof, i.errEof, i.scratch, i.statusEof], done);
    BuiltGap(a[..], done, 272);
    done := done + Zeros(272);
    done := Put(a, 488, i.stage, done);
    BuiltAll(a[..], done);
    report := a[..];
  }

  lemma AssocGap(h: seq<byte>, x: seq<byte>, y: seq<byte>, z: seq<byte>)
    ensures h + x + y + z == h + (x + y + z)
  {}

  /** `private_error_valid` */
  predicate PrivateErrorValid(r: seq<byte>) {
    && |r| == REPORT_BYTES && HeadValid(HeadOf(r), TERMINAL_ERROR)
    && Zero(r, 180, 28) && Zero(r, 216, 272) && StageComplete(StageOf(r))
    && var f := Slice(r, 208, 8);
       && f[0] == 1 && f[1] == 1 && f[2] == 1 && f[3] == 1 && f[7] == 1
       && SubjectMatches(F16(r, 176), F16(r, 178), f[4], f[5], f[6])
  }

  lemma ErrorSections(h: seq<byte>, c: seq<byte>, s: seq<byte>, f: seq<byte>, g: seq<byte>)
    requires |h| == 176 && |c| == 2 && |s| == 2 && |f| == 8 && |g| == 84
    ensures var r := h + (c + s + Zeros(28)) + f + Zeros(272) + g;
            && |r| == REPORT_BYTES && HeadOf(r) == h && Slice(r, 176, 2) == c && Slice(r, 178, 2) == s
            && AllZero(Slice(r, 180, 28)) && Slice(r, 208, 8) == f && AllZero(Slice(r, 216, 272)) && StageOf(r) == g
  {}

  /** Every input the error builder accepts gives bytes the private error validator accepts. */
  lemma BuiltErrorValid(i: ErrorInput)
    requires |i.identity| == 128 && |i.token| == 32 && |i.stage| == STAGE_BYTES && ErrorAccepted(i)
    ensures PrivateErrorValid(ErrorReport(i))
  {
    BuiltHead(TERMINAL_ERROR, i.identity, i.token);
    ErrorReads(i);
    FinalityReads(i);
  }

  lemma FinalityReads(i: ErrorInput)
    ensures var f: seq<byte> := [1, 1, i.terminal, i.reaped, i.outEof, i.errEof, i.scratch, i.statusEof];
            f[0] == 1 && f[1] == 1 && f[2] == i.terminal && f[3] == i.reaped && f[4] == i.outEof && f[5] == i.errEof
            && f[6] == i.scratch && f[7] == i.statusEof
  {}

  lemma ErrorReads(i: ErrorInput)
    requires |i.identity| == 128 && |i.token| == 32 && |i.stage| == STAGE_BYTES
    ensures var r := ErrorReport(i);
            && HeadOf(r) == HeadBytes(TERMINAL_ERROR, i.identity, i.token)
            && F16(r, 176) == i.code && F16(r, 178) == i.subject && Zero(r, 180, 28) && Zero(r, 216, 272)
            && StageOf(r) == i.stage
            && Slice(r, 208, 8) == [1, 1, i.terminal, i.reaped, i.outEof, i.errEof, i.scratch, i.statusEof]
  {
    ErrorSections(HeadBytes(TERMINAL_ERROR, i.identity, i.token), U16(i.code), U16(i.subject),
                  [1, 1, i.terminal, i.reaped, i.outEof, i.errEof, i.scratch, i.statusEof], i.stage);
  }

  // ------------------------------------------------------- finalization

  datatype Wait = Exited(code: int) | Signaled(signal: int)

  /** What the supervisor saw of the controller's end, as five flags. */
  datatype Ending = Ending(pidfdRetained: byte, recordComplete: byte, recordEof: byte, reaped: byte,
    authorityClosed: byte)

  /** `proc17_qa_namespace_cleanup_observe`: refused, or whether the cleanup is complete. */
  function Cleanup(o: Ending, w: Wait): Option<bool> {
    if o.pidfdRetained > 1 || o.recordComplete > 1 || o.recordEof > 1 || o.reaped > 1 || o.authorityClosed > 1 then None
    else if o.recordComplete != 1 then None
    else if o.reaped != 0 && w != Exited(0) then None
    else Some(o.pidfdRetained != 0 && o.recordEof != 0 && o.reaped != 0 && o.authorityClosed != 0)
  }

  function ResultPayload(identity: seq<byte>, r: seq<byte>): (p: seq<byte>)
    requires |identity| == 128 && |r| == REPORT_BYTES
    ensures |p| == RESULT_BYTES
  {
    identity + (U16(PHASE_TERMINAL) + U16(1)) + VerdictOf(r) + Ones(8)
    + OutOf(r) + ErrOf(r) + ResourceOf(r) + ScratchOf(r) + StageOf(r)
  }


  function ErrorPayload(identity: seq<byte>, code: u16, stage: u16, g: seq<byte>): (p: seq<byte>)
    requires |identity| == 128 && |g| == STAGE_BYTES
    ensures |p| == ERROR_BYTES
  {
    identity + (U16(PHASE_TERMINAL) + U16(ERROR_AMBIGUOUS) + U16(code) + U16(stage)) + [TRI_TRUE, TRI_FALSE, 0, 1]
    + Zeros(44) + g
  }

  lemma ResultParts(d: seq<byte>, k: seq<byte>, v: seq<byte>, n: seq<byte>, o: seq<byte>, e: seq<byte>, x: seq<byte>,
                    s: seq<byte>, g: seq<byte>)
    requires |d| == 128 && |k| == 4 && |v| == 32 && |n| == 8 && |o| == 64 && |e| == 64 && |x| == 88 && |s| == 40
    requires |g| == 84
    ensures var p := d + k + v + n + o + e + x + s + g;
            && |p| == RESULT_BYTES && Slice(p, 0, 128) == d && Slice(p, 128, 4) == k && Slice(p, 132, 32) == v
            && Slice(p, RESULT_FINALITY, 8) == n && Slice(p, RESULT_STDOUT, STREAM_BYTES) == o
            && Slice(p, RESULT_STDERR, STREAM_BYTES) == e && Slice(p, RESULT_RESOURCE, RESOURCE_BYTES) == x
            && Slice(p, RESULT_SCRATCH, SCRATCH_BYTES) == s && Slice(p, RESULT_STAGE, STAGE_BYTES) == g
  {}

  lemma SubSlice(p: seq<byte>, off: nat, n: nat, o: nat, m: nat)
    requires off + n <= |p| && o + m <= n
    ensures Slice(Slice(p, off, n), o, m) == Slice(p, off + o, m)
  {
    forall k | 0 <= k < m ensures Slice(Slice(p, off, n), o, m)[k] == Slice(p, off + o, m)[k] {
      assert Slice(p, off, n)[o + k] == p[off + o + k];
    }
  }

  lemma TwoFields(a: seq<byte>, b: seq<byte>)
    requires |a| == 2 && |b| == 2
    ensures Slice(a + b, 0, 2) == a && Slice(a + b, 2, 2) == b
  {}

  lemma ZeroField(s: seq<byte>)
    requires |s| == 2 && AllZero(s)
    ensures GetU16(s) == 0
  {
    assert s == Zeros(2);
    FieldInjective2(s);
  }

  lemma FieldInjective2(s: seq<byte>)
    requires s == Zeros(2)
    ensures FromBE(s) == 0
  {
    assert FromBE(s[..1]) == 0 by { assert s[..1][..0] == []; }
  }

  /** The payload says what the report says. */
  lemma PayloadSays(identity: seq<byte>, r: seq<byte>)
    requires |identity| == 128 && |r| == REPORT_BYTES
    ensures var p := ResultPayload(identity, r);
            && Slice(p, 0, 128) == identity && F16(p, 128) == PHASE_TERMINAL && F16(p, 130) == 1
            && Slice(p, 132, 32) == VerdictOf(r) && Slice(p, RESULT_FINALITY, 8) == Ones(8)
            && Slice(p, RESULT_STDOUT, STREAM_BYTES) == OutOf(r) && Slice(p, RESULT_STDERR, STREAM_BYTES) == ErrOf(r)
            && Slice(p, RESULT_RESOURCE, RESOURCE_BYTES) == ResourceOf(r)
            && Slice(p, RESULT_SCRATCH, SCRATCH_BYTES) == ScratchOf(r)
            && Slice(p, RESULT_STAGE, STAGE_BYTES) == StageOf(r)
  {
    var p := ResultPayload(identity, r);
    ResultParts(identity, U16(PHASE_TERMINAL) + U16(1), VerdictOf(r), Ones(8), OutOf(r), ErrOf(r), ResourceOf(r),
                ScratchOf(r), StageOf(r));
    TwoFields(U16(PHASE_TERMINAL), U16(1));
    SubSlice(p, 128, 4, 0, 2);
    SubSlice(p, 128, 4, 2, 2);
  }

  lemma PayloadHead(p: seq<byte>, v: seq<byte>)
    requires |p| == RESULT_BYTES && |v| == 32 && Slice(p, 132, 32) == v
    ensures F16(p, 132) == F16(v, 0) && F16(p, 134) == F16(v, 2) && F16(p, 144) == F16(v, 12)
    ensures Slice(p, 146, 2) == Slice(v, 14, 2) && F64(p, 148) == F64(v, 16)
  {
    SubSlice(p, 132, 32, 0, 2);
    SubSlice(p, 132, 32, 2, 2);
    SubSlice(p, 132, 32, 12, 2);
    SubSlice(p, 132, 32, 14, 2);
    SubSlice(p, 132, 32, 16, 8);
  }

  lemma IdentitySlice(p: seq<byte>, identity: seq<byte>)
    requires |identity| == 128 && |p| >= 128 && Slice(p, 0, 128) == identity && IdentityValid(identity)
    ensures IdentityValid(p) && p[..32] == identity[..32]
  {
    SubSlice(p, 0, 128, 0, 32);
    SubSlice(p, 0, 128, 32, 32);
    SubSlice(p, 0, 128, 64, 32);
    SubSlice(p, 0, 128, 96, 32);
    assert p[..32] == Slice(p, 0, 128)[..32];
  }

  /** A valid report makes a valid public payload. */
  lemma ResultPayloadValid(identity: seq<byte>, r: seq<byte>)
    requires |identity| == 128 && IdentityValid(identity) && PrivateResultValid(r)
    ensures PayloadValid(RUN_RESULT, ResultPayload(identity, r))
  {
    var p := ResultPayload(identity, r);
    PayloadSays(identity, r);
    IdentitySlice(p, identity);
    PayloadHead(p, VerdictOf(r));
    VerdictShape(r);
    ZeroField(Slice(p, 146, 2));
    assert ResultHeadValid(p);
    PayloadRule(RUN_RESULT, p);
  }

  lemma VerdictShape(r: seq<byte>)
    requires PrivateResultValid(r)
    ensures var v := VerdictOf(r);
            && 1 <= F16(v, 0) <= 9 && 1 <= F16(v, 2) <= 3 && F16(v, 12) == F16(v, 0) && AllZero(Slice(v, 14, 2))
            && F64(v, 16) != 0
  {}

  lemma ErrorParts(d: seq<byte>, ph: seq<byte>, a: seq<byte>, c: seq<byte>, st: seq<byte>, t: seq<byte>, g: seq<byte>)
    requires |d| == 128 && |ph| == 2 && |a| == 2 && |c| == 2 && |st| == 2 && |t| == 4 && |g| == 84
    ensures var p := d + (ph + a + c + st) + t + Zeros(44) + g;
            && |p| == ERROR_BYTES && Slice(p, 0, 128) == d && Slice(p, 128, 2) == ph && Slice(p, 130, 2) == a
            && Slice(p, 132, 2) == c && Slice(p, 134, 2) == st && p[136] == t[0] && p[137] == t[1] && p[138] == t[2]
            && p[139] == t[3] && AllZero(Slice(p, 140, 4)) && AllZero(Slice(p, ERROR_COST, 40))
            && Slice(p, ERROR_STAGE, STAGE_BYTES) == g
  {}

  lemma ErrorSays(identity: seq<byte>, code: u16, stage: u16, g: seq<byte>)
    requires |identity| == 128 && |g| == STAGE_BYTES
    ensures var p := ErrorPayload(identity, code, stage, g);
            && Slice(p, 0, 128) == identity && F16(p, 128) == PHASE_TERMINAL && F16(p, 130) == ERROR_AMBIGUOUS
            && F16(p, 132) == code && F16(p, 134) == stage && p[136] == TRI_TRUE && p[137] == TRI_FALSE && p[138] == 0
            && p[139] == 1 && Zero(p, 140, 4) && Zero(p, ERROR_COST, 40) && Slice(p, ERROR_STAGE, STAGE_BYTES) == g
  {
    ErrorParts(identity, U16(PHASE_TERMINAL), U16(ERROR_AMBIGUOUS), U16(code), U16(stage),
               [TRI_TRUE, TRI_FALSE, 0, 1], g);
  }

  lemma ErrorPayloadValid(identity: seq<byte>, code: u16, stage: u16, g: seq<byte>)
    requires |identity| == 128 && IdentityValid(identity) && |g| == STAGE_BYTES && StageValid(g)
    requires 1 <= code <= 9 && 1 <= stage <= 7
    ensures PayloadValid(RUN_ERROR, ErrorPayload(identity, code, stage, g))
  {
    var p := ErrorPayload(identity, code, stage, g);
    ErrorSays(identity, code, stage, g);
    IdentitySlice(p, identity);
    assert ErrorHeadValid(p);
    PayloadRule(RUN_ERROR, p);
  }

  predicate Matches(r: seq<byte>, identity: seq<byte>, token: seq<byte>) {
    && |r| == REPORT_BYTES && |identity| == 128 && |token| == 32
    && IdentityValid(identity) && !AllZero(token)
    && Slice(r, 16, 128) == identity && Slice(r, 144, 32) == token
  }

  /** Proofs about finalization see the two private validators as predicates; those that need their
    * definitions mention `PrivateResultValid` and `PrivateErrorValid`. */
  datatype Checks = Checks(result: seq<byte> -> bool, error: seq<byte> -> bool)

  ghost predicate AreChecks(c: Checks) {
    && (forall r {:trigger PrivateResultValid(r)} :: c.result(r) == PrivateResultValid(r))
    && (forall r {:trigger PrivateErrorValid(r)} :: c.error(r) == PrivateErrorValid(r))
  }

  ghost function ReportChecks(): (c: Checks)
    ensures AreChecks(c)
  {
    assert AreChecks(Checks((r: seq<byte>) => PrivateResultValid(r), (r: seq<byte>) => PrivateErrorValid(r)));
    var c :| AreChecks(c);
    c
  }

  ghost predicate ValidResult(r: seq<byte>) { ReportChecks().result(r) }
  ghost predicate ValidError(r: seq<byte>) { ReportChecks().error(r) }

  lemma ResultChecked(r: seq<byte>)
    ensures ValidResult(r) <==> PrivateResultValid(r)
  {}

  lemma ErrorChecked(r: seq<byte>)
    ensures ValidError(r) <==> PrivateErrorValid(r)
  {}

  /** `private_report_kind` */
  method ReportKind(r: seq<byte>) returns (isResult: bool, isError: bool)
    ensures isResult <==> ValidResult(r)
    ensures isError <==> ValidError(r)
    ensures !(isResult && isError)
  {
    isResult := PrivateResultValid(r);
    isError := PrivateErrorValid(r);
  }

  lemma OneKind(r: seq<byte>)
    ensures !(ValidResult(r) && ValidError(r))
  {
    assert ValidResult(r) == PrivateResultValid(r) && ValidError(r) == PrivateErrorValid(r);
  }

  datatype Verdict = Refused | Publish(kind: u16, payload: seq<byte>)

  /** `proc17_qa_controller_report_finalize`: what may be published about a report. */
  ghost function Finalize(r: seq<byte>, identity: seq<byte>, token: seq<byte>, w: Wait, o: Ending): Verdict {
    var clean := Cleanup(o, w);
    if !Matches(r, identity, token) || clean.None? then Refused
    else if ValidError(r) then
      if !clean.value then Refused
      else Publish(RUN_ERROR, ErrorPayload(identity, F16(r, 176), AT_POSTFLIGHT, StageOf(r)))
    else if !ValidResult(r) then Refused
    else if !clean.value then Publish(RUN_ERROR, ErrorPayload(identity, CLEANUP_INCOMPLETE, AT_CLEANUP, StageOf(r)))
    else Publish(RUN_RESULT, ResultPayload(identity, r))
  }

  lemma PublishedError(r: seq<byte>, identity: seq<byte>, code: u16, stage: u16)
    requires |identity| == 128 && IdentityValid(identity) && |r| == REPORT_BYTES
    requires ValidError(r) || ValidResult(r)
    requires (ValidError(r) && code == F16(r, 176)) || code == CLEANUP_INCOMPLETE
    requires 1 <= stage <= 7
    ensures PayloadValid(RUN_ERROR, ErrorPayload(identity, code, stage, StageOf(r)))
    ensures ErrorPayload(identity, code, stage, StageOf(r))[..128] == identity
  {
    ErrorStage(r);
    ErrorPayloadValid(identity, code, stage, StageOf(r));
    ErrorSays(identity, code, stage, StageOf(r));
  }

  lemma ErrorStage(r: seq<byte>)
    requires ValidError(r) || ValidResult(r)
    ensures |r| == REPORT_BYTES && StageValid(StageOf(r))
    ensures ValidError(r) ==> 1 <= F16(r, 176) <= 9
  {
    assert ValidResult(r) == PrivateResultValid(r);
    assert ValidError(r) == PrivateErrorValid(r);
  }

  lemma PublishedResult(r: seq<byte>, identity: seq<byte>)
    requires |identity| == 128 && IdentityValid(identity) && ValidResult(r)
    ensures |r| == REPORT_BYTES && PayloadValid(RUN_RESULT, ResultPayload(identity, r))
    ensures ResultPayload(identity, r)[..128] == identity
  {
    assert PrivateResultValid(r);
    ResultPayloadValid(identity, r);
    PayloadSays(identity, r);
  }

  /** Every flag of a complete cleanup. */
  const CLEANED := Ending(1, 1, 1, 1, 1)

  /** What the supervisor has seen of the controller once it has collected a record: closing the control descriptors
    * is what may still fail. */
  function AfterCollect(closes: bool): Ending { CLEANED.(authorityClosed := if closes then 1 else 0) }

  /** A whole record from a controller that did not fail, but whose cleanup is missing something. */
  predicate CutShort(o: Ending, w: Wait) {
    && o.recordComplete == 1 && o.pidfdRetained <= 1 && o.recordEof <= 1 && o.reaped <= 1 && o.authorityClosed <= 1
    && o != CLEANED && (o.reaped == 1 ==> w == Exited(0))
  }

  /** Whatever is published is a valid payload under the expected identity. A RESULT is published exactly for a
    * valid, matching result report after a complete cleanup and a clean exit; an ERROR exactly for a valid,
    * matching error report after the same, with its code, or for such a result report after a cleanup that is
    * missing something, with the code for that. */
  lemma FinalizeExact(r: seq<byte>, identity: seq<byte>, token: seq<byte>, w: Wait, o: Ending)
    ensures var v := Finalize(r, identity, token, w, o);
            var ended := w == Exited(0) && o == CLEANED;
            && (v.Publish? ==> PayloadValid(v.kind, v.payload) && |v.payload| >= 128 && v.payload[..128] == identity)
            && (v.Publish? ==> v.kind == RUN_RESULT || v.kind == RUN_ERROR)
            && (v.Publish? && v.kind == RUN_RESULT <==> Matches(r, identity, token) && ValidResult(r) && ended)
            && (v.Publish? && v.kind == RUN_RESULT ==> v.payload == ResultPayload(identity, r))
            && (v.Publish? && v.kind == RUN_ERROR <==>
                  Matches(r, identity, token) && ((ValidError(r) && ended) || (ValidResult(r) && CutShort(o, w))))
            && (v.Publish? && v.kind == RUN_ERROR ==>
                  v.payload == if ValidError(r) then ErrorPayload(identity, F16(r, 176), AT_POSTFLIGHT, StageOf(r))
                               else ErrorPayload(identity, CLEANUP_INCOMPLETE, AT_CLEANUP, StageOf(r)))
  {
    OneKind(r);
    var v := Finalize(r, identity, token, w, o);
    if v.Publish? {
      if v.kind == RUN_RESULT {
        PublishedResult(r, identity);
      } else if ValidError(r) {
        PublishedError(r, identity, F16(r, 176), AT_POSTFLIGHT);
      } else {
        PublishedError(r, identity, CLEANUP_INCOMPLETE, AT_CLEANUP);
      }
    }
  }

  method WriteResultPayload(identity: seq<byte>, r: seq<byte>) returns (p: seq<byte>)
    requires |identity| == 128 && |r| == REPORT_BYTES
    ensures p == ResultPayload(identity, r)
  {
    var a := new byte[RESULT_BYTES](_ => 0);
    ghost var done := Put(a, 0, identity, []);
    assert done == identity;
    done := Put(a, 128, U16(PHASE_TERMINAL), done);
    done := Put(a, 130, U16(1), done);
    assert done == identity + (U16(PHASE_TERMINAL) + U16(1));
    ghost var start := done;
    done := Put(a, 132, Slice(r, 176, 12), done);
    done := Put(a, 144, Slice(r, 188, 20), done);
    assert done == start + VerdictOf(r);
    done := Put(a, RESULT_FINALITY, Ones(8), done);
    WriteSections(a, r, done);
    BuiltAll(a[..], ResultPayload(identity, r));
    p := a[..];
  }

  method WriteSections(a: array<byte>, r: seq<byte>, ghost before: seq<byte>)
    requires a.Length == RESULT_BYTES && |r| == REPORT_BYTES && |before| == RESULT_STDOUT && Built(a[..], before)
    modifies a
    ensures Built(a[..], before + OutOf(r) + ErrOf(r) + ResourceOf(r) + ScratchOf(r) + StageOf(r))
  {
    ghost var done := Put(a, RESULT_STDOUT, OutOf(r), before);
    done := Put(a, RESULT_STDERR, ErrOf(r), done);
    done := Put(a, RESULT_RESOURCE, ResourceOf(r), done);
    done := Put(a, RESULT_SCRATCH, ScratchOf(r), done);
    done := Put(a, RESULT_STAGE, StageOf(r), done);
  }

  /** `encode_public_error`, up to the frame. */
  method WriteErrorPayload(identity: seq<byte>, code: u16, stage: u16, g: seq<byte>) returns (p: seq<byte>)
    requires |identity| == 128 && |g| == STAGE_BYTES
    ensures p == ErrorPayload(identity, code, stage, g)
  {
    var a := new byte[ERROR_BYTES](_ => 0);
    ghost var done := Put(a, 0, identity, []);
    assert done == identity;
    done := Put(a, 128, U16(PHASE_TERMINAL), done);
    done := Put(a, 130, U16(ERROR_AMBIGUOUS), done);
    done := Put(a, 132, U16(code), done);
    done := Put(a, 134, U16(stage), done);
    Assoc4(identity, U16(PHASE_TERMINAL), U16(ERROR_AMBIGUOUS), U16(code), U16(stage));
    done := Put(a, 136, [TRI_TRUE, TRI_FALSE, 0, 1], done);
    BuiltGap(a[..], done, 44);
    done := done + Zeros(44);
    done := Put(a, ERROR_STAGE, g, done);
    BuiltAll(a[..], done);
    p := a[..];
  }

  lemma Assoc4(x: seq<byte>, a: seq<byte>, b: seq<byte>, c: seq<byte>, d: seq<byte>)
    ensures x + a + b + c + d == x + (a + b + c + d)
  {}

  /** The frame that finalization writes decodes to the very payload, hence to the fields of the report. */
  method FinalizeFrame(r: seq<byte>, identity: seq<byte>, token: seq<byte>, w: Wait, o: Ending)
    returns (frame: Option<seq<byte>>)
    ensures var v := Finalize(r, identity, token, w, o);
            if v.Refused? then frame.None?
            else frame.Some? && DecodeRun(frame.value) == Some(View(v.kind, v.payload[..32], v.payload))
  {
    FinalizeExact(r, identity, token, w, o);
    var isResult, isError := ReportKind(r);
    var clean := Cleanup(o, w);
    if !Matches(r, identity, token) || clean.None? || (!isResult && !isError) || (isError && !clean.value) {
      return None;
    }
    var kind, payload := RUN_ERROR, [];
    if isError {
      payload := WriteErrorPayload(identity, F16(r, 176), AT_POSTFLIGHT, StageOf(r));
    } else if !clean.value {
      payload := WriteErrorPayload(identity, CLEANUP_INCOMPLETE, AT_CLEANUP, StageOf(r));
    } else {
      kind := RUN_RESULT;
      payload := WriteResultPayload(identity, r);
    }
    frame := EncodePublished(kind, payload);
  }

  method EncodePublished(kind: u16, payload: seq<byte>) returns (frame: Option<seq<byte>>)
    requires PayloadValid(kind, payload)
    ensures |payload| >= 32
    ensures frame.Some? && DecodeRun(frame.value) == Some(View(kind, payload[..32], payload))
  {
    RunFrameDecodes(kind, payload);
    var buffer := new byte[MAX_FRAME_BYTES];
    var ok, total := Wire.EncodeInto(kind, payload[..32], payload, buffer);
    frame := Some(buffer[..total]);
  }
}
