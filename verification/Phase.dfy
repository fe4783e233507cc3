/** The controller's phase state, the first-cause claim, the finality mask and the resolution of one
  * observation epoch into at most one cause. */
module Phase {
  import opened Bytes

  const EXPECTED_EXIT: u16 := 1
  const UNEXPECTED_EXIT: u16 := 2
  const SIGNAL: u16 := 3
  const WALL_TIMEOUT: u16 := 4
  const CPU_LIMIT: u16 := 5
  const MEMORY_LIMIT: u16 := 6
  const OUTPUT_LIMIT: u16 := 7
  const SCRATCH_LIMIT: u16 := 8
  const POLICY_VIOLATION: u16 := 9

  const SIGXCPU: nat := 24
  const SIGSYS: nat := 31

  /** The bits of the finality mask. */
  datatype Finality =
    | SourceStaged | CandidateStarted | CandidateTerminal | ProcessTreeReaped | StdoutEof | StderrEof
    | ScratchObserved | NamespaceClean

  const CONTROLLER_FINALITY: set<Finality> :=
    {SourceStaged, CandidateStarted, CandidateTerminal, ProcessTreeReaped, StdoutEof, StderrEof, ScratchObserved}

  datatype Cause = Cause(kind: u16, sequence: u64, value: u64)
  const NO_CAUSE := Cause(0, 0, 0)

  datatype Phase = Phase(next: u64, cause: Cause, mask: set<Finality>, attested: bool, authorized: bool)
  const INIT := Phase(0, NO_CAUSE, {}, false, false)

  /** READY was accepted, the release authorised, and nothing observed yet. */
  const RELEASED := Phase(0, NO_CAUSE, {SourceStaged, CandidateStarted}, true, true)

  // ------------------------------------------------- one observation epoch

  datatype WaitStatus = Exited(code: byte) | Killed(signal: byte) | Neither

  datatype Epoch = Epoch(
    stdoutCrossed: byte, stderrCrossed: byte, heapDenied: byte, wallExpired: byte, terminal: byte,
    wait: WaitStatus, stdoutBytes: u64, stderrBytes: u64, heapPeak: u64, wallLimit: u64)

  /** The cause a wait status stands for. */
  function TerminalCause(w: WaitStatus): (kind: u16)
    requires !w.Neither?
  {
    match w
    case Exited(code) => if code == 0 then EXPECTED_EXIT else UNEXPECTED_EXIT
    case Killed(signal) =>
      if signal == SIGXCPU then CPU_LIMIT else if signal == SIGSYS then POLICY_VIOLATION else SIGNAL
  }

  function TerminalValue(w: WaitStatus): u64
    requires !w.Neither?
  {
    match w case Exited(code) => code case Killed(signal) => signal
  }

  predicate EpochValid(e: Epoch) {
    && Boolean(e.stdoutCrossed) && Boolean(e.stderrCrossed) && Boolean(e.heapDenied)
    && Boolean(e.wallExpired) && Boolean(e.terminal)
    && (e.stdoutCrossed != 0 ==> e.stdoutBytes != 0)
    && (e.stderrCrossed != 0 ==> e.stderrBytes != 0)
    && (e.heapDenied != 0 ==> e.heapPeak != 0)
    && (e.wallExpired != 0 ==> e.wallLimit != 0)
    && (e.terminal != 0 ==> !e.wait.Neither?)
  }

  datatype Observation = Nothing | Saw(kind: u16, value: u64)

  /** The five observations of an epoch. */
  function Source(e: Epoch, i: nat): Observation {
    match i
    case 0 => if e.stdoutCrossed != 0 then Saw(OUTPUT_LIMIT, e.stdoutBytes) else Nothing
    case 1 => if e.stderrCrossed != 0 then Saw(OUTPUT_LIMIT, e.stderrBytes) else Nothing
    case 2 => if e.heapDenied != 0 then Saw(MEMORY_LIMIT, e.heapPeak) else Nothing
    case 3 => if e.wallExpired != 0 then Saw(WALL_TIMEOUT, e.wallLimit) else Nothing
    case 4 => if e.terminal != 0 && !e.wait.Neither? then Saw(TerminalCause(e.wait), TerminalValue(e.wait)) else Nothing
    case _ => Nothing
  }

  ghost predicate Observed(e: Epoch, kind: u16, value: u64) { exists i: nat :: Source(e, i) == Saw(kind, value) }

  ghost predicate Named(e: Epoch, kind: u16) { exists v: u64 :: Observed(e, kind, v) }

  /** Exactly one kind is named, and `value` is the greatest value seen for it. */
  ghost predicate OneCause(e: Epoch, kind: u16, value: u64) {
    && Observed(e, kind, value)
    && forall k: u16, v: u64 :: Observed(e, k, v) ==> k == kind && v <= value
  }

  ghost predicate Quiet(e: Epoch) { forall k: u16, v: u64 :: !Observed(e, k, v) }

  ghost predicate Conflicting(e: Epoch) { exists j, k :: j != k && Named(e, j) && Named(e, k) }

  datatype EpochResult = Invalid | NoCause | Claimed | AlreadySet | Ambiguous
  datatype ClaimResult = ClaimInvalid | ClaimAlreadySet | ClaimSet

  // ------------------------------------------------------- the phase state

  class PhaseState {
    var next: u64
    var cause: Cause
    var mask: set<Finality>
    var attested: bool
    var authorized: bool

    ghost function View(): Phase reads this { Phase(next, cause, mask, attested, authorized) }

    /** `proc17_qa_phase_init` */
    constructor ()
      ensures View() == INIT
    {
      next, cause, mask, attested, authorized := 0, NO_CAUSE, {}, false, false;
    }

    /** `proc17_qa_phase_mark_finality` */
    method Mark(member: Finality)
      modifies this`mask
      ensures View() == old(View()).(mask := old(mask) + {member})
    {
      mask := mask + {member};
    }

    /** `proc17_qa_phase_observe_started_ready` */
    method ObserveReady() returns (ok: bool)
      modifies this
      ensures View() == ReadyStep(old(View())) && ok == ReadyAccepted(old(View()))
    {
      if attested || authorized || cause.kind != 0 || mask != {} {
        return false;
      }
      attested := true;
      Mark(SourceStaged);
      Mark(CandidateStarted);
      ok := true;
    }

    /** `proc17_qa_phase_authorize_candidate` */
    method Authorize() returns (ok: bool)
      modifies this`authorized
      ensures View() == AuthorizeStep(old(View())) && ok == (old(attested) && !old(authorized))
    {
      ok := attested && !authorized;
      if ok {
        authorized := true;
      }
    }

    /** `proc17_qa_phase_claim_first_cause` */
    method Claim(kind: u16, value: u64) returns (r: ClaimResult)
      modifies this`next, this`cause
      ensures View() == ClaimStep(old(View()), kind, value)
      ensures r == ClaimSet <==> cause != old(cause)
      ensures r == ClaimSet ==> old(cause).kind == 0 && cause == Cause(kind, old(next) + 1, value)
      ensures r == ClaimInvalid <==> kind < 1 || kind > 9 || old(next) == U64_MAX
    {
      if kind < EXPECTED_EXIT || kind > POLICY_VIOLATION || next == U64_MAX {
        return ClaimInvalid;
      }
      next := next + 1;
      if cause.kind != 0 {
        return ClaimAlreadySet;
      }
      cause := Cause(kind, next, value);
      r := ClaimSet;
    }

    /** `proc17_qa_controller_resolve_epoch`: a cause is claimed exactly when the valid observations name one
      * distinct kind; it is claimed with the greatest value; otherwise the phase stays as it was. */
    method ResolveEpoch(e: Epoch) returns (r: EpochResult)
      requires cause.kind == 0 ==> next == 0
      modifies this`next, this`cause
      ensures View() == EpochStep(old(View()), e)
      ensures r == Invalid <==> !EpochValid(e)
      ensures r == AlreadySet <==> EpochValid(e) && old(cause).kind != 0
      ensures EpochValid(e) && old(cause).kind == 0 ==>
                && (r == Claimed <==> exists k, v :: OneCause(e, k, v))
                && (r == NoCause <==> Quiet(e))
                && (r == Ambiguous <==> Conflicting(e))
      ensures r == Claimed ==> OneCause(e, cause.kind, cause.value) && cause.sequence == 1
      ensures r != Claimed ==> View() == old(View())
    {
      if !EpochValid(e) {
        return Invalid;
      }
      if cause.kind != 0 {
        return AlreadySet;
      }
      Trichotomy(e);
      var clash, kind, value := Tally(e);
      TallyMeans(e, clash, kind, value);
      if clash {
        return Ambiguous;
      }
      if kind == 0 {
        return NoCause;
      }
      assert OneCause(e, kind, value);
      var claimed := Claim(kind, value);
      r := Claimed;
    }
  }

  /** The observations below `n` agree on `kind` (0 if there are none) and `value` is the greatest among
    * them; or two of them clash. */
  ghost predicate Tallied(e: Epoch, n: nat, clash: bool, kind: u16, value: u64) {
    if clash then Conflicting(e)
    else if kind == 0 then forall i: nat :: i < n ==> Source(e, i).Nothing?
    else
      && 1 <= kind <= 9 && Observed(e, kind, value)
      && forall i: nat :: i < n && Source(e, i).Saw? ==> Source(e, i).kind == kind && Source(e, i).value <= value
  }

  /** `add_cause` */
  method AddCause(candidate: u16, value: u64, kind: u16, best: u64) returns (clash: bool, kind': u16, best': u64)
    ensures clash <==> kind != 0 && kind != candidate
    ensures clash ==> kind' == kind && best' == best
    ensures !clash ==> kind' == candidate && best' == if kind != 0 && best > value then best else value
  {
    clash, kind', best' := false, kind, best;
    if kind == 0 {
      kind', best' := candidate, value;
    } else if kind != candidate {
      clash := true;
    } else if value > best {
      best' := value;
    }
  }

  /** One `if` of `resolve_epoch`: the observation is added if the epoch has it. */
  method Consider(e: Epoch, n: nat, kind: u16, value: u64) returns (clash: bool, kind': u16, value': u64)
    requires Tallied(e, n, false, kind, value) && n < 5
    ensures Tallied(e, n + 1, clash, kind', value')
  {
    clash, kind', value' := false, kind, value;
    var o := Source(e, n);
    if o.Saw? {
      assert Observed(e, o.kind, o.value) && Named(e, o.kind);
      assert kind != 0 ==> Named(e, kind);
      clash, kind', value' := AddCause(o.kind, o.value, kind, value);
    }
  }

  /** The accumulation of `resolve_epoch`, observation by observation. */
  method Tally(e: Epoch) returns (clash: bool, kind: u16, value: u64)
    requires EpochValid(e)
    ensures Tallied(e, 5, clash, kind, value)
  {
    clash, kind, value := Consider(e, 0, 0, 0);
    if !clash {
      clash, kind, value := Consider(e, 1, kind, value);
    }
    if !clash {
      clash, kind, value := Consider(e, 2, kind, value);
    }
    if !clash {
      clash, kind, value := Consider(e, 3, kind, value);
    }
    if !clash {
      clash, kind, value := Consider(e, 4, kind, value);
    }
  }

  lemma TallyMeans(e: Epoch, clash: bool, kind: u16, value: u64)
    requires Tallied(e, 5, clash, kind, value)
    ensures clash ==> Conflicting(e)
    ensures !clash && kind == 0 ==> Quiet(e)
    ensures !clash && kind != 0 ==> 1 <= kind <= 9 && OneCause(e, kind, value)
  {}

  /** The three outcomes of a valid epoch exclude each other. */
  lemma Trichotomy(e: Epoch)
    ensures Quiet(e) ==> !Conflicting(e) && !exists k, v :: OneCause(e, k, v)
    ensures Conflicting(e) ==> !exists k, v :: OneCause(e, k, v)
    ensures forall j, v, k, w :: OneCause(e, j, v) && OneCause(e, k, w) ==> j == k && v == w
  {}

  // ----------------------------------------------- all sequences of calls

  predicate ReadyAccepted(p: Phase) { !p.attested && !p.authorized && p.cause.kind == 0 && p.mask == {} }

  function ReadyStep(p: Phase): Phase {
    if ReadyAccepted(p) then p.(attested := true, mask := {SourceStaged, CandidateStarted}) else p
  }

  function AuthorizeStep(p: Phase): Phase {
    if p.attested && !p.authorized then p.(authorized := true) else p
  }

  function ClaimStep(p: Phase, kind: u16, value: u64): Phase {
    if kind < 1 || kind > 9 || p.next == U64_MAX then p
    else if p.cause.kind != 0 then p.(next := p.next + 1)
    else p.(next := p.next + 1, cause := Cause(kind, p.next + 1, value))
  }

  ghost function EpochStep(p: Phase, e: Epoch): Phase {
    if EpochValid(e) && p.cause.kind == 0 && exists k, v :: OneCause(e, k, v) then
      var k, v :| OneCause(e, k, v);
      ClaimStep(p, k, v)
    else p
  }

  datatype Call = Ready | Authorize | Claim(kind: u16, value: u64) | Mark(member: Finality) | Resolve(epoch: Epoch)

  ghost function Step(p: Phase, c: Call): Phase {
    match c
    case Ready => ReadyStep(p)
    case Authorize => AuthorizeStep(p)
    case Claim(kind, value) => ClaimStep(p, kind, value)
    case Mark(member) => p.(mask := p.mask + {member})
    case Resolve(epoch) => EpochStep(p, epoch)
  }

  ghost function Run(p: Phase, calls: seq<Call>): Phase {
    if calls == [] then p else Step(Run(p, calls[..|calls| - 1]), calls[|calls| - 1])
  }

  /** `proc17_qa_phase_controller_report_ready` */
  predicate ReportReady(p: Phase) {
    p.attested && p.authorized && p.cause.kind != 0 && p.cause.sequence != 0 && p.mask == CONTROLLER_FINALITY
  }

  ghost predicate Inv(p: Phase) {
    && (p.cause.kind == 0 <==> p.next == 0) && (p.cause.kind == 0 ==> p.cause == NO_CAUSE)
    && (p.cause.kind != 0 ==> p.cause.sequence == 1 && 1 <= p.cause.kind <= 9)
    && (p.attested ==> {SourceStaged, CandidateStarted} <= p.mask)
    && (p.authorized ==> p.attested)
  }

  lemma StepKeeps(p: Phase, c: Call)
    requires Inv(p)
    ensures Inv(Step(p, c))
    ensures p.mask <= Step(p, c).mask
    ensures p.cause.kind != 0 ==> Step(p, c).cause == p.cause
    ensures p.attested ==> Step(p, c).attested
    ensures p.authorized ==> Step(p, c).authorized
  {}

  /** In every call sequence from init: the sequence number of the first cause is 1. */
  lemma {:induction false} RunInv(calls: seq<Call>)
    ensures Inv(Run(INIT, calls))
  {
    if calls != [] {
      RunInv(calls[..|calls| - 1]);
      StepKeeps(Run(INIT, calls[..|calls| - 1]), calls[|calls| - 1]);
    }
  }

  /** Between any two moments of a run the mask only grows and a first cause never changes. */
  lemma {:induction false} RunMonotone(calls: seq<Call>, i: nat)
    requires i <= |calls|
    ensures var p, q := Run(INIT, calls[..i]), Run(INIT, calls);
            && p.mask <= q.mask && (p.cause.kind != 0 ==> q.cause == p.cause)
            && (p.attested ==> q.attested) && (p.authorized ==> q.authorized)
    decreases |calls|
  {
    if i == |calls| {
      assert calls[..i] == calls;
    } else {
      var init := calls[..|calls| - 1];
      RunMonotone(init, i);
      assert init[..i] == calls[..i];
      RunInv(init);
      StepKeeps(Run(INIT, init), calls[|calls| - 1]);
    }
  }

  /** READY is accepted only in the initial state: before any cause, mark or release. */
  lemma {:induction false} AttestedOnce(calls: seq<Call>)
    ensures Run(INIT, calls).attested <==>
              exists i :: 0 <= i < |calls| && calls[i] == Ready && Run(INIT, calls[..i]) == INIT
    ensures forall i, j :: 0 <= i < j < |calls| && ReadyAt(calls, i) && ReadyAt(calls, j) ==> false
  {
    if calls != [] {
      var n := |calls| - 1;
      var init := calls[..n];
      AttestedOnce(init);
      RunInv(init);
      forall i | 0 <= i < n ensures init[i] == calls[i] && init[..i] == calls[..i] {}
      assert Run(INIT, calls[..n]) == Run(INIT, init);
      if Run(INIT, init).attested {
        var i :| 0 <= i < n && init[i] == Ready && Run(INIT, init[..i]) == INIT;
        assert calls[i] == Ready && Run(INIT, calls[..i]) == INIT;
      }
      forall i, j | 0 <= i < j < |calls| && ReadyAt(calls, i) && ReadyAt(calls, j) ensures false {
        AttestedFrom(calls, i, j);
      }
    }
  }

  /** The call at `i` is a READY that is accepted. */
  ghost predicate ReadyAt(calls: seq<Call>, i: nat) requires i < |calls| {
    calls[i] == Ready && ReadyAccepted(Run(INIT, calls[..i]))
  }

  lemma AttestedFrom(calls: seq<Call>, i: nat, j: nat)
    requires i < j < |calls| && ReadyAt(calls, i)
    ensures Run(INIT, calls[..j]).attested
  {
    assert calls[..j][..i + 1] == calls[..i + 1] && calls[..i + 1][..i] == calls[..i];
    RunMonotone(calls[..j], i + 1);
  }

  /** A controller report is ready only after READY was accepted, once, before any cause or finality mark. */
  lemma ReportReadyHistory(calls: seq<Call>)
    requires ReportReady(Run(INIT, calls))
    ensures exists i :: 0 <= i < |calls| && calls[i] == Ready && Run(INIT, calls[..i]) == INIT
                        && forall j :: 0 <= j < |calls| && j != i ==> !ReadyAt(calls, j)
    ensures Run(INIT, calls).cause.sequence == 1
  {
    AttestedOnce(calls);
    RunInv(calls);
    var i :| 0 <= i < |calls| && calls[i] == Ready && Run(INIT, calls[..i]) == INIT;
    assert ReadyAt(calls, i);
  }
}
