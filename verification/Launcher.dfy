/** The launcher's incremental reader of the public pipe: bytes arrive in arbitrary pieces, complete frames
  * are accepted or refused, and a terminal is concluded only from a whole, consistent run. */
module Launcher {
  import opened Bytes
  import opened Wrappers
  import opened Wire

  datatype Expectation = Expectation(
    identity: seq<byte>, device: u64, inode: u64, mountId: u64, policyFlags: u32)

  predicate ExpectationValid(e: Expectation) {
    && |e.identity| == IDENTITY_BYTES && IdentityValid(e.identity)
    && e.device != 0 && e.inode != 0 && e.mountId != 0 && e.policyFlags != 0
  }

  /** `stage_matches_source` */
  predicate StageMatches(s: seq<byte>, e: Expectation) requires |s| == STAGE_BYTES {
    && StageValid(s)
    && F32(s, 4) == e.policyFlags && F64(s, 8) == e.device && F64(s, 16) == e.inode && F64(s, 24) == e.mountId
    && F64(s, 32) == e.device && F64(s, 40) == e.inode
    && F64(s, 56) == F64(s, 32) && F64(s, 64) == F64(s, 40) && F64(s, 72) == F64(s, 48)
    && s[80] == 1 && s[81] == 1
  }

  // -------------------------------------------------- the machine as a fold

  datatype Machine = Machine(
    pending: seq<byte>, expected: nat, token: seq<byte>, stage: seq<byte>, terminal: seq<byte>, terminalKind: u16,
    started: bool, terminated: bool, failed: bool)

  const EMPTY := Machine([], 0, [], [], [], 0, false, false, false)

  /** The fields of a complete frame that the acceptance decision looks at. */
  datatype Frame =
    | StartedFrame(identity: seq<byte>, token: seq<byte>, stage: seq<byte>)
    | ResultFrame(identity: seq<byte>, stage: seq<byte>)
    | ErrorFrame(identity: seq<byte>, phase: u16, sourceKnown: bool, stage: seq<byte>)
    | OtherFrame

  function Fields(v: View): Frame
    requires |v.payload| >= IDENTITY_BYTES
    requires v.kind == RUN_STARTED ==> |v.payload| == STARTED_BYTES
    requires v.kind == RUN_RESULT ==> |v.payload| == RESULT_BYTES
    requires v.kind == RUN_ERROR ==> |v.payload| == ERROR_BYTES
  {
    var p := v.payload;
    var identity := Slice(p, 0, IDENTITY_BYTES);
    if v.kind == RUN_STARTED then StartedFrame(identity, Slice(p, 136, 32), Slice(p, STARTED_STAGE, STAGE_BYTES))
    else if v.kind == RUN_RESULT then ResultFrame(identity, Slice(p, RESULT_STAGE, STAGE_BYTES))
    else if v.kind == RUN_ERROR then ErrorFrame(identity, F16(p, 128), p[139] != 0, Slice(p, ERROR_STAGE, STAGE_BYTES))
    else OtherFrame
  }

  /** A decoded run frame, if the bytes are one. */
  ghost function Parsed(frame: seq<byte>): Option<Frame> {
    match DecodeRun(frame)
    case None => None
    case Some(v) => PayloadShape(v.kind, v.payload); Some(Fields(v))
  }

  predicate StageOk(s: seq<byte>, e: Expectation) { |s| == STAGE_BYTES && StageMatches(s, e) }

  /** Which frames may follow, given what has been accepted. */
  predicate Acceptable(f: Frame, started: bool, stage: seq<byte>, e: Expectation) {
    match f
    case StartedFrame(identity, _, s) => identity == e.identity && !started && StageOk(s, e)
    case ResultFrame(identity, s) => identity == e.identity && started && StageOk(s, e) && s == stage
    case ErrorFrame(identity, phase, known, s) =>
      && identity == e.identity
      && if phase == PHASE_STARTED then !started && (known ==> StageOk(s, e))
         else started && known && StageOk(s, e) && s == stage
    case OtherFrame => false
  }

  /** The effect of a complete frame, and the clearing of the buffer after it. */
  function Take(m: Machine, parsed: Option<Frame>, allowed: bool): Machine {
    if parsed.None? || !allowed then m.(failed := true)
    else if parsed.value.StartedFrame? then
      m.(pending := [], expected := 0, token := parsed.value.token, stage := parsed.value.stage, started := true)
    else
      m.(pending := [], expected := 0, terminal := m.pending,
         terminalKind := if parsed.value.ResultFrame? then RUN_RESULT else RUN_ERROR, terminated := true)
  }

  predicate Allowed(m: Machine, parsed: Option<Frame>, e: Expectation) {
    parsed.Some? && !m.terminated && Acceptable(parsed.value, m.started, m.stage, e)
  }

  /** `accept_complete_frame` */
  ghost function Accept(m: Machine, e: Expectation): Machine {
    var parsed := Parsed(m.pending);
    Take(m, parsed, Allowed(m, parsed, e))
  }

  /** What happens once the buffer holds a length prefix or a whole frame. */
  ghost function Settle(m: Machine, e: Expectation): Machine {
    if m.expected == 0 && |m.pending| == 16 then
      var payloadBytes := F32(m.pending, 12);
      if payloadBytes > MAX_PAYLOAD_BYTES then m.(failed := true)
      else m.(expected := ENVELOPE_BYTES + payloadBytes)
    else if m.expected != 0 && |m.pending| == m.expected then Accept(m, e)
    else m
  }

  ghost function FeedByte(m: Machine, e: Expectation, b: byte): Machine {
    if m.failed || m.terminated then m.(failed := true)
    else Settle(m.(pending := m.pending + [b]), e)
  }

  /** The reference reader: one byte at a time. */
  ghost function FeedAll(m: Machine, e: Expectation, bytes: seq<byte>): Machine {
    if bytes == [] then m
    else FeedByte(FeedAll(m, e, bytes[..|bytes| - 1]), e, bytes[|bytes| - 1])
  }

  function Target(m: Machine): nat { if m.expected == 0 then 16 else m.expected }

  ghost predicate Wf(m: Machine) {
    && |m.pending| <= MAX_FRAME_BYTES
    && (!m.failed ==> |m.pending| < Target(m) <= MAX_FRAME_BYTES)
    && (m.expected != 0 ==> m.expected >= ENVELOPE_BYTES && |m.pending| >= 16)
    && (!m.failed && m.terminated ==> m.pending == [])
  }

  /** The buffer never overflows. */
  lemma WfFeed(m: Machine, e: Expectation, b: byte)
    requires Wf(m)
    ensures Wf(FeedByte(m, e, b))
  {}

  lemma {:induction false} WfFeedAll(m: Machine, e: Expectation, bytes: seq<byte>)
    requires Wf(m)
    ensures Wf(FeedAll(m, e, bytes))
  {
    if bytes != [] {
      WfFeedAll(m, e, bytes[..|bytes| - 1]);
      WfFeed(FeedAll(m, e, bytes[..|bytes| - 1]), e, bytes[|bytes| - 1]);
    }
  }

  /** Splitting the input anywhere does not matter. */
  lemma {:induction false} FeedSplit(m: Machine, e: Expectation, a: seq<byte>, b: seq<byte>)
    ensures FeedAll(m, e, a + b) == FeedAll(FeedAll(m, e, a), e, b)
  {
    if b == [] {
      assert a + b == a;
    } else {
      var init := b[..|b| - 1];
      assert (a + b)[..|a + b| - 1] == a + init;
      FeedSplit(m, e, a, init);
    }
  }

  /** A failed machine ignores everything. */
  lemma {:induction false} FailedSticks(m: Machine, e: Expectation, bytes: seq<byte>)
    requires m.failed
    ensures FeedAll(m, e, bytes) == m
  {
    if bytes != [] {
      FailedSticks(m, e, bytes[..|bytes| - 1]);
    }
  }

  lemma TerminatedFails(m: Machine, e: Expectation, bytes: seq<byte>)
    requires m.terminated && bytes != []
    ensures FeedAll(m, e, bytes) == m.(failed := true)
  {
    assert bytes == bytes[..1] + bytes[1..];
    FeedSplit(m, e, bytes[..1], bytes[1..]);
    assert bytes[..1][..0] == [];
    assert FeedAll(m, e, bytes[..1]) == m.(failed := true);
    FailedSticks(m.(failed := true), e, bytes[1..]);
  }

  /** Bytes that do not go beyond the target can be buffered in one piece. */
  lemma {:induction false} FeedPiece(m: Machine, e: Expectation, piece: seq<byte>)
    requires Wf(m) && !m.failed && !m.terminated
    requires 0 < |piece| <= Target(m) - |m.pending|
    ensures FeedAll(m, e, piece) == Settle(m.(pending := m.pending + piece), e)
  {
    var init, last := piece[..|piece| - 1], piece[|piece| - 1];
    var before := m.(pending := m.pending + init);
    if init == [] {
      assert m.pending + init == m.pending;
    } else {
      FeedPiece(m, e, init);
    }
    assert FeedAll(m, e, init) == before;
    assert m.pending + init + [last] == m.pending + piece;
  }

  method Classify(frame: seq<byte>) returns (f: Option<Frame>)
    ensures f == Parsed(frame)
  {
    var view := DecodeRunFrame(frame);
    if view.None? {
      return None;
    }
    PayloadShape(view.value.kind, view.value.payload);
    f := Some(Fields(view.value));
  }

  /** Once the machine has failed, or has its terminal and sees more bytes, the rest does not matter. */
  lemma RestIgnored(m: Machine, e: Expectation, bytes: seq<byte>, i: nat)
    requires i <= |bytes|
    ensures var n := FeedAll(m, e, bytes[..i]);
            (n.failed || (n.terminated && i < |bytes|)) ==> FeedAll(m, e, bytes) == n.(failed := true)
  {
    var n := FeedAll(m, e, bytes[..i]);
    assert bytes == bytes[..i] + bytes[i..];
    FeedSplit(m, e, bytes[..i], bytes[i..]);
    if n.failed {
      FailedSticks(n, e, bytes[i..]);
    } else if n.terminated && i < |bytes| {
      TerminatedFails(n, e, bytes[i..]);
    }
  }

  lemma FeedMore(m: Machine, e: Expectation, bytes: seq<byte>, i: nat, j: nat)
    requires i <= j <= |bytes|
    ensures FeedAll(m, e, bytes[..j]) == FeedAll(FeedAll(m, e, bytes[..i]), e, bytes[i..j])
  {
    FeedSplit(m, e, bytes[..i], bytes[i..j]);
    assert bytes[..i] + bytes[i..j] == bytes[..j];
  }

  // ------------------------------------------------------ the real machine

  class Reader {
    const e: Expectation
    const buffer: array<byte>
    var pendingBytes: nat
    var expected: nat
    var token: seq<byte>
    var stage: seq<byte>
    var terminal: seq<byte>
    var terminalKind: u16
    var started: bool
    var terminated: bool
    var failed: bool

    ghost predicate Valid()
      reads this, buffer
    {
      buffer.Length == MAX_FRAME_BYTES && pendingBytes <= MAX_FRAME_BYTES && Wf(State())
    }

    ghost function State(): Machine
      reads this, buffer
      requires pendingBytes <= buffer.Length
    {
      Machine(buffer[..pendingBytes], expected, token, stage, terminal, terminalKind, started, terminated, failed)
    }

    function Snapshot(): (m: Machine)
      reads this, buffer
      requires pendingBytes <= buffer.Length
      ensures m == State()
    {
      Machine(buffer[..pendingBytes], expected, token, stage, terminal, terminalKind, started, terminated, failed)
    }

    constructor (e: Expectation)
      ensures Valid() && State() == EMPTY && this.e == e && fresh(buffer)
    {
      this.e := e;
      buffer := new byte[MAX_FRAME_BYTES](_ => 0);
      pendingBytes, expected := 0, 0;
      token, stage, terminal, terminalKind := [], [], [], 0;
      started, terminated, failed := false, false, false;
    }

    /** `accept_complete_frame` and the reset after it. */
    method AcceptFrame() returns (ok: bool)
      requires Valid0() && !failed && expected >= ENVELOPE_BYTES && pendingBytes == expected
      modifies this, buffer
      ensures Valid() && State() == Accept(old(State()), e) && ok == !failed
    {
      var parsed := Classify(buffer[..pendingBytes]);
      var allowed := parsed.Some? && !terminated && Acceptable(parsed.value, started, stage, e);
      ok := Store(parsed, allowed);
    }

    method Store(parsed: Option<Frame>, allowed: bool) returns (ok: bool)
      requires Valid0() && !failed && expected >= ENVELOPE_BYTES && pendingBytes == expected
      modifies this, buffer
      ensures Valid() && State() == Take(old(State()), parsed, allowed) && ok == !failed
    {
      if parsed.None? || !allowed {
        failed := true;
        return false;
      }
      if parsed.value.StartedFrame? {
        token, stage, started := parsed.value.token, parsed.value.stage, true;
      } else {
        terminal, terminated := buffer[..pendingBytes], true;
        terminalKind := if parsed.value.ResultFrame? then RUN_RESULT else RUN_ERROR;
      }
      Copy(buffer, 0, Zeros(pendingBytes));
      pendingBytes, expected := 0, 0;
      ok := true;
    }

    ghost predicate Valid0()
      reads this, buffer
    {
      buffer.Length == MAX_FRAME_BYTES && pendingBytes <= MAX_FRAME_BYTES
    }

    /** One turn of the loop of `feed_public_bytes`, with `piece` within the target. */
    method Buffer(piece: seq<byte>) returns (ok: bool)
      requires Valid() && !failed && !terminated
      requires 0 < |piece| <= Target(State()) - pendingBytes
      modifies this, buffer
      ensures Valid() && State() == FeedAll(old(State()), e, piece) && ok == !failed
    {
      ghost var was := State();
      FeedPiece(was, e, piece);
      WfFeedAll(was, e, piece);
      Copied(buffer[..], pendingBytes, piece);
      Copy(buffer, pendingBytes, piece);
      pendingBytes := pendingBytes + |piece|;
      assert State() == was.(pending := was.pending + piece);
      if expected == 0 && pendingBytes == 16 {
        assert buffer[..pendingBytes][12..16] == buffer[12..16];
        var payloadBytes := GetU32(buffer[12..16]);
        if payloadBytes > MAX_PAYLOAD_BYTES {
          failed := true;
          return false;
        }
        expected := ENVELOPE_BYTES + payloadBytes;
      }
      ok := true;
      if expected != 0 && pendingBytes == expected {
        ok := AcceptFrame();
      }
    }

    /** `feed_public_bytes`: whatever the piece, the machine is where single bytes would have taken it. */
    method Feed(bytes: seq<byte>) returns (ok: bool)
      requires Valid()
      modifies this, buffer
      ensures Valid() && State() == FeedAll(old(State()), e, bytes)
      ensures bytes != [] ==> ok == !failed
    {
      ghost var was := State();
      var done := 0;
      assert bytes[..0] == [];
      while done < |bytes|
        invariant 0 <= done <= |bytes|
        invariant Valid() && State() == FeedAll(was, e, bytes[..done])
        invariant done > 0 ==> !failed
      {
        RestIgnored(was, e, bytes, done);
        if failed || terminated {
          failed := true;
          return false;
        }
        var target := if expected == 0 then 16 else expected;
        var next := done + Min(target - pendingBytes, |bytes| - done);
        FeedMore(was, e, bytes, done, next);
        var fine := Buffer(bytes[done..next]);
        done := next;
        if !fine {
          RestIgnored(was, e, bytes, done);
          return false;
        }
      }
      assert bytes[..|bytes|] == bytes;
      ok := true;
    }
  }

  lemma Copied(buffer: seq<byte>, used: nat, piece: seq<byte>)
    requires used + |piece| <= |buffer|
    ensures Splice(buffer, used, piece)[..used + |piece|] == buffer[..used] + piece
  {}
}
