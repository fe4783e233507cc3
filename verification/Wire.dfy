/** The framed wire format: an 80-byte envelope around a payload, closed by the SHA-256 of what precedes
  * it, and the version 1 payload validators. */
module Wire {
  import opened Bytes
  import opened Wrappers
  import opened Sha256

  const ENVELOPE_BYTES: nat := 80
  const MAX_FRAME_BYTES: nat := 4096
  const MAX_PAYLOAD_BYTES: nat := 4016
  const HEAD_BYTES: nat := 48
  const VERSION: u16 := 0
  /** "P17QA0" and two zero bytes */
  const MAGIC: seq<byte> := [80, 49, 55, 81, 65, 48, 0, 0]

  const RUN_REQUEST: u16 := 5
  const RUN_STARTED: u16 := 6
  const RUN_RESULT: u16 := 7
  const RUN_ERROR: u16 := 8

  const REQUEST_FIXED_BYTES: nat := 238
  const STARTED_BYTES: nat := 252
  const RESULT_BYTES: nat := 512
  const ERROR_BYTES: nat := 268
  const STAGE_BYTES: nat := 84
  const STREAM_BYTES: nat := 64
  const RESOURCE_BYTES: nat := 88
  const SCRATCH_BYTES: nat := 40
  const IDENTITY_BYTES: nat := 128

  const STARTED_STAGE: nat := 168
  const RESULT_FINALITY: nat := 164
  const RESULT_STDOUT: nat := 172
  const RESULT_STDERR: nat := 236
  const RESULT_RESOURCE: nat := 300
  const RESULT_SCRATCH: nat := 388
  const RESULT_STAGE: nat := 428
  const ERROR_COST: nat := 144
  const ERROR_STAGE: nat := 184

  const PHASE_STARTED: u16 := 1
  const PHASE_TERMINAL: u16 := 2
  // error classes and stages
  const ERROR_UNAVAILABLE: u16 := 2
  const ERROR_AMBIGUOUS: u16 := 3
  const AT_SUPERVISION: u16 := 5
  const AT_POSTFLIGHT: u16 := 6
  const AT_CLEANUP: u16 := 7
  const TRI_UNKNOWN: byte := 1
  const TRI_FALSE: byte := 2
  const TRI_TRUE: byte := 3

  // --------------------------------------------------------------- fields

  function F16(b: seq<byte>, off: nat): u16 requires off + 2 <= |b| { GetU16(Slice(b, off, 2)) }
  function F32(b: seq<byte>, off: nat): u32 requires off + 4 <= |b| { GetU32(Slice(b, off, 4)) }
  function F64(b: seq<byte>, off: nat): u64 requires off + 8 <= |b| { GetU64(Slice(b, off, 8)) }
  predicate Zero(b: seq<byte>, off: nat, n: nat) requires off + n <= |b| { AllZero(Slice(b, off, n)) }
  predicate TriState(x: byte) { x == TRI_UNKNOWN || x == TRI_FALSE || x == TRI_TRUE }

  // ------------------------------------------------------------ envelopes

  predicate KindKnown(kind: u16) { 1 <= kind <= 8 }

  function Head(kind: u16, nonce: seq<byte>, payloadBytes: u32): (h: seq<byte>)
    requires |nonce| == 32
    ensures |h| == HEAD_BYTES
  {
    MAGIC + U16(VERSION) + U16(kind) + U32(payloadBytes) + nonce
  }

  /** `proc17_qa_wire_encode`: a frame is a function of kind, nonce and payload. */
  ghost function Encode(kind: u16, nonce: seq<byte>, payload: seq<byte>): (f: Option<seq<byte>>)
    requires |nonce| == 32
    ensures f.Some? <==> KindKnown(kind) && |payload| <= MAX_PAYLOAD_BYTES
    ensures f.Some? ==> |f.value| == ENVELOPE_BYTES + |payload|
  {
    if !KindKnown(kind) || |payload| > MAX_PAYLOAD_BYTES then None
    else
      var body := Head(kind, nonce, |payload|) + payload;
      Some(body + Digest(body))
  }

  datatype View = View(kind: u16, nonce: seq<byte>, payload: seq<byte>)

  predicate HeadMatches(h: seq<byte>, frameBytes: nat)
    requires |h| >= HEAD_BYTES
  {
    && Slice(h, 0, 8) == MAGIC
    && F16(h, 8) == VERSION && KindKnown(F16(h, 10))
    && F32(h, 12) <= MAX_PAYLOAD_BYTES
    && frameBytes == ENVELOPE_BYTES + F32(h, 12)
  }

  /** `proc17_qa_wire_decode` */
  ghost function Decode(frame: seq<byte>): Option<View> {
    if |frame| < ENVELOPE_BYTES || |frame| > MAX_FRAME_BYTES || !HeadMatches(frame, |frame|) then None
    else
      var n := |frame| - ENVELOPE_BYTES;
      if Digest(frame[..HEAD_BYTES + n]) != frame[HEAD_BYTES + n..] then None
      else Some(View(F16(frame, 10), Slice(frame, 16, 32), Slice(frame, HEAD_BYTES, n)))
  }

  lemma HeadFields(kind: u16, nonce: seq<byte>, n: u32, rest: seq<byte>)
    requires |nonce| == 32
    ensures var f := Head(kind, nonce, n) + rest;
            Slice(f, 0, 8) == MAGIC && F16(f, 8) == VERSION && F16(f, 10) == kind && F32(f, 12) == n
            && Slice(f, 16, 32) == nonce
  {
    Parts(MAGIC, U16(VERSION), U16(kind), U32(n), nonce, rest);
  }

  lemma Parts(m: seq<byte>, v: seq<byte>, k: seq<byte>, n: seq<byte>, nonce: seq<byte>, rest: seq<byte>)
    requires |m| == 8 && |v| == 2 && |k| == 2 && |n| == 4 && |nonce| == 32
    ensures var f := m + v + k + n + nonce + rest;
            Slice(f, 0, 8) == m && Slice(f, 8, 2) == v && Slice(f, 10, 2) == k && Slice(f, 12, 4) == n
            && Slice(f, 16, 32) == nonce
  {}

  lemma FieldsHead(f: seq<byte>)
    requires |f| >= HEAD_BYTES && Slice(f, 0, 8) == MAGIC && F16(f, 8) == VERSION
    ensures f[..HEAD_BYTES] == Head(F16(f, 10), Slice(f, 16, 32), F32(f, 12))
  {
    FieldInjective(Slice(f, 8, 2), U16(VERSION));
    FieldInjective(Slice(f, 10, 2), U16(F16(f, 10)));
    FieldInjective(Slice(f, 12, 4), U32(F32(f, 12)));
    assert f[..HEAD_BYTES] == Slice(f, 0, 8) + Slice(f, 8, 2) + Slice(f, 10, 2) + Slice(f, 12, 4) + Slice(f, 16, 32);
  }

  /** Decoding undoes encoding. */
  lemma DecodeEncode(kind: u16, nonce: seq<byte>, payload: seq<byte>)
    requires |nonce| == 32 && KindKnown(kind) && |payload| <= MAX_PAYLOAD_BYTES
    ensures Decode(Encode(kind, nonce, payload).value) == Some(View(kind, nonce, payload))
  {
    var head := Head(kind, nonce, |payload|);
    var d := Digest(head + payload);
    HeadFields(kind, nonce, |payload|, payload + d);
    FrameParts(head, payload, d);
  }

  lemma FrameParts(head: seq<byte>, payload: seq<byte>, d: seq<byte>)
    requires |head| == HEAD_BYTES
    ensures var f := head + payload + d;
            && f == head + (payload + d)
            && f[..HEAD_BYTES + |payload|] == head + payload
            && f[HEAD_BYTES + |payload|..] == d
            && Slice(f, HEAD_BYTES, |payload|) == payload
  {}

  /** Decoding accepts only what encoding emits. */
  lemma EncodeDecode(frame: seq<byte>)
    requires Decode(frame).Some?
    ensures var v := Decode(frame).value;
            |v.nonce| == 32 && Encode(v.kind, v.nonce, v.payload) == Some(frame)
  {
    FieldsHead(frame);
    PartsFrame(frame, |frame| - ENVELOPE_BYTES);
  }

  lemma PartsFrame(f: seq<byte>, n: nat)
    requires |f| == ENVELOPE_BYTES + n
    ensures f[..HEAD_BYTES] + Slice(f, HEAD_BYTES, n) == f[..HEAD_BYTES + n]
    ensures f == f[..HEAD_BYTES + n] + f[HEAD_BYTES + n..]
  {}

  /** `proc17_qa_wire_encode`, writing the frame at the start of the caller's buffer. */
  method EncodeInto(kind: u16, nonce: seq<byte>, payload: seq<byte>, output: array<byte>)
    returns (ok: bool, total: nat)
    requires |nonce| == 32 && output.Length == MAX_FRAME_BYTES
    modifies output
    ensures ok <==> Encode(kind, nonce, payload).Some?
    ensures ok ==> total <= output.Length && Encode(kind, nonce, payload) == Some(output[..total])
    ensures !ok ==> output[..] == old(output[..])
  {
    if !KindKnown(kind) || |payload| > MAX_PAYLOAD_BYTES {
      return false, 0;
    }
    var before := HEAD_BYTES + |payload|;
    total := before + 32;
    ghost var b0 := output[..];
    Copy(output, 0, MAGIC);
    PutU16(output, 8, VERSION);
    PutU16(output, 10, kind);
    PutU32(output, 12, |payload|);
    Copy(output, 16, nonce);
    if |payload| > 0 {
      Copy(output, HEAD_BYTES, payload);
    }
    Written(b0, MAGIC, U16(VERSION), U16(kind), U32(|payload|), nonce, payload, output[..]);
    var digest := OneShot(output[..before]);
    ghost var b1 := output[..];
    Copy(output, before, digest);
    assert output[..total] == b1[..before] + digest;
    ok := true;
  }

  lemma Written(b: seq<byte>, m: seq<byte>, v: seq<byte>, k: seq<byte>, n: seq<byte>, nonce: seq<byte>,
                payload: seq<byte>, r: seq<byte>)
    requires |m| == 8 && |v| == 2 && |k| == 2 && |n| == 4 && |nonce| == 32
    requires HEAD_BYTES + |payload| <= |b|
    requires var h := Splice(Splice(Splice(Splice(Splice(b, 0, m), 8, v), 10, k), 12, n), 16, nonce);
             r == if |payload| > 0 then Splice(h, HEAD_BYTES, payload) else h
    ensures r[..HEAD_BYTES + |payload|] == m + v + k + n + nonce + payload
  {
    var h1 := Splice(b, 0, m);
    Appended(b, [], m);
    var h2 := Splice(h1, 8, v);
    Appended(h1, m, v);
    var h3 := Splice(h2, 10, k);
    Appended(h2, m + v, k);
    var h4 := Splice(h3, 12, n);
    Appended(h3, m + v + k, n);
    var h5 := Splice(h4, 16, nonce);
    Appended(h4, m + v + k + n, nonce);
    if |payload| > 0 {
      Appended(h5, m + v + k + n + nonce, payload);
    }
  }

  lemma Appended(b: seq<byte>, done: seq<byte>, s: seq<byte>)
    requires |done| + |s| <= |b| && b[..|done|] == done
    ensures Splice(b, |done|, s)[..|done| + |s|] == done + s
    ensures done == [] ==> done + s == s
  {}

  /** `proc17_qa_wire_decode`, with its branch-free digest comparison. */
  method DecodeFrame(frame: seq<byte>) returns (view: Option<View>)
    ensures view == Decode(frame)
  {
    if |frame| < ENVELOPE_BYTES || |frame| > MAX_FRAME_BYTES || Slice(frame, 0, 8) != MAGIC {
      return None;
    }
    var kind, payloadBytes := F16(frame, 10), F32(frame, 12);
    if F16(frame, 8) != VERSION || !KindKnown(kind) || payloadBytes > MAX_PAYLOAD_BYTES
       || |frame| != ENVELOPE_BYTES + payloadBytes {
      return None;
    }
    var before := HEAD_BYTES + payloadBytes;
    var expected := OneShot(frame[..before]);
    var same := SameBytes(expected, frame[before..]);
    if !same {
      return None;
    }
    view := Some(View(kind, Slice(frame, 16, 32), Slice(frame, HEAD_BYTES, payloadBytes)));
  }

  // ------------------------------------------------- version 1 validators

  predicate IdentityValid(p: seq<byte>) requires |p| >= IDENTITY_BYTES {
    && !Zero(p, 0, 32) && !Zero(p, 32, 32) && !Zero(p, 64, 32) && !Zero(p, 96, 32)
  }

  predicate StageValid(s: seq<byte>) requires |s| == STAGE_BYTES {
    && F16(s, 0) == 1 && s[2] == 0 && s[3] == 0 && F32(s, 4) != 0
    && F64(s, 8) != 0 && F64(s, 16) != 0 && F64(s, 24) != 0 && F64(s, 32) != 0 && F64(s, 40) != 0
    && F64(s, 48) != 0 && F64(s, 56) != 0 && F64(s, 64) != 0 && F64(s, 72) != 0
    && Boolean(s[80]) && Boolean(s[81]) && s[82] == 0 && s[83] == 0
  }

  predicate StreamValid(s: seq<byte>) requires |s| == STREAM_BYTES {
    var observed, hashed, limit := F64(s, 0), F64(s, 8), F64(s, 16);
    && limit != 0 && hashed <= observed && hashed <= limit
    && !Zero(s, 24, 32) && Boolean(s[56]) && s[57] == 1 && s[58] == 0 && Zero(s, 59, 5)
    && (s[56] != 0 <==> observed > limit)
  }

  predicate ResourceValid(r: seq<byte>) requires |r| == RESOURCE_BYTES {
    && F64(r, 32) != 0 && F64(r, 48) != 0 && F64(r, 56) != 0 && F64(r, 64) != 0 && F64(r, 72) != 0
    && Boolean(r[80]) && Zero(r, 81, 7)
  }

  predicate ScratchValid(s: seq<byte>) requires |s| == SCRATCH_BYTES {
    var byteLimit, entryLimit := F64(s, 16), F64(s, 24);
    && byteLimit != 0 && entryLimit != 0
    && F64(s, 0) <= byteLimit && F64(s, 8) <= entryLimit
    && Boolean(s[32]) && Boolean(s[33]) && s[34] == 1 && Zero(s, 35, 5)
  }

  predicate RequestValid(p: seq<byte>) {
    && |p| >= REQUEST_FIXED_BYTES && IdentityValid(p)
    && var pathBytes := F16(p, 236);
       && 0 < pathBytes <= 1024 && |p| == REQUEST_FIXED_BYTES + pathBytes && F32(p, 232) == 0
       && 0 !in p[REQUEST_FIXED_BYTES..]
  }

  predicate StartedValid(p: seq<byte>) {
    && |p| == STARTED_BYTES && IdentityValid(p)
    && F16(p, 128) == PHASE_STARTED && F16(p, 130) == 1
    && p[132] == 1 && p[133] == 1 && p[134] == 0 && p[135] == 0
    && !Zero(p, 136, 32)
    && StageValid(Slice(p, STARTED_STAGE, STAGE_BYTES))
  }

  /** The scalar part of a result: reasons 1..9, terminations 1..3, the first cause repeats the reason. */
  predicate ResultHeadValid(p: seq<byte>) requires |p| == RESULT_BYTES {
    && F16(p, 128) == PHASE_TERMINAL && F16(p, 130) == 1
    && 1 <= F16(p, 132) <= 9 && 1 <= F16(p, 134) <= 3
    && F16(p, 144) == F16(p, 132) && F16(p, 146) == 0 && F64(p, 148) != 0
    && (forall i :: 0 <= i < 8 ==> Slice(p, RESULT_FINALITY, 8)[i] == 1)
  }

  predicate ResultValid(p: seq<byte>) {
    && |p| == RESULT_BYTES && IdentityValid(p) && ResultHeadValid(p)
    && StreamValid(Slice(p, RESULT_STDOUT, STREAM_BYTES))
    && StreamValid(Slice(p, RESULT_STDERR, STREAM_BYTES))
    && ResourceValid(Slice(p, RESULT_RESOURCE, RESOURCE_BYTES))
    && ScratchValid(Slice(p, RESULT_SCRATCH, SCRATCH_BYTES))
    && StageValid(Slice(p, RESULT_STAGE, STAGE_BYTES))
  }

  predicate ErrorHeadValid(p: seq<byte>) requires |p| == ERROR_BYTES {
    var phase := F16(p, 128);
    && (phase == PHASE_STARTED || phase == PHASE_TERMINAL)
    && 1 <= F16(p, 130) <= 3 && 1 <= F16(p, 132) <= 9 && 1 <= F16(p, 134) <= 7
    && TriState(p[136]) && TriState(p[137]) && Boolean(p[138]) && Boolean(p[139]) && Zero(p, 140, 4)
    && (phase == PHASE_STARTED ==> p[136] != TRI_TRUE)
    && (phase == PHASE_TERMINAL ==> p[136] == TRI_TRUE)
  }

  predicate ErrorValid(p: seq<byte>) {
    && |p| == ERROR_BYTES && IdentityValid(p) && ErrorHeadValid(p)
    && (p[138] == 0 ==> Zero(p, ERROR_COST, 40))
    && (if p[139] != 0 then StageValid(Slice(p, ERROR_STAGE, STAGE_BYTES)) else Zero(p, ERROR_STAGE, STAGE_BYTES))
  }

  /** `proc17_qa_wire_v1_payload_valid` */
  predicate PayloadOk(kind: u16, p: seq<byte>) {
    match kind
    case 5 => RequestValid(p)
    case 6 => StartedValid(p)
    case 7 => ResultValid(p)
    case 8 => ErrorValid(p)
    case _ => false
  }

  /** Proofs about frames see the validator as some predicate; those that need its definition
    * mention `PayloadOk`. */
  datatype Rules = Rules(valid: (u16, seq<byte>) -> bool)

  ghost predicate AreRules(r: Rules) {
    forall k, p {:trigger PayloadOk(k, p)} :: r.valid(k, p) == PayloadOk(k, p)
  }

  ghost function RunRules(): (r: Rules)
    ensures AreRules(r)
  {
    assert AreRules(Rules((k: u16, p: seq<byte>) => PayloadOk(k, p)));
    var r :| AreRules(r);
    r
  }

  ghost predicate PayloadValid(kind: u16, p: seq<byte>) { RunRules().valid(kind, p) }

  lemma PayloadRule(kind: u16, p: seq<byte>)
    ensures PayloadValid(kind, p) <==> PayloadOk(kind, p)
  {}

  lemma PayloadShape(kind: u16, p: seq<byte>)
    requires PayloadValid(kind, p)
    ensures RUN_REQUEST <= kind <= RUN_ERROR && REQUEST_FIXED_BYTES <= |p| <= MAX_PAYLOAD_BYTES
    ensures kind == RUN_STARTED ==> |p| == STARTED_BYTES
    ensures kind == RUN_RESULT ==> |p| == RESULT_BYTES
    ensures kind == RUN_ERROR ==> |p| == ERROR_BYTES
  {
    PayloadRule(kind, p);
  }

  ghost function EncodeRun(kind: u16, nonce: seq<byte>, payload: seq<byte>): (f: Option<seq<byte>>)
    requires |nonce| == 32
  {
    if PayloadValid(kind, payload) then Encode(kind, nonce, payload) else None
  }

  ghost function DecodeRun(frame: seq<byte>): (v: Option<View>) {
    var v := Decode(frame);
    if v.None? || !PayloadValid(v.value.kind, v.value.payload) then None
    else if (PayloadShape(v.value.kind, v.value.payload); v.value.nonce != v.value.payload[..32]) then None
    else v
  }

  /** `proc17_qa_wire_decode_run_v1` */
  method DecodeRunFrame(frame: seq<byte>) returns (view: Option<View>)
    ensures view == DecodeRun(frame)
  {
    view := DecodeFrame(frame);
    if view.Some? {
      var ok := CheckPayload(view.value.kind, view.value.payload);
      if !ok || view.value.nonce != view.value.payload[..32] {
        view := None;
      }
    }
  }

  method CheckPayload(kind: u16, payload: seq<byte>) returns (ok: bool)
    ensures ok <==> PayloadValid(kind, payload)
    ensures ok ==> |payload| >= IDENTITY_BYTES
  {
    ok := PayloadOk(kind, payload);
  }

  /** The frame of a run payload: the nonce is the first identity digest. */
  ghost function RunFrame(kind: u16, payload: seq<byte>): (f: seq<byte>)
    requires KindKnown(kind) && 32 <= |payload| <= MAX_PAYLOAD_BYTES
    ensures |f| == ENVELOPE_BYTES + |payload| <= MAX_FRAME_BYTES
  {
    Encode(kind, payload[..32], payload).value
  }

  /** The run decoder accepts exactly the frames the run encoder emits for a payload under its own nonce. */
  lemma DecodeRunExact(frame: seq<byte>, v: View)
    ensures DecodeRun(frame) == Some(v)
       <==> PayloadValid(v.kind, v.payload) && |v.payload| >= 32 && v.nonce == v.payload[..32]
            && EncodeRun(v.kind, v.nonce, v.payload) == Some(frame)
  {
    if DecodeRun(frame) == Some(v) {
      EncodeDecode(frame);
      PayloadShape(v.kind, v.payload);
    }
    if PayloadValid(v.kind, v.payload) && |v.payload| >= 32 && v.nonce == v.payload[..32]
       && EncodeRun(v.kind, v.nonce, v.payload) == Some(frame) {
      DecodeEncode(v.kind, v.nonce, v.payload);
    }
  }

  /** A run frame determines its kind and payload. */
  lemma RunFrameDecodes(kind: u16, payload: seq<byte>)
    requires PayloadValid(kind, payload)
    ensures KindKnown(kind) && 32 <= |payload| <= MAX_PAYLOAD_BYTES
    ensures DecodeRun(RunFrame(kind, payload)) == Some(View(kind, payload[..32], payload))
  {
    PayloadShape(kind, payload);
    DecodeEncode(kind, payload[..32], payload);
  }
}
