/** The private status channel: 184-byte packets bound to one identity and one process token. */
module Status {
  import opened Bytes
  import opened Wrappers
  import Wire
  import Phase

  const PACKET_BYTES: nat := 184
  const VERSION: u16 := 1
  /** "P17QAST" and a zero byte */
  const MAGIC: seq<byte> := [80, 49, 55, 81, 65, 83, 84, 0]

  const READY: u16 := 1
  const RELEASE: u16 := 2
  const HEAP_DENIED: u16 := 3

  datatype Context = Context(identity: seq<byte>, token: seq<byte>)
  datatype Message = Message(kind: u16, sequence: u64)

  predicate ContextShape(c: Context) { |c.identity| == 128 && |c.token| == 32 }

  predicate ContextValid(c: Context) requires ContextShape(c) {
    Wire.IdentityValid(c.identity) && !AllZero(c.token)
  }

  function ExactSequence(kind: u16): u64 {
    match kind case 1 => 1 case 2 => 2 case 3 => 3 case _ => 0
  }

  function Packet(c: Context, m: Message): (p: seq<byte>)
    requires ContextShape(c)
    ensures |p| == PACKET_BYTES
  {
    MAGIC + U16(VERSION) + U16(m.kind) + U32(PACKET_BYTES) + U64(m.sequence) + c.identity + c.token
  }

  /** `proc17_qa_status_encode` */
  function Encode(c: Context, m: Message): Option<seq<byte>>
    requires ContextShape(c)
  {
    if ContextValid(c) && ExactSequence(m.kind) == m.sequence then Some(Packet(c, m)) else None
  }

  /** `decode` */
  function Decode(p: seq<byte>, c: Context): Option<Message>
    requires ContextShape(c) && |p| == PACKET_BYTES
  {
    if !ContextValid(c) || Slice(p, 0, 8) != MAGIC || Wire.F16(p, 8) != VERSION || Wire.F32(p, 12) != PACKET_BYTES
       || Slice(p, 24, 128) != c.identity || Slice(p, 152, 32) != c.token
    then None
    else
      var m := Message(Wire.F16(p, 10), Wire.F64(p, 16));
      if ExactSequence(m.kind) != m.sequence then None else Some(m)
  }

  lemma PacketFields(c: Context, m: Message)
    requires ContextShape(c)
    ensures var p := Packet(c, m);
            && Slice(p, 0, 8) == MAGIC && Wire.F16(p, 8) == VERSION && Wire.F16(p, 10) == m.kind
            && Wire.F32(p, 12) == PACKET_BYTES && Wire.F64(p, 16) == m.sequence
            && Slice(p, 24, 128) == c.identity && Slice(p, 152, 32) == c.token
  {
    Parts(MAGIC, U16(VERSION), U16(m.kind), U32(PACKET_BYTES), U64(m.sequence), c.identity, c.token);
  }

  lemma Parts(g: seq<byte>, v: seq<byte>, k: seq<byte>, n: seq<byte>, s: seq<byte>, id: seq<byte>, t: seq<byte>)
    requires |g| == 8 && |v| == 2 && |k| == 2 && |n| == 4 && |s| == 8 && |id| == 128 && |t| == 32
    ensures var p := g + v + k + n + s + id + t;
            && Slice(p, 0, 8) == g && Slice(p, 8, 2) == v && Slice(p, 10, 2) == k && Slice(p, 12, 4) == n
            && Slice(p, 16, 8) == s && Slice(p, 24, 128) == id && Slice(p, 152, 32) == t
  {}

  lemma FieldsPacket(p: seq<byte>)
    requires |p| == PACKET_BYTES && Slice(p, 0, 8) == MAGIC && Wire.F16(p, 8) == VERSION
    requires Wire.F32(p, 12) == PACKET_BYTES
    ensures p == Packet(Context(Slice(p, 24, 128), Slice(p, 152, 32)), Message(Wire.F16(p, 10), Wire.F64(p, 16)))
  {
    FieldInjective(Slice(p, 8, 2), U16(VERSION));
    FieldInjective(Slice(p, 10, 2), U16(Wire.F16(p, 10)));
    FieldInjective(Slice(p, 12, 4), U32(PACKET_BYTES));
    FieldInjective(Slice(p, 16, 8), U64(Wire.F64(p, 16)));
    Pieces(p);
  }

  lemma Pieces(p: seq<byte>)
    requires |p| == PACKET_BYTES
    ensures p == Slice(p, 0, 8) + Slice(p, 8, 2) + Slice(p, 10, 2) + Slice(p, 12, 4) + Slice(p, 16, 8)
                 + Slice(p, 24, 128) + Slice(p, 152, 32)
  {}

  /** A packet decodes to a message under a context exactly when it is that message's encoding under it. */
  lemma DecodeExact(p: seq<byte>, c: Context, m: Message)
    requires ContextShape(c) && |p| == PACKET_BYTES
    ensures Decode(p, c) == Some(m) <==> Encode(c, m) == Some(p)
  {
    if Encode(c, m) == Some(p) {
      PacketFields(c, m);
    }
    if Decode(p, c) == Some(m) {
      FieldsPacket(p);
      assert c == Context(Slice(p, 24, 128), Slice(p, 152, 32));
    }
  }

  /** A packet made for one process says nothing under another identity or token. */
  lemma ForeignPacket(c: Context, d: Context, m: Message)
    requires ContextShape(c) && ContextShape(d) && c != d
    ensures Decode(Packet(c, m), d) == None
  {
    PacketFields(c, m);
  }

  /** The packet format alone does not refuse unknown kinds: kind 9 with sequence 0 passes both ways. */
  lemma UnknownKindPasses(c: Context)
    requires ContextShape(c) && ContextValid(c)
    ensures Encode(c, Message(9, 0)) == Some(Packet(c, Message(9, 0)))
    ensures Decode(Packet(c, Message(9, 0)), c) == Some(Message(9, 0))
  {
    DecodeExact(Packet(c, Message(9, 0)), c, Message(9, 0));
  }

  /** The kind of a packet that decodes is one of the three exactly when its sequence field is not zero. */
  lemma KnownKind(p: seq<byte>, c: Context)
    requires ContextShape(c) && |p| == PACKET_BYTES && Decode(p, c).Some?
    ensures Decode(p, c).value.kind in {READY, RELEASE, HEAP_DENIED} <==> Wire.F64(p, 16) != 0
  {}

  /** `proc17_qa_status_encode`, filling the caller's packet. */
  method EncodeInto(c: Context, m: Message, output: array<byte>) returns (ok: bool)
    requires ContextShape(c) && output.Length == PACKET_BYTES
    modifies output
    ensures ok <==> Encode(c, m).Some?
    ensures ok ==> Encode(c, m) == Some(output[..])
    ensures !ok ==> output[..] == old(output[..])
  {
    if !ContextValid(c) || ExactSequence(m.kind) != m.sequence {
      return false;
    }
    Copy(output, 0, Zeros(PACKET_BYTES));
    ghost var b := output[..];
    Copy(output, 0, MAGIC);
    PutU16(output, 8, VERSION);
    PutU16(output, 10, m.kind);
    PutU32(output, 12, PACKET_BYTES);
    PutU64(output, 16, m.sequence);
    Copy(output, 24, c.identity);
    Copy(output, 152, c.token);
    Written(b, MAGIC, U16(VERSION), U16(m.kind), U32(PACKET_BYTES), U64(m.sequence), c.identity, c.token);
    ok := true;
  }

  lemma Written(b: seq<byte>, g: seq<byte>, v: seq<byte>, k: seq<byte>, n: seq<byte>, s: seq<byte>, id: seq<byte>,
                t: seq<byte>)
    requires |g| == 8 && |v| == 2 && |k| == 2 && |n| == 4 && |s| == 8 && |id| == 128 && |t| == 32 && |b| == PACKET_BYTES
    ensures Splice(Splice(Splice(Splice(Splice(Splice(Splice(b, 0, g), 8, v), 10, k), 12, n), 16, s), 24, id), 152, t)
         == g + v + k + n + s + id + t
  {
    var h1 := Splice(b, 0, g);
    Wire.Appended(b, [], g);
    var h2 := Splice(h1, 8, v);
    Wire.Appended(h1, g, v);
    var h3 := Splice(h2, 10, k);
    Wire.Appended(h2, g + v, k);
    var h4 := Splice(h3, 12, n);
    Wire.Appended(h3, g + v + k, n);
    var h5 := Splice(h4, 16, s);
    Wire.Appended(h4, g + v + k + n, s);
    var h6 := Splice(h5, 24, id);
    Wire.Appended(h5, g + v + k + n + s, id);
    Wire.Appended(h6, g + v + k + n + s + id, t);
  }

  datatype Received = ReceiveError | Idle | Got(message: Message) | EndOfFile
  datatype PacketRead = Datagram(bytes: seq<byte>) | WouldBlock | Closed | ReadFault

  /** `proc17_qa_status_receive`: a packet of any other size, or one that does not decode, is an error. */
  method Receive(input: PacketRead, c: Context, nonblocking: bool) returns (r: Received)
    requires ContextShape(c)
    ensures forall m :: r == Got(m) <==> input.Datagram? && ContextValid(c) && Encode(c, m) == Some(input.bytes)
    ensures r == Idle <==> ContextValid(c) && input.WouldBlock? && nonblocking
    ensures r == EndOfFile <==> ContextValid(c) && input.Closed?
  {
    if !ContextValid(c) {
      return ReceiveError;
    }
    match input {
      case WouldBlock => return if nonblocking then Idle else ReceiveError;
      case Closed => return EndOfFile;
      case ReadFault => return ReceiveError;
      case Datagram(bytes) =>
        if |bytes| != PACKET_BYTES {
          return ReceiveError;
        }
        forall m ensures Decode(bytes, c) == Some(m) <==> Encode(c, m) == Some(bytes) {
          DecodeExact(bytes, c, m);
        }
        var m := Decode(bytes, c);
        r := if m.None? then ReceiveError else Got(m.value);
    }
  }

  /** `proc17_qa_status_accept_ready` */
  method AcceptReady(m: Message, phase: Phase.PhaseState) returns (ok: bool)
    modifies phase
    ensures ok <==> m == Message(READY, 1) && Phase.ReadyAccepted(old(phase.View()))
    ensures phase.View() == if m == Message(READY, 1) then Phase.ReadyStep(old(phase.View())) else old(phase.View())
  {
    if m.kind != READY || m.sequence != 1 {
      return false;
    }
    ok := phase.ObserveReady();
  }
}
