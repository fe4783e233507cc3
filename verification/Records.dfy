/** The fixed-size measurement records that the private report and the public result share. */
module Records {
  import opened Bytes
  import opened Wire
  import Stream

  const HEAP_BYTES: u64 := 67108864
  const ADDRESS_SPACE_BYTES: u64 := 268435456
  const MAX_PROCESSES: u64 := 1
  const MAX_OPEN_FILES: u64 := 64
  const MAX_FILE_BYTES: u64 := 16777216

  function Flag(b: bool): byte { if b then 1 else 0 }

  // ------------------------------------------------------------ streams

  function StreamBytes(m: Stream.Measurement): (s: seq<byte>)
    requires |m.digest| == 32
    ensures |s| == STREAM_BYTES
  {
    U64(m.observed) + U64(m.hashed) + U64(m.limit) + m.digest + [Flag(m.crossed), Flag(m.eof)] + Zeros(6)
  }

  lemma StreamFields(m: Stream.Measurement)
    requires |m.digest| == 32
    ensures var s := StreamBytes(m);
            && F64(s, 0) == m.observed && F64(s, 8) == m.hashed && F64(s, 16) == m.limit
            && Slice(s, 24, 32) == m.digest && s[56] == Flag(m.crossed) && s[57] == Flag(m.eof)
            && s[58] == 0 && Zero(s, 59, 5)
  {
    StreamParts(U64(m.observed), U64(m.hashed), U64(m.limit), m.digest, [Flag(m.crossed), Flag(m.eof)]);
  }

  lemma StreamParts(a: seq<byte>, b: seq<byte>, c: seq<byte>, d: seq<byte>, f: seq<byte>)
    requires |a| == 8 && |b| == 8 && |c| == 8 && |d| == 32 && |f| == 2
    ensures var s := a + b + c + d + f + Zeros(6);
            && Slice(s, 0, 8) == a && Slice(s, 8, 8) == b && Slice(s, 16, 8) == c && Slice(s, 24, 32) == d
            && s[56] == f[0] && s[57] == f[1] && s[58] == 0 && AllZero(Slice(s, 59, 5))
  {}

  /** The wire validator accepts a record exactly if its end was seen, its digest is not zero, the crossing is told
    * rightly and no more was hashed than observed or allowed; the measurement check asks in addition that all of that
    * was hashed. */
  lemma StreamRecord(m: Stream.Measurement)
    requires |m.digest| == 32
    ensures StreamValid(StreamBytes(m)) <==>
              && m.limit != 0 && m.eof && !AllZero(m.digest) && m.crossed == (m.observed > m.limit)
              && m.hashed <= Min(m.observed, m.limit)
    ensures Stream.MeasurementValid(m) && !AllZero(m.digest) <==>
              StreamValid(StreamBytes(m)) && m.hashed == Min(m.observed, m.limit)
  {
    StreamFields(m);
  }

  /** `proc17_qa_stream_encode_v1` */
  method EncodeStream(m: Stream.Measurement) returns (ok: bool, output: seq<byte>)
    requires |m.digest| == 32
    ensures ok <==> Stream.MeasurementValid(m) && !AllZero(m.digest)
    ensures ok ==> output == StreamBytes(m) && StreamValid(output)
  {
    if !Stream.MeasurementValid(m) {
      return false, [];
    }
    var a := new byte[STREAM_BYTES](_ => 0);
    ghost var done := Put(a, 0, U64(m.observed), []);
    assert done == U64(m.observed);
    done := Put(a, 8, U64(m.hashed), done);
    done := Put(a, 16, U64(m.limit), done);
    done := Put(a, 24, m.digest, done);
    done := Put(a, 56, [Flag(m.crossed), Flag(m.eof)], done);
    BuiltGap(a[..], done, 6);
    BuiltAll(a[..], done + Zeros(6));
    output := a[..];
    StreamRecord(m);
    ok := StreamValid(output);
  }

  // ---------------------------------------------------------- resources

  datatype Metrics = Metrics(wallMs: u64, userMs: u64, systemMs: u64, rssBytes: u64)

  datatype Snapshot = Snapshot(
    ceiling: u64, current: u64, peak: u64, denied: byte, systemFailed: byte, notificationFailed: byte)

  function ResourceBytes(m: Metrics, s: Snapshot): (r: seq<byte>)
    ensures |r| == RESOURCE_BYTES
  {
    (U64(m.wallMs) + U64(m.userMs) + U64(m.systemMs) + U64(m.rssBytes) + U64(ADDRESS_SPACE_BYTES))
    + (U64(s.peak) + U64(s.ceiling) + U64(MAX_PROCESSES) + U64(MAX_OPEN_FILES) + U64(MAX_FILE_BYTES))
    + ([s.denied] + Zeros(7))
  }

  lemma ResourceFields(m: Metrics, s: Snapshot)
    ensures var r := ResourceBytes(m, s);
            && F64(r, 0) == m.wallMs && F64(r, 8) == m.userMs && F64(r, 16) == m.systemMs && F64(r, 24) == m.rssBytes
            && F64(r, 32) == ADDRESS_SPACE_BYTES && F64(r, 40) == s.peak && F64(r, 48) == s.ceiling
            && F64(r, 56) == MAX_PROCESSES && F64(r, 64) == MAX_OPEN_FILES && F64(r, 72) == MAX_FILE_BYTES
            && r[80] == s.denied && Zero(r, 81, 7)
  {
    var x := U64(m.wallMs) + U64(m.userMs) + U64(m.systemMs) + U64(m.rssBytes) + U64(ADDRESS_SPACE_BYTES);
    var y := U64(s.peak) + U64(s.ceiling) + U64(MAX_PROCESSES) + U64(MAX_OPEN_FILES) + U64(MAX_FILE_BYTES);
    Five(U64(m.wallMs), U64(m.userMs), U64(m.systemMs), U64(m.rssBytes), U64(ADDRESS_SPACE_BYTES));
    Five(U64(s.peak), U64(s.ceiling), U64(MAX_PROCESSES), U64(MAX_OPEN_FILES), U64(MAX_FILE_BYTES));
    Halves(x, y, [s.denied] + Zeros(7));
  }

  lemma Five(a: seq<byte>, b: seq<byte>, c: seq<byte>, d: seq<byte>, e: seq<byte>)
    requires |a| == 8 && |b| == 8 && |c| == 8 && |d| == 8 && |e| == 8
    ensures var x := a + b + c + d + e;
            && Slice(x, 0, 8) == a && Slice(x, 8, 8) == b && Slice(x, 16, 8) == c && Slice(x, 24, 8) == d
            && Slice(x, 32, 8) == e
  {}

  lemma Halves(x: seq<byte>, y: seq<byte>, z: seq<byte>)
    requires |x| == 40 && |y| == 40 && |z| == 8
    ensures var r := x + y + z;
            && Slice(r, 0, 8) == Slice(x, 0, 8) && Slice(r, 8, 8) == Slice(x, 8, 8)
            && Slice(r, 16, 8) == Slice(x, 16, 8) && Slice(r, 24, 8) == Slice(x, 24, 8)
            && Slice(r, 32, 8) == Slice(x, 32, 8) && Slice(r, 40, 8) == Slice(y, 0, 8)
            && Slice(r, 48, 8) == Slice(y, 8, 8) && Slice(r, 56, 8) == Slice(y, 16, 8)
            && Slice(r, 64, 8) == Slice(y, 24, 8) && Slice(r, 72, 8) == Slice(y, 32, 8)
            && r[80] == z[0] && Slice(r, 81, 7) == z[1..]
  {}

  /** `encode_resource` */
  method EncodeResource(m: Metrics, s: Snapshot) returns (ok: bool, output: seq<byte>)
    ensures ok <==> s.ceiling != 0 && s.denied <= 1
    ensures ok ==> output == ResourceBytes(m, s) && ResourceValid(output)
  {
    var a := new byte[RESOURCE_BYTES](_ => 0);
    ghost var x := Put(a, 0, U64(m.wallMs), []);
    assert x == U64(m.wallMs);
    x := Put(a, 8, U64(m.userMs), x);
    x := Put(a, 16, U64(m.systemMs), x);
    x := Put(a, 24, U64(m.rssBytes), x);
    x := Put(a, 32, U64(ADDRESS_SPACE_BYTES), x);
    ghost var y := Put(a, 40, U64(s.peak), x);
    y := Put(a, 48, U64(s.ceiling), y);
    y := Put(a, 56, U64(MAX_PROCESSES), y);
    y := Put(a, 64, U64(MAX_OPEN_FILES), y);
    y := Put(a, 72, U64(MAX_FILE_BYTES), y);
    Assoc5(x, U64(s.peak), U64(s.ceiling), U64(MAX_PROCESSES), U64(MAX_OPEN_FILES), U64(MAX_FILE_BYTES));
    ghost var z := Put(a, 80, [s.denied], y);
    BuiltGap(a[..], z, 7);
    BuiltAll(a[..], z + Zeros(7));
    assert y + [s.denied] + Zeros(7) == y + ([s.denied] + Zeros(7));
    output := a[..];
    ResourceFields(m, s);
    ok := ResourceValid(output);
  }

  lemma Assoc5(x: seq<byte>, a: seq<byte>, b: seq<byte>, c: seq<byte>, d: seq<byte>, e: seq<byte>)
    ensures x + a + b + c + d + e == x + (a + b + c + d + e)
  {}

  // ------------------------------------------------------------ scratch

  datatype ScratchMeasurement = ScratchMeasurement(
    bytes: u64, entries: u64, limitBytes: u64, limitEntries: u64, byteFull: byte, entryFull: byte, complete: byte)

  /** `measurement_valid` of the scratch module. */
  predicate ScratchOk(m: ScratchMeasurement) {
    && m.limitBytes != 0 && m.limitEntries != 0 && m.bytes <= m.limitBytes && m.entries <= m.limitEntries
    && m.byteFull <= 1 && m.entryFull <= 1 && m.complete == 1
  }

  function ScratchBytes(m: ScratchMeasurement): (s: seq<byte>)
    ensures |s| == SCRATCH_BYTES
  {
    U64(m.bytes) + U64(m.entries) + U64(m.limitBytes) + U64(m.limitEntries) + [m.byteFull, m.entryFull, m.complete]
    + Zeros(5)
  }

  lemma ScratchFields(m: ScratchMeasurement)
    ensures var s := ScratchBytes(m);
            && F64(s, 0) == m.bytes && F64(s, 8) == m.entries && F64(s, 16) == m.limitBytes
            && F64(s, 24) == m.limitEntries && s[32] == m.byteFull && s[33] == m.entryFull && s[34] == m.complete
            && Zero(s, 35, 5)
  {
    ScratchParts(U64(m.bytes), U64(m.entries), U64(m.limitBytes), U64(m.limitEntries),
                 [m.byteFull, m.entryFull, m.complete]);
  }

  lemma ScratchParts(a: seq<byte>, b: seq<byte>, c: seq<byte>, d: seq<byte>, f: seq<byte>)
    requires |a| == 8 && |b| == 8 && |c| == 8 && |d| == 8 && |f| == 3
    ensures var s := a + b + c + d + f + Zeros(5);
            && Slice(s, 0, 8) == a && Slice(s, 8, 8) == b && Slice(s, 16, 8) == c && Slice(s, 24, 8) == d
            && s[32] == f[0] && s[33] == f[1] && s[34] == f[2] && AllZero(Slice(s, 35, 5))
  {}

  function DecodeScratch(s: seq<byte>): ScratchMeasurement
    requires |s| == SCRATCH_BYTES
  {
    ScratchMeasurement(F64(s, 0), F64(s, 8), F64(s, 16), F64(s, 24), s[32], s[33], s[34])
  }

  /** `proc17_qa_scratch_encode_v1` and `_decode_v1`: encoding succeeds exactly on valid measurements, and
    * decoding gives the measurement back. */
  lemma ScratchRoundTrip(m: ScratchMeasurement)
    ensures ScratchValid(ScratchBytes(m)) <==> ScratchOk(m)
    ensures DecodeScratch(ScratchBytes(m)) == m
  {
    ScratchFields(m);
  }

  /** A record the validator accepts is the encoding of what it decodes to. */
  lemma ScratchCanonical(s: seq<byte>)
    requires |s| == SCRATCH_BYTES && ScratchValid(s)
    ensures ScratchOk(DecodeScratch(s)) && ScratchBytes(DecodeScratch(s)) == s
  {
    FieldInjective(Slice(s, 0, 8), U64(F64(s, 0)));
    FieldInjective(Slice(s, 8, 8), U64(F64(s, 8)));
    FieldInjective(Slice(s, 16, 8), U64(F64(s, 16)));
    FieldInjective(Slice(s, 24, 8), U64(F64(s, 24)));
    ScratchWhole(s);
  }

  lemma ScratchWhole(s: seq<byte>)
    requires |s| == SCRATCH_BYTES && AllZero(Slice(s, 35, 5))
    ensures s == Slice(s, 0, 8) + Slice(s, 8, 8) + Slice(s, 16, 8) + Slice(s, 24, 8) + [s[32], s[33], s[34]] + Zeros(5)
  {
    assert Slice(s, 35, 5) == Zeros(5);
    assert s[32..35] == [s[32], s[33], s[34]];
    assert s == s[..8] + s[8..16] + s[16..24] + s[24..32] + s[32..35] + s[35..];
  }

  method EncodeScratch(m: ScratchMeasurement) returns (ok: bool, output: seq<byte>)
    ensures ok <==> ScratchOk(m)
    ensures ok ==> output == ScratchBytes(m) && ScratchValid(output)
  {
    if !ScratchOk(m) {
      return false, [];
    }
    var a := new byte[SCRATCH_BYTES](_ => 0);
    ghost var done := Put(a, 0, U64(m.bytes), []);
    assert done == U64(m.bytes);
    done := Put(a, 8, U64(m.entries), done);
    done := Put(a, 16, U64(m.limitBytes), done);
    done := Put(a, 24, U64(m.limitEntries), done);
    done := Put(a, 32, [m.byteFull, m.entryFull, m.complete], done);
    BuiltGap(a[..], done, 5);
    BuiltAll(a[..], done + Zeros(5));
    output := a[..];
    ScratchRoundTrip(m);
    ok := ScratchValid(output);
  }
}
