/** The shared telemetry with every atomic load and store as one step: the allocator writes, another process takes
  * a snapshot, in any interleaving. */
module Telemetry {
  import opened Bytes

  /** The atomic cells. */
  datatype Cells = Cells(current: u64, peak: u64, denied: bool, systemFailed: bool, notificationFailed: bool)

  /** Where the allocator is within one call. */
  datatype Writer =
    | Idle
    | StoreFreed(base: u64)                         // about to store the smaller total
    | LoadPeak(next: u64, before: u64)              // publish_peak: about to load
    | SwapPeak(seen: u64, next: u64, before: u64)   // publish_peak: about to compare and exchange
    | StoreNext(next: u64, before: u64)             // about to store the larger total
    | System(before: u64)                           // in malloc or realloc
    | StoreFailure(before: u64)
    | Restore(before: u64)
    | Exchange                                      // mark_ceiling_denied: about to exchange
    | Notify                                        // the first denial: in the callback
    | StoreUnnotified

  /** Where the snapshot is, with what it has loaded so far. */
  datatype Reader =
    | NotReading
    | HasCurrent(current: u64)
    | HasPeak(current: u64, peak: u64)
    | HasDenied(current: u64, peak: u64, denied: bool)
    | HasFailure(current: u64, peak: u64, denied: bool, failed: bool)
    | HasAll(current: u64, peak: u64, denied: bool, failed: bool, unnotified: bool)

  datatype State = State(cells: Cells, writer: Writer, reader: Reader)

  const BEGIN := State(Cells(0, 0, false, false, false), Idle, NotReading)

  datatype Action =
    | Free(base: u64) | Grow(next: u64) | Deny        // the allocator starts a call
    | Write(spurious: bool, succeeds: bool)           // the allocator takes its next step
    | Read                                            // the snapshot takes its next step

  /** The next step of a call under way. */
  function StepWriter(s: State, spurious: bool, succeeds: bool): State {
    var m := s.cells;
    match s.writer
    case Idle => s
    case StoreFreed(base) => s.(cells := m.(current := base), writer := Idle)
    case LoadPeak(next, before) =>
      s.(writer := if m.peak < next then SwapPeak(m.peak, next, before) else StoreNext(next, before))
    case SwapPeak(seen, next, before) =>
      if m.peak == seen && !spurious then s.(cells := m.(peak := next), writer := StoreNext(next, before))
      else s.(writer := if m.peak < next then SwapPeak(m.peak, next, before) else StoreNext(next, before))
    case StoreNext(next, before) => s.(cells := m.(current := next), writer := System(before))
    case System(before) => s.(writer := if succeeds then Idle else StoreFailure(before))
    case StoreFailure(before) => s.(cells := m.(systemFailed := true), writer := Restore(before))
    case Restore(before) => s.(cells := m.(current := before), writer := Idle)
    case Exchange => s.(cells := m.(denied := true), writer := if m.denied then Idle else Notify)
    case Notify => s.(writer := if succeeds then Idle else StoreUnnotified)
    case StoreUnnotified => s.(cells := m.(notificationFailed := true), writer := Idle)
  }

  /** `proc17_qa_allocator_snapshot`, load by load. */
  function StepReader(s: State): State {
    var m := s.cells;
    s.(reader :=
        match s.reader
        case NotReading => HasCurrent(m.current)
        case HasCurrent(c) => HasPeak(c, m.peak)
        case HasPeak(c, p) => HasDenied(c, p, m.denied)
        case HasDenied(c, p, d) => HasFailure(c, p, d, m.systemFailed)
        case HasFailure(c, p, d, f) => HasAll(c, p, d, f, m.notificationFailed)
        case HasAll(_, _, _, _, _) => NotReading)
  }

  function Step(s: State, a: Action, ceiling: u64): State {
    match a
    case Free(base) => if s.writer.Idle? && base <= s.cells.current then s.(writer := StoreFreed(base)) else s
    case Grow(next) => if s.writer.Idle? && next <= ceiling then s.(writer := LoadPeak(next, s.cells.current)) else s
    case Deny => if s.writer.Idle? then s.(writer := Exchange) else s
    case Write(spurious, succeeds) => StepWriter(s, spurious, succeeds)
    case Read => StepReader(s)
  }

  function Run(s: State, actions: seq<Action>, ceiling: u64): State {
    if actions == [] then s else Step(Run(s, actions[..|actions| - 1], ceiling), actions[|actions| - 1], ceiling)
  }

  /** The check at the end of the snapshot. */
  predicate Refused(r: Reader, ceiling: u64) {
    r.HasAll? && (r.current > r.peak || r.peak > ceiling || (r.unnotified && !r.denied))
  }

  // ------------------------------------------------------- the invariant

  /** The total a writer is about to store never exceeds the published peak. */
  predicate WriterOk(s: State, ceiling: u64) {
    match s.writer
    case StoreFreed(base) => base <= s.cells.peak
    case LoadPeak(next, before) => next <= ceiling && before <= s.cells.peak
    case SwapPeak(seen, next, before) => seen < next <= ceiling && seen == s.cells.peak && before <= s.cells.peak
    case StoreNext(next, before) => next <= s.cells.peak && before <= s.cells.peak
    case System(before) => before <= s.cells.peak
    case StoreFailure(before) => before <= s.cells.peak
    case Restore(before) => before <= s.cells.peak
    case Notify => s.cells.denied
    case StoreUnnotified => s.cells.denied
    case _ => true
  }

  predicate ReaderOk(s: State, ceiling: u64) {
    match s.reader
    case NotReading => true
    case HasCurrent(c) => c <= s.cells.peak
    case HasPeak(c, p) => c <= p <= s.cells.peak
    case HasDenied(c, p, d) => c <= p <= s.cells.peak && (d ==> s.cells.denied)
    case HasFailure(c, p, d, _) => c <= p <= s.cells.peak && (d ==> s.cells.denied)
    case HasAll(c, p, d, _, _) => c <= p <= s.cells.peak && (d ==> s.cells.denied)
  }

  predicate Inv(s: State, ceiling: u64) {
    && s.cells.current <= s.cells.peak <= ceiling && (s.cells.notificationFailed ==> s.cells.denied)
    && WriterOk(s, ceiling) && ReaderOk(s, ceiling)
  }

  lemma StepKeeps(s: State, a: Action, ceiling: u64)
    requires Inv(s, ceiling)
    ensures Inv(Step(s, a, ceiling), ceiling)
    ensures s.cells.peak <= Step(s, a, ceiling).cells.peak
    ensures s.cells.denied ==> Step(s, a, ceiling).cells.denied
  {}

  lemma {:induction false} RunKeeps(s: State, actions: seq<Action>, ceiling: u64)
    requires Inv(s, ceiling)
    ensures Inv(Run(s, actions, ceiling), ceiling)
  {
    if actions != [] {
      RunKeeps(s, actions[..|actions| - 1], ceiling);
      StepKeeps(Run(s, actions[..|actions| - 1], ceiling), actions[|actions| - 1], ceiling);
    }
  }

  /** What is left of a run without the snapshot's loads. */
  function Writes(actions: seq<Action>): seq<Action> {
    if actions == [] then []
    else Writes(actions[..|actions| - 1]) + if actions[|actions| - 1].Read? then [] else [actions[|actions| - 1]]
  }

  /** Loads are invisible to the allocator: its accesses lead to the same cells whatever a snapshot does meanwhile. */
  lemma {:induction false} LoadsInvisible(s: State, actions: seq<Action>, ceiling: u64)
    ensures Run(s, actions, ceiling).cells == Run(s, Writes(actions), ceiling).cells
    ensures Run(s, actions, ceiling).writer == Run(s, Writes(actions), ceiling).writer
  {
    if actions != [] {
      var init, last := actions[..|actions| - 1], actions[|actions| - 1];
      LoadsInvisible(s, init, ceiling);
      if last.Read? {
        assert Writes(init) + [] == Writes(init);
      } else {
        SameStep(Run(s, init, ceiling), Run(s, Writes(init), ceiling), last, ceiling);
        RunLast(s, Writes(init), last, ceiling);
      }
    }
  }

  lemma SameStep(s: State, t: State, a: Action, ceiling: u64)
    requires s.cells == t.cells && s.writer == t.writer && !a.Read?
    ensures Step(s, a, ceiling).cells == Step(t, a, ceiling).cells
    ensures Step(s, a, ceiling).writer == Step(t, a, ceiling).writer
  {}

  lemma RunLast(s: State, actions: seq<Action>, a: Action, ceiling: u64)
    ensures Run(s, actions + [a], ceiling) == Step(Run(s, actions, ceiling), a, ceiling)
  {
    assert (actions + [a])[..|actions + [a]| - 1] == actions;
  }

  /** Every snapshot, in every interleaving, reads current <= peak <= ceiling: it is refused only over the pair
    * of denial flags. */
  lemma SnapshotBounds(actions: seq<Action>, ceiling: u64)
    ensures var r := Run(BEGIN, actions, ceiling).reader;
            r.HasAll? ==> r.current <= r.peak <= ceiling && (Refused(r, ceiling) <==> r.unnotified && !r.denied)
  {
    RunKeeps(BEGIN, actions, ceiling);
  }

  // ------------------------------------------- the denial flags may clash

  /** The flags are loaded in the order in which they are stored, so a snapshot in mid-denial can be refused. */
  lemma MidDenialRefused(ceiling: u64)
    ensures Refused(Run(BEGIN, [Read, Read, Read, Deny, Write(false, false), Write(false, false), Write(false, false),
                                Read, Read], ceiling).reader, ceiling)
  {
    var s3 := Runs3(BEGIN, Read, Read, Read, ceiling);
    var s6 := Runs3(s3, Deny, Write(false, false), Write(false, false), ceiling);
    var s9 := Runs3(s6, Write(false, false), Read, Read, ceiling);
    RunSplit(BEGIN, [Read, Read, Read], [Deny, Write(false, false), Write(false, false)], ceiling);
    RunSplit(BEGIN, [Read, Read, Read] + [Deny, Write(false, false), Write(false, false)],
             [Write(false, false), Read, Read], ceiling);
    assert [Read, Read, Read] + [Deny, Write(false, false), Write(false, false)] + [Write(false, false), Read, Read]
        == [Read, Read, Read, Deny, Write(false, false), Write(false, false), Write(false, false), Read, Read];
  }

  lemma Runs3(s: State, a: Action, b: Action, c: Action, ceiling: u64) returns (t: State)
    ensures t == Step(Step(Step(s, a, ceiling), b, ceiling), c, ceiling) == Run(s, [a, b, c], ceiling)
  {
    t := Step(Step(Step(s, a, ceiling), b, ceiling), c, ceiling);
    assert [a, b, c][..2] == [a, b] && [a, b][..1] == [a] && [a][..0] == [];
    assert Run(s, [a], ceiling) == Step(s, a, ceiling);
    assert Run(s, [a, b], ceiling) == Step(Step(s, a, ceiling), b, ceiling);
  }

  lemma {:induction false} RunSplit(s: State, a: seq<Action>, b: seq<Action>, ceiling: u64)
    ensures Run(s, a + b, ceiling) == Run(Run(s, a, ceiling), b, ceiling)
  {
    if b == [] {
      assert a + b == a;
    } else {
      RunSplit(s, a, b[..|b| - 1], ceiling);
      assert (a + b)[..|a + b| - 1] == a + b[..|b| - 1];
    }
  }

  /** A snapshot that starts after the first denial is never refused, whatever happens during it. */
  lemma {:induction false} DeniedReaderSafe(s: State, actions: seq<Action>, ceiling: u64)
    requires Inv(s, ceiling) && s.cells.denied && s.reader.NotReading?
    ensures var r := Run(s, actions, ceiling).reader;
            && Run(s, actions, ceiling).cells.denied && !Refused(r, ceiling)
            && (r.HasDenied? || r.HasFailure? || r.HasAll? ==> r.denied)
  {
    if actions != [] {
      var init := actions[..|actions| - 1];
      DeniedReaderSafe(s, init, ceiling);
      RunKeeps(s, init, ceiling);
      StepKeeps(Run(s, init, ceiling), actions[|actions| - 1], ceiling);
    }
  }

  /** The steps that finish whatever call is under way. */
  function FinishCall(w: Writer): seq<Action> {
    var go := Write(false, true);
    match w
    case Idle => []
    case StoreFreed(_) => [go]
    case LoadPeak(_, _) => [go, go, go, go]
    case SwapPeak(_, _, _) => [go, go, go]
    case StoreNext(_, _) => [go, go]
    case System(_) => [go]
    case StoreFailure(_) => [go, go]
    case Restore(_) => [go]
    case _ => []
  }

  predicate Refuses(s: State, actions: seq<Action>, ceiling: u64) { Refused(Run(s, actions, ceiling).reader, ceiling) }

  /** Exactly as long as nothing has been denied yet, some interleaving refuses a snapshot that starts now. */
  lemma RefusalExact(s: State, ceiling: u64)
    requires Inv(s, ceiling) && s.reader.NotReading?
    ensures (exists actions :: Refuses(s, actions, ceiling)) <==> !s.cells.denied
  {
    if s.cells.denied {
      forall actions ensures !Refuses(s, actions, ceiling) {
        DeniedReaderSafe(s, actions, ceiling);
      }
    } else {
      var actions := RefusingRun(s, ceiling);
      assert Refuses(s, actions, ceiling);
    }
  }

  lemma RefusingRun(s: State, ceiling: u64) returns (actions: seq<Action>)
    requires Inv(s, ceiling) && s.reader.NotReading? && !s.cells.denied
    ensures Refused(Run(s, actions, ceiling).reader, ceiling)
  {
    var s3 := Runs3(s, Read, Read, Read, ceiling);
    var t := Finished(s3, ceiling);
    var begin := [Read, Read, Read] + FinishCall(s.writer);
    RunSplit(s, [Read, Read, Read], FinishCall(s.writer), ceiling);
    var rest := RefusingRest(t, ceiling);
    actions := begin + rest;
    RunSplit(s, begin, rest, ceiling);
  }

  lemma RefusingRest(t: State, ceiling: u64) returns (rest: seq<Action>)
    requires t.writer.Exchange? || t.writer.Idle?
    requires !t.cells.denied && t.reader.HasDenied? && !t.reader.denied
    ensures Refused(Run(t, rest, ceiling).reader, ceiling)
  {
    var deny: seq<Action> := if t.writer.Exchange? then [] else [Deny];
    var t' := t.(writer := Exchange);
    assert Run(t, deny, ceiling) == t' by { assert [Deny][..0] == []; }
    var end := RefusingEnd(t', ceiling);
    rest := deny + end;
    RunSplit(t, deny, end, ceiling);
  }

  lemma RefusingEnd(t: State, ceiling: u64) returns (end: seq<Action>)
    requires t.writer.Exchange? && !t.cells.denied && t.reader.HasDenied? && !t.reader.denied
    ensures Refused(Run(t, end, ceiling).reader, ceiling)
  {
    var fail := Write(false, false);
    var u := Runs3(t, fail, fail, fail, ceiling);
    var v := Runs3(u, Read, Read, fail, ceiling);
    end := [fail, fail, fail] + [Read, Read, fail];
    RunSplit(t, [fail, fail, fail], [Read, Read, fail], ceiling);
  }

  lemma Finished(s: State, ceiling: u64) returns (t: State)
    requires WriterOk(s, ceiling) && !s.writer.Notify? && !s.writer.StoreUnnotified?
    ensures t == Run(s, FinishCall(s.writer), ceiling)
    ensures t.reader == s.reader && t.cells.denied == s.cells.denied
    ensures t.writer == if s.writer.Exchange? then Exchange else Idle
  {
    t := Run(s, FinishCall(s.writer), ceiling);
    var go := Write(false, true);
    assert [go][..0] == [] && [go, go][..1] == [go] && [go, go, go][..2] == [go, go];
    assert [go, go, go, go][..3] == [go, go, go];
    var s1 := Step(s, go, ceiling);
    assert Run(s, [go], ceiling) == s1;
    var s2 := Step(s1, go, ceiling);
    assert Run(s, [go, go], ceiling) == s2;
    var s3 := Step(s2, go, ceiling);
    assert Run(s, [go, go, go], ceiling) == s3;
    assert Run(s, [go, go, go, go], ceiling) == Step(s3, go, ceiling);
  }
}
