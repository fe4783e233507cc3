/** The capped Lua allocator: what its counters say about the live blocks after every call. */
module Allocator {
  import opened Bytes
  import opened Wrappers
  import Telemetry

  const SIZE_MAX: u64 := U64_MAX

  /** Counters and flags of the telemetry, the sizes in the headers of the live blocks by address, and how often
    * the denial was notified. */
  datatype Heap = Heap(
    current: nat, peak: nat, denied: bool, systemFailed: bool, notificationFailed: bool,
    blocks: map<nat, nat>, notified: nat)

  const EMPTY := Heap(0, 0, false, false, false, map[], 0)

  // ----------------------------------------------------- sums of block sizes

  ghost function Sum(m: map<nat, nat>): nat {
    if m == map[] then 0
    else
      assert exists k :: k in m by { assert m.Keys != {}; }
      var k :| k in m;
      m[k] + Sum(m - {k})
  }

  lemma {:induction false} SumRemove(m: map<nat, nat>, k: nat)
    requires k in m
    ensures Sum(m) == m[k] + Sum(m - {k})
    decreases |m|
  {
    assert m != map[];
    var c :| c in m && Sum(m) == m[c] + Sum(m - {c});
    if c != k {
      SumRemove(m - {c}, k);
      SumRemove(m - {k}, c);
      assert m - {c} - {k} == m - {k} - {c};
    }
  }

  lemma SumAdd(m: map<nat, nat>, k: nat, v: nat)
    requires k !in m
    ensures Sum(m[k := v]) == v + Sum(m)
  {
    SumRemove(m[k := v], k);
    assert m[k := v] - {k} == m;
  }

  // ------------------------------------------------------------- one call

  /** A call of the allocator: the block or none, the new size, what malloc or realloc returns, and whether the
    * notification of a denial succeeds. */
  datatype Call = Call(pointer: Option<nat>, newSize: u64, system: Option<nat>, notifies: bool)

  /** Lua passes live blocks only, and the system hands out addresses that are not in use. */
  predicate CallShape(h: Heap, c: Call) {
    && (c.pointer.Some? ==> c.pointer.value in h.blocks)
    && (c.system.Some? && c.system.value in h.blocks ==> c.pointer == c.system)
  }

  function Without(h: Heap, pointer: Option<nat>): map<nat, nat> {
    if pointer.Some? then h.blocks - {pointer.value} else h.blocks
  }

  /** What a call does to the live blocks, in terms of sizes alone. */
  ghost function Step(h: Heap, c: Call, ceiling: u64, header: nat): Heap {
    var rest := Without(h, c.pointer);
    var want := Sum(rest) + c.newSize;
    if c.newSize == 0 then h.(current := Sum(rest), blocks := rest)
    else if want > ceiling || c.newSize > SIZE_MAX - header then
      h.(denied := true, notified := h.notified + (if h.denied then 0 else 1),
         notificationFailed := h.notificationFailed || (!h.denied && !c.notifies))
    else
      var peak := if want > h.peak then want else h.peak;
      if c.system.None? then h.(peak := peak, systemFailed := true)
      else h.(peak := peak, current := want, blocks := rest[c.system.value := c.newSize])
  }

  ghost predicate Valid(h: Heap, ceiling: u64) {
    && h.current == Sum(h.blocks) && h.current <= h.peak <= ceiling
    && h.notified == (if h.denied then 1 else 0) && (h.notificationFailed ==> h.denied)
  }

  /** A live block is never larger than the current total, so the `prior > current` branch is dead. */
  lemma PriorFits(h: Heap, p: nat)
    requires h.current == Sum(h.blocks) && p in h.blocks
    ensures h.blocks[p] <= h.current && h.current - h.blocks[p] == Sum(h.blocks - {p})
  {
    SumRemove(h.blocks, p);
  }

  lemma RestFits(h: Heap, pointer: Option<nat>)
    requires pointer.Some? ==> pointer.value in h.blocks
    ensures Sum(Without(h, pointer)) <= Sum(h.blocks)
  {
    if pointer.Some? {
      SumRemove(h.blocks, pointer.value);
    }
  }

  /** Conservation, the bound and the single notification are kept by every call. */
  lemma StepKeeps(h: Heap, c: Call, ceiling: u64, header: nat)
    requires Valid(h, ceiling) && CallShape(h, c) && c.newSize <= SIZE_MAX
    ensures Valid(Step(h, c, ceiling, header), ceiling)
    ensures h.peak <= Step(h, c, ceiling, header).peak
  {
    RestFits(h, c.pointer);
    if c.system.Some? {
      var rest := Without(h, c.pointer);
      assert c.system.value !in rest;
      SumAdd(rest, c.system.value, c.newSize);
    }
  }

  const GO := Telemetry.Write(false, true)

  class Allocator {
    const ceiling: u64
    const header: nat
    var current: u64
    var peak: u64
    var denied: bool
    var systemFailed: bool
    var notificationFailed: bool
    /** The `bytes` field of the header in front of each live block. */
    var blocks: map<nat, nat>
    ghost var notified: nat
    /** Every atomic access so far, as the shared telemetry sees it. */
    ghost var steps: seq<Telemetry.Action>
    /** Where these accesses have led it. */
    ghost var atoms: Telemetry.State

    ghost function View(): Heap
      reads this
    {
      Heap(current, peak, denied, systemFailed, notificationFailed, blocks, notified)
    }

    /** The shared telemetry holds these fields, and its writer is at this point of a call. */
    ghost predicate At(w: Telemetry.Writer)
      reads this
    {
      atoms == Telemetry.State(Telemetry.Cells(current, peak, denied, systemFailed, notificationFailed), w,
                               Telemetry.NotReading)
    }

    ghost predicate Traced()
      reads this`steps, this`atoms
    {
      atoms == Telemetry.Run(Telemetry.BEGIN, steps, ceiling)
    }

    /** The next atomic access. */
    ghost method Take(a: Telemetry.Action)
      requires Traced()
      modifies this`steps, this`atoms
      ensures Traced() && atoms == Telemetry.Step(old(atoms), a, ceiling)
    {
      Telemetry.RunLast(Telemetry.BEGIN, steps, a, ceiling);
      steps, atoms := steps + [a], Telemetry.Step(atoms, a, ceiling);
    }

    /** `proc17_qa_allocator_telemetry_init`, for a ceiling it accepts. */
    constructor (ceiling: u64, header: nat)
      requires 0 < ceiling <= SIZE_MAX && header <= SIZE_MAX
      ensures View() == EMPTY && Valid(View(), ceiling) && this.ceiling == ceiling && this.header == header
      ensures Traced() && At(Telemetry.Idle)
    {
      this.ceiling, this.header := ceiling, header;
      current, peak, blocks, notified := 0, 0, map[], 0;
      denied, systemFailed, notificationFailed := false, false, false;
      steps, atoms := [], Telemetry.BEGIN;
    }

    /** `publish_peak`: weak compare-and-exchange may fail spuriously, as often as `spurious` says. */
    method PublishPeak(value: u64, spurious: nat)
      requires Traced() && At(Telemetry.LoadPeak(value, current))
      modifies this`peak, this`steps, this`atoms
      ensures peak == if old(peak) < value then value else old(peak)
      ensures Traced() && At(Telemetry.StoreNext(value, current))
    {
      Take(GO);
      var seen := peak;
      var failures := spurious;
      while seen < value && failures > 0
        invariant Traced() && seen == peak == old(peak)
        invariant At(if seen < value then Telemetry.SwapPeak(seen, value, current)
                     else Telemetry.StoreNext(value, current))
      {
        Take(Telemetry.Write(true, true));
        failures := failures - 1;
        seen := peak;
      }
      if seen < value {
        Take(GO);
        peak := value;
      }
    }

    /** `mark_ceiling_denied` */
    method MarkDenied(notifies: bool)
      requires Traced() && At(Telemetry.Idle)
      modifies this`denied, this`notificationFailed, this`notified, this`steps, this`atoms
      ensures denied && notified == old(notified) + (if old(denied) then 0 else 1)
      ensures notificationFailed == (old(notificationFailed) || (!old(denied) && !notifies))
      ensures Traced() && At(Telemetry.Idle)
    {
      var prior := Exchange();
      if !prior {
        Notify(notifies);
      }
    }

    method Exchange() returns (prior: bool)
      requires Traced() && At(Telemetry.Idle)
      modifies this`denied, this`steps, this`atoms
      ensures denied && prior == old(denied)
      ensures Traced() && At(if prior then Telemetry.Idle else Telemetry.Notify)
    {
      Take(Telemetry.Deny);
      Take(GO);
      prior := denied;
      denied := true;
    }

    /** The callback of the first denial. */
    method Notify(works: bool)
      requires Traced() && At(Telemetry.Notify)
      modifies this`notificationFailed, this`notified, this`steps, this`atoms
      ensures notified == old(notified) + 1 && notificationFailed == (old(notificationFailed) || !works)
      ensures Traced() && At(Telemetry.Idle)
    {
      Take(Telemetry.Write(false, works));
      notified := notified + 1;
      if !works {
        Take(GO);
        notificationFailed := true;
      }
    }

    /** `proc17_qa_lua_allocator`: the counters, moved step by step, end where the block sizes say; and every atomic
      * access is a step of the shared telemetry. */
    method Reallocate(c: Call, spurious: nat) returns (r: Option<nat>)
      requires Valid(View(), ceiling) && CallShape(View(), c) && header <= SIZE_MAX
      requires Traced() && At(Telemetry.Idle)
      modifies this
      ensures Traced() && At(Telemetry.Idle)
      ensures View() == Step(old(View()), c, ceiling, header) && Valid(View(), ceiling)
      ensures r.Some? ==> r == c.system && c.newSize > 0 && r.value in blocks && blocks[r.value] == c.newSize
      ensures c.newSize > 0 && r.None? ==> blocks == old(blocks) && current == old(current)
    {
      StepKeeps(View(), c, ceiling, header);
      var before := current;
      var prior := 0;
      if c.pointer.Some? {
        PriorFits(View(), c.pointer.value);
        prior := blocks[c.pointer.value];
        assert prior <= before;
      }
      var base := before - prior;
      assert base == Sum(Without(View(), c.pointer));
      if c.newSize == 0 {
        if c.pointer.Some? {
          StoreFreed(base);
          blocks := blocks - {c.pointer.value};
        }
        return None;
      }
      if c.newSize > ceiling - base || c.newSize > SIZE_MAX - header {
        MarkDenied(c.notifies);
        return None;
      }
      r := Grow(c, base, spurious);
    }

    method StoreFreed(base: u64)
      requires base <= current && Traced() && At(Telemetry.Idle)
      modifies this`current, this`steps, this`atoms
      ensures current == base && Traced() && At(Telemetry.Idle)
    {
      Take(Telemetry.Free(base));
      Take(GO);
      current := base;
    }

    /** The part of the allocator after the ceiling check: counters first, then the system call. */
    method Grow(c: Call, base: u64, spurious: nat) returns (r: Option<nat>)
      requires base + c.newSize <= ceiling && (c.pointer.Some? ==> c.pointer.value in blocks)
      requires Traced() && At(Telemetry.Idle)
      modifies this`peak, this`current, this`systemFailed, this`blocks, this`steps, this`atoms
      ensures Traced() && At(Telemetry.Idle) && r == c.system
      ensures peak == if old(peak) < base + c.newSize then base + c.newSize else old(peak)
      ensures systemFailed == (old(systemFailed) || c.system.None?)
      ensures current == if c.system.Some? then base + c.newSize else old(current)
      ensures blocks == if c.system.Some? then Without(old(View()), c.pointer)[c.system.value := c.newSize]
                        else old(blocks)
    {
      var before := current;
      Take(Telemetry.Grow(base + c.newSize));
      PublishPeak(base + c.newSize, spurious);
      StoreNext(base + c.newSize, c.system.Some?);
      if c.system.None? {
        StoreFailure(before);
        return None;
      }
      blocks := (if c.pointer.Some? then blocks - {c.pointer.value} else blocks)[c.system.value := c.newSize];
      r := c.system;
    }

    /** The larger total is stored, then malloc or realloc is called. */
    method StoreNext(next: u64, succeeds: bool)
      requires Traced() && At(Telemetry.StoreNext(next, current))
      modifies this`current, this`steps, this`atoms
      ensures current == next && Traced()
      ensures At(if succeeds then Telemetry.Idle else Telemetry.StoreFailure(old(current)))
    {
      Take(GO);
      current := next;
      Take(Telemetry.Write(false, succeeds));
    }

    /** After a failing system call the total is restored. */
    method StoreFailure(before: u64)
      requires Traced() && At(Telemetry.StoreFailure(before))
      modifies this`current, this`systemFailed, this`steps, this`atoms
      ensures systemFailed && current == before && Traced() && At(Telemetry.Idle)
    {
      Take(GO);
      systemFailed := true;
      Take(GO);
      current := before;
    }
  }

  // -------------------------------------------------- all sequences of calls

  ghost function Run(calls: seq<Call>, ceiling: u64, header: nat): Heap {
    if calls == [] then EMPTY else Step(Run(calls[..|calls| - 1], ceiling, header), calls[|calls| - 1], ceiling, header)
  }

  ghost predicate RunShape(calls: seq<Call>, ceiling: u64, header: nat) {
    forall i :: 0 <= i < |calls| ==> CallShape(Run(calls[..i], ceiling, header), calls[i])
  }

  lemma {:induction false} RunValid(calls: seq<Call>, ceiling: u64, header: nat)
    requires RunShape(calls, ceiling, header)
    ensures Valid(Run(calls, ceiling, header), ceiling)
  {
    if calls != [] {
      var init := calls[..|calls| - 1];
      forall i | 0 <= i < |init| ensures CallShape(Run(init[..i], ceiling, header), init[i]) {
        assert init[..i] == calls[..i] && init[i] == calls[i];
      }
      RunValid(init, ceiling, header);
      StepKeeps(Run(init, ceiling, header), calls[|calls| - 1], ceiling, header);
    }
  }

  /** The peak never falls, stays within the ceiling, and bounds every total the run has passed through. */
  lemma {:induction false} PeakMonotone(calls: seq<Call>, i: nat, ceiling: u64, header: nat)
    requires RunShape(calls, ceiling, header) && i <= |calls|
    ensures var h, last := Run(calls[..i], ceiling, header), Run(calls, ceiling, header);
            Sum(h.blocks) <= h.peak <= last.peak <= ceiling && h.notified <= last.notified <= 1
    decreases |calls|
  {
    RunValid(calls, ceiling, header);
    if i == |calls| {
      assert calls[..i] == calls;
    } else {
      var init := calls[..|calls| - 1];
      forall j | 0 <= j < |init| ensures CallShape(Run(init[..j], ceiling, header), init[j]) {
        assert init[..j] == calls[..j] && init[j] == calls[j];
      }
      assert init[..i] == calls[..i];
      PeakMonotone(init, i, ceiling, header);
      RunValid(init, ceiling, header);
      StepKeeps(Run(init, ceiling, header), calls[|calls| - 1], ceiling, header);
    }
  }
}
