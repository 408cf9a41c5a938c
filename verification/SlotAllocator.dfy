/** The page file's slot bitmap, with its rotating scan, whole-row fast path and stack of slots taken in advance. */
module SlotAllocator {
  import opened Sequences

  // One thread takes slots; the others may free theirs at any time. Slot d is bit d % 64 of row d / 64, so row r
  // is the stretch of bits 64 * r to 64 * r + 63.

  const MAX_WRITE_BATCH_SIZE: nat := 4096
  const MIN_WRITE_BATCH_SIZE: nat := 1

  /** The free slots of a bitmap. */
  ghost function FreeSlots(bits: seq<bool>): set<nat> {
    set d: nat | d < |bits| && !bits[d]
  }

  /** The clear bits of a stretch that starts at slot base, in order. */
  function ClearIn(w: seq<bool>, base: nat): seq<nat>
    decreases |w|
  {
    if w == [] then []
    else ClearIn(w[..|w| - 1], base) + if w[|w| - 1] then [] else [base + |w| - 1]
  }

  ghost predicate AllClear(w: seq<bool>) {
    forall i :: 0 <= i < |w| ==> !w[i]
  }

  /** ClearIn lists every clear bit of the stretch, and each once. */
  lemma {:induction false} ClearInIsExact(w: seq<bool>, base: nat)
    ensures forall d :: d in ClearIn(w, base) <==> base <= d < base + |w| && !w[d - base]
    ensures Distinct(ClearIn(w, base))
    decreases |w|
  {
    if w != [] {
      var rest := ClearIn(w[..|w| - 1], base);
      ClearInIsExact(w[..|w| - 1], base);
      assert forall a :: 0 <= a < |rest| ==> rest[a] in rest;
    }
  }

  /** Of a clear stretch, it lists the slots from base on. */
  lemma {:induction false} ClearStretch(w: seq<bool>, base: nat)
    requires AllClear(w)
    ensures |ClearIn(w, base)| == |w| && forall i :: 0 <= i < |w| ==> ClearIn(w, base)[i] == base + i
    decreases |w|
  {
    if w != [] {
      ClearStretch(w[..|w| - 1], base);
    }
  }

  lemma {:induction false} FewClear(w: seq<bool>, base: nat)
    ensures |ClearIn(w, base)| <= |w|
    ensures ClearIn(w, base) == [] <==> forall i :: 0 <= i < |w| ==> w[i]
    decreases |w|
  {
    if w != [] {
      FewClear(w[..|w| - 1], base);
      if ClearIn(w, base) == [] {
        assert forall i :: 0 <= i < |w| - 1 ==> w[i] == w[..|w| - 1][i];
      }
    }
  }

  lemma ClearInGrows(w: seq<bool>, i: nat, base: nat)
    requires i < |w|
    ensures w[i] ==> ClearIn(w[..i + 1], base) == ClearIn(w[..i], base)
    ensures !w[i] ==> ClearIn(w[..i + 1], base) == ClearIn(w[..i], base) + [base + i]
    ensures !w[i] ==> SetOf(ClearIn(w[..i + 1], base)) == SetOf(ClearIn(w[..i], base)) + {base + i}
  {
    assert w[..i + 1][..i] == w[..i];
  }

  lemma Regrouped(xs: seq<nat>, ys: seq<nat>, zs: seq<nat>)
    ensures xs + ys + zs == xs + (ys + zs)
  {
  }

  lemma OneMore(free: set<nat>, taken: set<nat>, freed: set<nat>, d: nat, more: set<nat>)
    ensures free - taken + freed - {d} + more == free - (taken + {d}) + (freed - {d} + more)
  {
  }

  lemma FreedEarlier(free: set<nat>, early: set<nat>, taken: set<nat>, more: set<nat>)
    ensures free + early - taken + more == free - taken + (early - taken + more)
  {
  }

  lemma OthersStayFree(w: seq<bool>, i: nat, base: nat, free: set<nat>, more: set<nat>)
    requires forall k :: i <= k < |w| && !w[k] ==> base + k in free
    ensures forall k :: i + 1 <= k < |w| && !w[k] ==> base + k in free - {base + i} + more
  {
  }

  lemma RemovalCounts(a: set<nat>, b: set<nat>)
    requires b <= a
    ensures |a - b| == |a| - |b|
  {
  }

  lemma FreeIsFinite(bits: seq<bool>, after: seq<bool>, taken: set<nat>)
    requires |after| == |bits| && forall d :: 0 <= d < |bits| ==> after[d] == (bits[d] || d in taken)
    requires taken <= FreeSlots(bits)
    ensures FreeSlots(after) == FreeSlots(bits) - taken && |FreeSlots(after)| == |FreeSlots(bits)| - |taken|
  {
    assert FreeSlots(after) == FreeSlots(bits) - taken;
    RemovalCounts(FreeSlots(bits), taken);
  }

  /** Setting an empty row takes its 64 slots. */
  lemma FilledRow(bits: seq<bool>, after: seq<bool>, base: nat)
    requires |after| == |bits| && base + 64 <= |bits| && AllClear(bits[base..base + 64])
    requires forall d :: 0 <= d < |bits| ==> after[d] == (bits[d] || base <= d < base + 64)
    ensures var slots := ClearIn(bits[base..base + 64], base);
            && |slots| == 64 && SetOf(slots) <= FreeSlots(bits)
            && FreeSlots(after) == FreeSlots(bits) - SetOf(slots)
            && |FreeSlots(after)| == |FreeSlots(bits)| - 64
  {
    var w := bits[base..base + 64];
    var slots := ClearIn(w, base);
    ClearInIsExact(w, base);
    ClearStretch(w, base);
    SetOfCounts(slots);
    assert forall d :: base <= d < base + 64 ==> !bits[d] by {
      forall d | base <= d < base + 64 ensures !bits[d] { assert bits[d] == w[d - base]; }
    }
    FreeIsFinite(bits, after, SetOf(slots));
  }

  /** The turn at which a scan that begins after row start visits a row: 1 for the next one. */
  function Turn(start: nat, row: nat, rows: nat): int {
    if row > start then row - start else row + rows - start
  }

  /** Stepping to the next row, with wrap-around, visits the rows in the order of their turns;
      each row has one turn, from 1 to rows. */
  lemma EachRowHasOneTurn(start: nat, row: nat, rows: nat)
    requires start < rows && row < rows
    ensures 1 <= Turn(start, row, rows) <= rows
    ensures Turn(start, (start + 1) % rows, rows) == 1
    ensures row != start ==> Turn(start, (row + 1) % rows, rows) == Turn(start, row, rows) + 1
    ensures forall other: nat :: other < rows && Turn(start, other, rows) == Turn(start, row, rows) ==> other == row
  {
    NextRow(start, rows);
    NextRow(row, rows);
  }

  lemma NextRow(row: nat, rows: nat)
    requires row < rows
    ensures (row + 1) % rows == if row + 1 < rows then row + 1 else 0
  {
    if row + 1 < rows {
      assert row + 1 == 0 * rows + (row + 1);
    }
  }

  /** A slot that was free at the start and is not in added lies in a row with a turn after the k-th. */
  ghost predicate Passed(k: nat, start: nat, rows: nat, free: set<nat>, added: seq<nat>) {
    forall d :: d in free && d !in added ==> k < Turn(start, d / 64, rows)
  }

  /** The slots of the k + 1-st row: those free now are pushed, so it is passed as well. */
  lemma RowIsPassed(k: nat, start: nat, rows: nat, row: nat, free: set<nat>, was: seq<nat>, freed: set<nat>,
      slots: seq<nat>)
    requires start < rows && row < rows && Turn(start, row, rows) == k + 1
    requires forall d :: d in free ==> d / 64 < rows
    requires Passed(k, start, rows, free, was)
    requires forall d :: d / 64 == row && d in free - SetOf(was) + freed ==> d in slots
    ensures Passed(k + 1, start, rows, free, was + slots)
  {
    forall d | d in free && d !in was + slots ensures k + 1 < Turn(start, d / 64, rows) {
      EachRowHasOneTurn(start, row, rows);
      assert d !in was && d !in slots && d !in SetOf(was);
    }
  }

  lemma AtFirstNonePassed(start: nat, rows: nat, free: set<nat>)
    requires start < rows && forall d :: d in free ==> d / 64 < rows
    ensures Passed(0, start, rows, free, [])
  {
  }

  lemma NoneIsLeft(start: nat, rows: nat, free: set<nat>, added: seq<nat>, freed: set<nat>)
    requires start < rows && (forall d :: d in free ==> d / 64 < rows) && Passed(rows, start, rows, free, added)
    ensures free <= SetOf(added) && free - SetOf(added) + freed == freed
  {
    forall d | d in free ensures d in added {
      EachRowHasOneTurn(start, d / 64, rows);
    }
  }

  lemma MoreTaken(free: set<nat>, was: seq<nat>, freed: set<nat>, slots: seq<nat>, more: set<nat>)
    ensures free - SetOf(was) + freed - SetOf(slots) + more
         == free - SetOf(was + slots) + (freed - SetOf(slots) + more)
  {
    assert SetOf(was + slots) == SetOf(was) + SetOf(slots);
  }

  /** A stretch found clear stays clear as long as its slots stay free. */
  lemma StillClear(w: seq<bool>, base: nat, bits: seq<bool>, free: set<nat>)
    requires base + |w| <= |bits| && AllClear(w) && free == FreeSlots(bits)
    requires forall k :: 0 <= k < |w| && !w[k] ==> base + k in free
    ensures bits[base..base + |w|] == w
  {
    forall k | 0 <= k < |w| ensures bits[base..base + |w|][k] == w[k] {
      assert !w[k] && base + k in free;
    }
  }

  function Max(a: int, b: int): int {
    if a < b then b else a
  }

  function Min(a: int, b: int): int {
    if a < b then a else b
  }

  class PageFile {
    const bits: array<bool>
    const rows: nat
    const stack: array<nat>
    var emptySlots: int
    var stashed: nat
    var lastRow: nat
    /** Slots whose bit is clear again but whose return is not counted yet. */
    ghost var uncounted: nat

    ghost function Stash(): seq<nat>
      reads this`stashed, stack
      requires stashed <= stack.Length
    {
      stack[..stashed]
    }

    ghost function Free(): set<nat>
      reads bits
    {
      FreeSlots(bits[..])
    }

    ghost predicate InUse(d: nat)
      reads bits
    {
      d < bits.Length && bits[d]
    }

    ghost predicate Layout() {
      0 < rows && bits.Length == 64 * rows && stack.Length == 2 * MAX_WRITE_BATCH_SIZE
    }

    /** No slot is stashed twice; stashed slots are in use, and slot zero is in use but not stashed. */
    ghost predicate Stacked()
      reads this`stashed, stack, bits
    {
      && InUse(0) && stashed <= stack.Length
      && Distinct(Stash())
      && (forall d :: d in Stash() ==> 0 < d && InUse(d))
    }

    /** lag: slots whose bits are set but which the counter has not been told of. */
    ghost predicate Counted(lag: int)
      reads this`emptySlots, this`uncounted, bits
    {
      emptySlots == |Free()| + lag - uncounted
    }

    ghost predicate Valid()
      reads this, stack, bits
    {
      Layout() && lastRow < rows && Stacked() && Counted(0)
    }

    /** The bits of a row. */
    ghost function Row(row: nat): seq<bool>
      requires Layout() && row < rows
      reads bits
    {
      bits[64 * row..64 * row + 64]
    }

    /** initialize_page_file_and_metadata: only slot zero is in use. */
    constructor (pages: nat)
      requires 0 < pages && pages % 64 == 0
      ensures Valid() && Stash() == [] && rows == pages / 64 && emptySlots == pages - 1 && uncounted == 0
      ensures forall d :: d in Free() <==> 0 < d < pages
      ensures fresh(bits) && fresh(stack)
    {
      rows := pages / 64;
      bits := new bool[pages](i => i == 0);
      stack := new nat[2 * MAX_WRITE_BATCH_SIZE](i => 0);
      emptySlots := pages - 1;
      stashed := 0;
      lastRow := 0;
      uncounted := 0;
      new;
      CountClear(bits[..], pages);
    }

    /** Other threads run. They may free slots that are neither stashed nor being taken. */
    method Yield(ghost taking: set<nat>, ghost lag: int) returns (ghost freed: set<nat>)
      requires Stacked() && Counted(lag) && forall d :: d in taking ==> InUse(d)
      modifies bits, this`emptySlots, this`uncounted
      ensures Stacked() && Counted(lag) && forall d :: d in taking ==> InUse(d)
      ensures Free() == old(Free()) + freed
    {
      // Nothing is done here; what callers may rely on is the contract.
      freed := {};
    }

    /** The first half of clear_disk_slot; the bit is found set. */
    method ClearBit(d: nat)
      requires Valid() && 0 < d && InUse(d) && d !in Stash()
      modifies bits, this`uncounted
      ensures Valid() && Free() == old(Free()) + {d} && d !in old(Free())
      ensures uncounted == old(uncounted) + 1
    {
      bits[d] := false;
      uncounted := uncounted + 1;
      assert Free() == old(Free()) + {d};
    }

    /** The second half of clear_disk_slot. */
    method CountClearBit()
      requires Valid() && 0 < uncounted
      modifies this`emptySlots, this`uncounted
      ensures Valid() && uncounted == old(uncounted) - 1 && emptySlots == old(emptySlots) + 1
    {
      emptySlots := emptySlots + 1;
      uncounted := uncounted - 1;
    }

    /** The first half of set_disk_slot; the bit is found clear. */
    method SetBit(d: nat)
      requires d in Free() && Stacked() && Counted(0)
      modifies bits
      ensures Stacked() && Counted(1) && InUse(d)
      ensures Free() == old(Free()) - {d}
    {
      bits[d] := true;
      FreeIsFinite(old(bits[..]), bits[..], {d});
    }

    /** The second half of set_disk_slot, and disk.c:60. What comes back is short by the returns
        that are not counted yet, so it is negative when they exceed the slots still free. */
    method CountTaken(n: nat) returns (result: int)
      requires Stacked() && Counted(n)
      modifies this`emptySlots
      ensures Stacked() && Counted(0)
      ensures result == |Free()| - uncounted && result < bits.Length
      ensures result >= 0 <==> uncounted <= |Free()|
    {
      emptySlots := emptySlots - n;
      result := emptySlots;
      FewFree(bits[..]);
    }

    /** push_slot. */
    method Push(d: nat)
      requires Stacked() && stashed < stack.Length && 0 < d && InUse(d) && d !in Stash()
      modifies this`stashed, stack
      ensures Stacked() && Stash() == old(Stash()) + [d]
    {
      stack[stashed] := d;
      stashed := stashed + 1;
      assert Stash() == old(Stash()) + [d];
    }

    /** pop_slot. */
    method Pop() returns (d: nat)
      requires Valid() && 0 < stashed
      modifies this`stashed
      ensures Valid() && stashed == old(stashed) - 1 && old(Stash()) == Stash() + [d]
      ensures d !in Stash() && 0 < d && InUse(d)
    {
      stashed := stashed - 1;
      d := stack[stashed];
      assert old(Stash())[stashed] == d;
    }

    /** The whole-row compare-exchange. */
    method ExchangeRow(row: nat) returns (taken: bool)
      requires Layout() && row < rows && Stacked() && Counted(0)
      modifies bits
      ensures taken == old(AllClear(Row(row)))
      ensures !taken ==> bits[..] == old(bits[..])
      ensures taken ==>
                var slots := ClearIn(old(Row(row)), 64 * row);
                && Stacked() && Counted(64) && |slots| == 64
                && SetOf(slots) <= old(Free()) && Free() == old(Free()) - SetOf(slots)
    {
      taken := forall i :: 64 * row <= i < 64 * row + 64 ==> !bits[i];
      ghost var was := bits[..];
      assert taken == AllClear(Row(row)) by {
        assert forall i :: 64 * row <= i < 64 * row + 64 ==> bits[i] == Row(row)[i - 64 * row];
      }
      if taken {
        forall i | 64 * row <= i < 64 * row + 64 {
          bits[i] := true;
        }
        FilledRow(was, bits[..], 64 * row);
      }
    }

    /** disk.c:56-61: the 64 slots of an exchanged row are pushed, then counted. */
    method PushExchanged(base: nat, ghost slots: seq<nat>) returns (ghost freed: set<nat>)
      requires 0 < base && |slots| == 64 && (forall i :: 0 <= i < 64 ==> slots[i] == base + i)
      requires Stacked() && Counted(64) && stashed + 64 <= stack.Length
      requires forall d :: d in slots ==> InUse(d) && d !in Stash()
      modifies bits, stack, this`emptySlots, this`uncounted, this`stashed
      ensures Stacked() && Counted(0)
      ensures Stash() == old(Stash()) + slots && Free() == old(Free()) + freed
    {
      var slot, i := base, 0;
      freed := {};
      while i < 64
        invariant 0 <= i <= 64 && slot == base + i
        invariant Stacked() && Counted(64) && stashed == old(stashed) + i
        invariant Stash() == old(Stash()) + slots[..i] && Free() == old(Free()) + freed
        invariant forall d :: d in slots ==> InUse(d)
      {
        assert slot == slots[i] && slot in slots;
        assert slot !in slots[..i];
        Push(slot);
        assert slots[..i + 1] == slots[..i] + [slot];
        slot, i := slot + 1, i + 1;
        ghost var more := Yield(SetOf(slots), 64);
        freed := freed + more;
      }
      assert slots[..64] == slots;
      var _ := CountTaken(64);
    }

    /** set_disk_slot and push_slot. */
    method PushBit(d: nat) returns (ghost freed: set<nat>)
      requires Stacked() && Counted(0) && stashed < stack.Length && d in Free()
      modifies bits, stack, this`emptySlots, this`uncounted, this`stashed
      ensures Stacked() && Counted(0) && Stash() == old(Stash()) + [d]
      ensures Free() == old(Free()) - {d} + freed
    {
      SetBit(d);
      ghost var before := Yield({d}, 1);
      var _ := CountTaken(1);
      Push(d);
      ghost var after := Yield({}, 0);
      freed := before + after;
    }

    /** The scan started with the given stash and free slots and has done i bits of the snapshot. */
    ghost predicate Scanned(i: nat, w: seq<bool>, base: nat, stash: seq<nat>, free: set<nat>, freed: set<nat>)
      requires i <= |w| && stashed <= stack.Length
      reads this`stashed, stack, bits
    {
      && Stash() == stash + ClearIn(w[..i], base)
      && Free() == free - SetOf(ClearIn(w[..i], base)) + freed
      && (forall k :: i <= k < |w| && !w[k] ==> base + k in Free())
    }

    method ScanBit(i: nat, w: seq<bool>, base: nat, ghost stash: seq<nat>, ghost free: set<nat>, ghost was: set<nat>)
      returns (ghost freed: set<nat>)
      requires i < |w| && Stacked() && Counted(0) && stashed < stack.Length
      requires Scanned(i, w, base, stash, free, was)
      modifies bits, stack, this`emptySlots, this`uncounted, this`stashed
      ensures Stacked() && Counted(0) && stashed <= old(stashed) + 1
      ensures Scanned(i + 1, w, base, stash, free, freed)
    {
      freed := was;
      ClearInGrows(w, i, base);
      if !w[i] {
        ghost var slots, now := ClearIn(w[..i], base), Free();
        ghost var more := PushBit(base + i);
        Regrouped(stash, slots, [base + i]);
        OneMore(free, SetOf(slots), was, base + i, more);
        freed := was - {base + i} + more;
        OthersStayFree(w, i, base, now, more);
      }
    }

    /** disk.c:67-80: the clear bits of the snapshot, one at a time. Each is still clear when set. */
    method PushBits(base: nat, w: seq<bool>) returns (ghost freed: set<nat>)
      requires Stacked() && Counted(0) && stashed + 64 <= stack.Length
      requires |w| == 64 && forall k :: 0 <= k < 64 && !w[k] ==> base + k in Free()
      modifies bits, stack, this`emptySlots, this`uncounted, this`stashed
      ensures Stacked() && Counted(0)
      ensures Stash() == old(Stash()) + ClearIn(w, base)
      ensures Free() == old(Free()) - SetOf(ClearIn(w, base)) + freed
    {
      var i := 0;
      ghost var stash, free := Stash(), Free();
      freed := {};
      while i < 64
        invariant 0 <= i <= 64 && Stacked() && Counted(0) && stashed <= old(stashed) + i
        invariant Scanned(i, w, base, stash, free, freed)
      {
        freed := ScanBit(i, w, base, stash, free, freed);
        i := i + 1;
      }
      assert w[..64] == w;
    }

    /** disk.c:45-63: an empty row is taken in one exchange, which never fails. The outcome is
        the same as that of PushBits. */
    method PushEmptyRow(row: nat, ghost w: seq<bool>) returns (taken: bool, ghost freed: set<nat>)
      requires Layout() && row < rows && Stacked() && Counted(0) && stashed + 64 <= stack.Length
      requires |w| == 64 && AllClear(w) && forall k :: 0 <= k < 64 && !w[k] ==> 64 * row + k in Free()
      modifies bits, stack, this`emptySlots, this`uncounted, this`stashed
      ensures Stacked() && Counted(0) && taken
      ensures Stash() == old(Stash()) + ClearIn(w, 64 * row)
      ensures Free() == old(Free()) - SetOf(ClearIn(w, 64 * row)) + freed
    {
      ghost var slots := ClearIn(w, 64 * row);
      StillClear(w, 64 * row, bits[..], Free());
      ClearStretch(w, 64 * row);
      ghost var free := Free();
      taken := ExchangeRow(row);
      forall d | d in slots ensures InUse(d) && d !in Stash() {
        assert d in SetOf(slots) && d in free;
      }
      freed := PushExchanged(64 * row, slots);
    }

    /** push_slots_from_bitmap_row: exactly the slots that were clear at the start, in order. */
    method PushRow(row: nat) returns (ghost freed: set<nat>)
      requires Layout() && row < rows && Stacked() && Counted(0) && stashed + 64 <= stack.Length
      modifies bits, stack, this`emptySlots, this`uncounted, this`stashed
      ensures Stacked() && Counted(0)
      ensures Stash() == old(Stash()) + ClearIn(old(Row(row)), 64 * row)
      ensures Free() == old(Free()) - SetOf(ClearIn(old(Row(row)), 64 * row)) + freed
    {
      var w := bits[64 * row..64 * row + 64];
      assert forall k :: 0 <= k < 64 ==> w[k] == bits[..][64 * row + k];
      ghost var slots, free := ClearIn(w, 64 * row), Free();
      ghost var early := Yield({}, 0);
      if forall i :: 0 <= i < 64 ==> !w[i] {
        var taken, more := PushEmptyRow(row, w);
        freed := early - SetOf(slots) + more;
        FreedEarlier(free, early, SetOf(slots), more);
        if taken {
          return;
        }
      }
      ghost var more := PushBits(64 * row, w);
      freed := early - SetOf(slots) + more;
      FreedEarlier(free, early, SetOf(slots), more);
    }

    /** The slots added were pushed onto the stash and the slots freed have come back since the scan began. */
    ghost predicate Searched(stash: seq<nat>, free: set<nat>, added: seq<nat>, freed: set<nat>)
      requires stashed <= stack.Length
      reads this`stashed, stack, bits
    {
      Stash() == stash + added && Free() == free - SetOf(added) + freed
    }

    lemma RowSlots(row: nat)
      requires Layout() && row < rows
      ensures forall d :: d / 64 == row && d in Free() ==> d in ClearIn(Row(row), 64 * row)
      ensures |ClearIn(Row(row), 64 * row)| <= 64
      ensures (forall i :: 64 * row <= i < 64 * row + 64 ==> bits[i]) ==> ClearIn(Row(row), 64 * row) == []
      ensures (forall d :: d in Free() ==> d / 64 < rows)
    {
      ClearInIsExact(Row(row), 64 * row);
      FewClear(Row(row), 64 * row);
      assert forall i :: 0 <= i < 64 ==> Row(row)[i] == bits[64 * row + i];
    }

    /** One turn of the scan: a row is passed over if it is full, else its clear slots are taken. */
    method SearchRow(row: nat, ghost stash: seq<nat>, ghost free: set<nat>, ghost was: seq<nat>, ghost before: set<nat>)
      returns (full: bool, ghost slots: seq<nat>, ghost early: set<nat>, ghost freed: set<nat>)
      requires Layout() && row < rows
      requires Stacked() && Counted(0) && stashed + 64 <= stack.Length
      requires Searched(stash, free, was, before)
      modifies bits, stack, this`emptySlots, this`uncounted, this`stashed
      ensures Stacked() && Counted(0) && |slots| <= 64
      ensures full ==> slots == []
      ensures Searched(stash, free, was + slots, freed)
      ensures forall d :: d / 64 == row && d in free - SetOf(was) + (before + early) ==> d in slots
    {
      early := Yield({}, 0);
      RowSlots(row);
      ghost var now := free - SetOf(was) + (before + early);
      assert now == Free();
      slots := ClearIn(Row(row), 64 * row);
      full := forall i :: 64 * row <= i < 64 * row + 64 ==> bits[i];
      freed := before + early;
      if !full {
        ghost var more := PushRow(row);
        MoreTaken(free, was, before + early, slots, more);
        freed := before + early - SetOf(slots) + more;
        Regrouped(stash, was, slots);
      }
    }

    /** set_and_add_slots_to_stack. The rows visited are those with turns 1 to visited. If the target
        is not met then every row was visited, every slot that was free at the start is stashed,
        and all that is free now was freed meanwhile. */
    method SetAndAddSlots(target: nat) returns (ghost added: seq<nat>, ghost freed: set<nat>, ghost visited: nat)
      requires Valid() && Max(stashed + 1, target) + 63 <= stack.Length
      modifies this, bits, stack
      ensures Valid()
      ensures Stash() == old(Stash()) + added && Free() == old(Free()) - SetOf(added) + freed
      ensures visited <= rows && Turn(old(lastRow), lastRow, rows) == visited
      ensures stashed < target ==> visited == rows && old(Free()) <= SetOf(added) && Free() == freed
      ensures old(stashed) <= stashed <= Max(old(stashed) + 1, target) + 63
    {
      var row: nat, i, stop := lastRow, 0, false;
      ghost var start, stash, free := lastRow, Stash(), Free();
      added, freed := [], {};
      AtFirstNonePassed(start, rows, free);
      while i < rows && !stop
        invariant i <= rows && row < rows && (if i == 0 then row == start else Turn(start, row, rows) == i)
        invariant Stacked() && Counted(0) && lastRow == start
        invariant !stop ==> stashed < target || added == []
        invariant |stash| <= stashed <= Max(|stash| + 1, target) + 63
        invariant stop ==> stashed >= target && i > 0
        invariant Searched(stash, free, added, freed)
        invariant Passed(i, start, rows, free, added)
      {
        row, stop, added, freed := NextTurn(i, row, target, start, stash, free, added, freed);
        i := i + 1;
      }
      visited := i;
      lastRow := row;
      if stashed < target {
        NoneIsLeft(start, rows, free, added, freed);
      }
    }

    /** disk.c:104-115. */
    method NextTurn(i: nat, last: nat, target: nat, ghost start: nat, ghost stash: seq<nat>, ghost free: set<nat>,
                    ghost was: seq<nat>, ghost before: set<nat>)
      returns (row: nat, stop: bool, ghost added: seq<nat>, ghost freed: set<nat>)
      requires Layout() && i < rows && last < rows && start < rows
      requires if i == 0 then last == start else Turn(start, last, rows) == i
      requires Stacked() && Counted(0) && Max(|stash| + 1, target) + 63 <= stack.Length
      requires (stashed < target || was == []) && |stash| <= stashed
      requires Searched(stash, free, was, before) && Passed(i, start, rows, free, was)
      requires forall d :: d in free ==> d / 64 < rows
      modifies bits, stack, this`emptySlots, this`uncounted, this`stashed
      ensures row < rows && Turn(start, row, rows) == i + 1
      ensures Stacked() && Counted(0) && |stash| <= stashed <= Max(|stash| + 1, target) + 63
      ensures !stop ==> stashed < target || added == []
      ensures stop ==> stashed >= target
      ensures Searched(stash, free, added, freed) && Passed(i + 1, start, rows, free, added)
    {
      EachRowHasOneTurn(start, last, rows);
      row := (last + 1) % rows;
      var full; ghost var slots, early;
      full, slots, early, freed := SearchRow(row, stash, free, was, before);
      RowIsPassed(i, start, rows, row, free, was, before + early, slots);
      added := was + slots;
      stop := !full && stashed >= target;
    }

    /** writer.c:20-38: the writer's budget. approximate is its estimate of the modified list's
        length. Later it pops at most budget slots. */
    method TopUp(approximate: nat) returns (budget: nat)
      requires Valid() && stashed <= MAX_WRITE_BATCH_SIZE + 63
      modifies this, bits, stack
      ensures Valid() && stashed <= MAX_WRITE_BATCH_SIZE + 63
      ensures old(Stash()) <= Stash() && old(Free()) <= Free() + SetOf(Stash())
      ensures budget <= stashed && budget <= MAX_WRITE_BATCH_SIZE && budget <= approximate
      ensures old(emptySlots) < MIN_WRITE_BATCH_SIZE ==> budget == 0
      ensures budget < Min(approximate, MAX_WRITE_BATCH_SIZE) && old(emptySlots) >= MIN_WRITE_BATCH_SIZE
              ==> budget == stashed && old(Free()) <= SetOf(Stash())
    {
      if emptySlots < MIN_WRITE_BATCH_SIZE { return 0; }
      var target := Min(MAX_WRITE_BATCH_SIZE, approximate);
      if stashed < target {
        ghost var added, freed, visited := SetAndAddSlots(target);
      }
      if stashed < MIN_WRITE_BATCH_SIZE { return 0; }
      budget := Min(stashed, target);
    }
  }

  // ---------- The check at disk.c:61 ----------

  /** The free slots are those from low up to high. */
  ghost predicate FreeAre(f: PageFile, low: nat, high: nat)
    reads f.bits
  {
    forall d :: d in f.Free() <==> low <= d < high
  }

  method TakeFirstRow(f: PageFile)
    requires f.Valid() && f.rows == 2 && f.Stash() == [] && FreeAre(f, 1, 64)
    modifies f, f.bits
    ensures f.Valid() && f.Stash() == [] && FreeAre(f, 64, 64) && f.uncounted == old(f.uncounted)
  {
    var d := 1;
    while d < 64
      invariant 1 <= d <= 64 && f.Valid() && f.Stash() == [] && FreeAre(f, d, 64) && f.uncounted == old(f.uncounted)
    {
      f.SetBit(d);
      var _ := f.CountTaken(1);
      d := d + 1;
    }
  }

  /** The slots of the second row are returned, the last one without its count. */
  method ReturnSecondRow(f: PageFile)
    requires f.Valid() && f.rows == 2 && f.Stash() == [] && FreeAre(f, 64, 64) && f.uncounted == 0
    modifies f, f.bits
    ensures f.Valid() && f.Stash() == [] && FreeAre(f, 64, 128) && f.uncounted == 1
  {
    assert 64 !in f.Free();
    f.ClearBit(64);
    var d := 65;
    while d < 128
      invariant 65 <= d <= 128 && f.Valid() && f.Stash() == [] && FreeAre(f, 64, d) && f.uncounted == 1
    {
      f.CountClearBit();
      assert d !in f.Free();
      f.ClearBit(d);
      d := d + 1;
    }
  }

  /** With one return under way whose bit is clear but which is not counted, taking the last free row makes the
      counter negative. */
  method CountGoesNegative() returns (result: int)
    ensures result == -1
  {
    var f := new PageFile(128);
    TakeSecondRow(f, 1);
    var _ := f.CountTaken(64);
    TakeFirstRow(f);
    ReturnSecondRow(f);
    TakeSecondRow(f, 64);
    result := f.CountTaken(64);
    assert f.Free() == {};
  }

  method TakeSecondRow(f: PageFile, ghost low: nat)
    requires f.Valid() && f.rows == 2 && f.Stash() == [] && FreeAre(f, low, 128) && low <= 64
    modifies f.bits
    ensures f.Stacked() && f.Counted(64) && f.Stash() == [] && FreeAre(f, low, 64)
  {
    ghost var w := f.Row(1);
    forall i | 0 <= i < 64 ensures !w[i] {
      assert w[i] == f.bits[..][64 + i];
      assert 64 + i in f.Free();
    }
    ClearInIsExact(w, 64);
    var taken := f.ExchangeRow(1);
  }

  lemma {:induction false} CountClear(bits: seq<bool>, n: nat)
    requires n == |bits| && forall d :: 0 <= d < n ==> bits[d] == (d == 0)
    ensures |FreeSlots(bits)| == if n == 0 then 0 else n - 1
  {
    if n > 0 {
      CountClear(bits[..n - 1], n - 1);
      assert FreeSlots(bits) == FreeSlots(bits[..n - 1]) + if n == 1 then {} else {n - 1};
    }
  }

  lemma {:induction false} FewFree(bits: seq<bool>)
    ensures |FreeSlots(bits)| <= |bits|
    ensures |FreeSlots(bits)| == |bits| ==> AllClear(bits)
  {
    if bits != [] {
      var n := |bits| - 1;
      FewFree(bits[..n]);
      assert FreeSlots(bits) == FreeSlots(bits[..n]) + if bits[n] then {} else {n};
    }
  }
}
