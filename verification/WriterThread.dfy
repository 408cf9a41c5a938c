/** The writing thread, running among the other threads.
    A method for a lock-protected region equates the new state with one step of the protocol; the
    others let the remaining threads run between regions. */
module WriterThread {
  import opened Types
  import opened VmState
  import opened Steps
  import opened Preservation
  import opened Runs
  import opened Vm
  import opened Interleaving

  const MIN_WRITE_BATCH_SIZE: nat := 1
  const BATCH_ATTEMPTS: nat := 5

  // ---------- Slots ----------

  method TakeSlot(vm: Vm, d: nat)
    requires vm.Valid() && vm.writer == Resting && d < vm.bit.Length && !vm.bit[d]
    modifies vm.Repr()
    ensures vm.Valid() && Leads(old(vm.Abs()), vm.Abs()) && vm.Abs() == WriteAllocStep(old(vm.Abs()), d)
  {
    OneStep(vm.Abs(), ByWriter(WriteAlloc(d)));
    vm.StashDiskSlot(d);
  }

  /** The slots found clear, given the state at which each was looked at. */
  ghost function FoundClear(looked: seq<State>): set<nat> {
    set d: nat | d < |looked| && d < |looked[d].bit| && !looked[d].bit[d]
  }

  lemma OneMoreLook(looked: seq<State>, at: State)
    ensures var found := |looked| < |at.bit| && !at.bit[|looked|];
            |FoundClear(looked + [at])| == |FoundClear(looked)| + if found then 1 else 0
  {
    var d := |looked|;
    assert FoundClear(looked + [at]) == FoundClear(looked) + if d < |at.bit| && !at.bit[d] then {d} else {};
  }

  /** The stash is topped up to the target: the slots are looked at one after the other, those found clear are
      taken, and it ends below the target only when every slot was looked at. */
  method TopUp(vm: Vm, target: nat, ghost s: State) returns (ghost looked: seq<State>)
    requires vm.Valid() && Leads(s, vm.Abs()) && vm.writer == Resting && HoldsOnly(vm.Abs(), {})
    modifies vm.Repr()
    ensures vm.Valid() && Leads(s, vm.Abs()) && vm.writer == Resting && HoldsOnly(vm.Abs(), {})
    ensures AllLed(s, looked) && vm.stashed == old(vm.stashed) + |FoundClear(looked)|
    ensures |looked| <= vm.bit.Length && (vm.stashed < target ==> |looked| == vm.bit.Length)
  {
    var d := 0;
    looked := [];
    assert FoundClear(looked) == {};
    while d < vm.bit.Length && vm.stashed < target
      invariant d == |looked| <= vm.bit.Length && vm.Valid() && Leads(s, vm.Abs()) && vm.writer == Resting
      invariant AllLed(s, looked) && vm.stashed == old(vm.stashed) + |FoundClear(looked)|
      invariant HoldsOnly(vm.Abs(), {})
    {
      ghost var at := TryTakeSlot(vm, d, s);
      OneMoreLook(looked, at);
      LedMore(s, looked, at);
      looked, d := looked + [at], d + 1;
    }
  }

  method TryTakeSlot(vm: Vm, d: nat, ghost s: State) returns (ghost at: State)
    requires vm.Valid() && Leads(s, vm.Abs()) && vm.writer == Resting && d < vm.bit.Length
    requires HoldsOnly(vm.Abs(), {})
    modifies vm.Repr()
    ensures vm.Valid() && Leads(s, vm.Abs()) && vm.writer == Resting && HoldsOnly(vm.Abs(), {})
    ensures Leads(s, at) && d < |at.bit| && vm.stashed == old(vm.stashed) + if at.bit[d] then 0 else 1
  {
    PauseWriter(vm, {}, s);
    at := vm.Abs();
    if !vm.bit[d] {
      TakeSlot(vm, d);
      LeadsOn(s, at, vm.Abs());
    }
  }

  // ---------- Gathering ----------

  /** The frames whose lock the writer holds. */
  ghost predicate HoldsOnly(s: State, pages: set<nat>) {
    forall f :: 0 <= f < |s.pfnLock| ==> (s.pfnLock[f] == Writer <==> f in pages)
  }

  method PauseWriter(vm: Vm, ghost pages: set<nat>, ghost s: State)
    requires vm.Valid() && Leads(s, vm.Abs()) && HoldsOnly(vm.Abs(), pages)
    modifies vm.Repr()
    ensures vm.Valid() && Leads(s, vm.Abs()) && HoldsOnly(vm.Abs(), pages)
    ensures vm.writer == old(vm.writer) && vm.stashed == old(vm.stashed)
  {
    ghost var r := vm.Abs();
    Pause(vm, Writer, s);
    forall f | 0 <= f < |r.place| ensures vm.pfnLock[f] == Writer <==> f in pages {
      assert WriteFrameKept(r, vm.Abs(), f);
    }
  }

  /** Lines 53 to 63: pages are removed from the modified list. */
  method TakeBatch(vm: Vm, lost: bool) returns (n: nat)
    requires vm.Valid() && vm.writer.Gathering? && vm.writer.gathered == {} && HoldsOnly(vm.Abs(), {})
    modifies vm.Repr()
    ensures vm.Valid() && Leads(old(vm.Abs()), vm.Abs()) && vm.writer.Gathering?
    ensures vm.writer == old(vm.writer).(gathered := vm.writer.gathered) && |vm.writer.gathered| == n
    ensures |vm.writer.batch| + n <= vm.writer.target || n == 0
    ensures HoldsOnly(vm.Abs(), vm.writer.gathered)
    ensures !lost && |vm.writer.batch| + n < vm.writer.target ==> AllTaken(old(vm.Abs()), vm.writer.gathered)
  {
    ghost var s := vm.Abs();
    NoSteps(Writer, s);
    var capacity := Attempted(vm.writer.target - |vm.writer.batch|, lost);
    var pages := vm.Collect(ModifiedList, Gathered, Writer, capacity);
    n := |pages|;
    if pages != {} {
      BeginMarking(vm, pages, s);
      TakenAreHeld(s, vm.Abs(), pages);
    }
  }

  /** The pages are all that could be had from the modified list. */
  ghost predicate AllTaken(s: State, pages: set<nat>) {
    forall f :: 0 <= f < |s.place| && f < |s.pfnLock| && s.place[f] == ModifiedList && s.pfnLock[f] == Nobody
      ==> f in pages
  }

  method BeginMarking(vm: Vm, pages: set<nat>, ghost s: State)
    requires Inv(s) && GatherTakeEnabled(s, pages) && vm.Apart()
    requires vm.Abs() == s.(place := SetAll(s.place, pages, Gathered), pfnLock := SetAll(s.pfnLock, pages, Writer))
    modifies vm
    ensures vm.Valid() && Leads(s, vm.Abs()) && vm.Abs() == GatherTakeStep(s, pages)
  {
    OneStep(s, ByWriter(GatherTake(pages)));
    vm.writer := vm.writer.(gathered := pages);
  }

  lemma TakenAreHeld(s: State, r: State, pages: set<nat>)
    requires HoldsOnly(s, {}) && r.pfnLock == SetAll(s.pfnLock, pages, Writer)
    ensures HoldsOnly(r, pages)
  {
  }

  /** One turn of lines 69 to 78. */
  method MarkPage(vm: Vm, f: nat)
    requires vm.Valid() && vm.writer.Gathering? && f in vm.writer.gathered
    modifies vm.Repr()
    ensures vm.Valid() && Leads(old(vm.Abs()), vm.Abs()) && vm.Abs() == GatherMarkStep(old(vm.Abs()), f)
    ensures f < vm.pfnLock.Length
  {
    OneStep(vm.Abs(), ByWriter(GatherMark(f)));
    var Gathering(target, gathered, batch) := vm.writer;
    vm.SetPfnStatus(f, MidWrite);
    vm.SetPlace(f, WriteBatch);
    vm.SetPfnLock(f, Nobody);
    vm.writer := Gathering(target, gathered - {f}, batch + [f]);
  }

  /** Lines 66 to 78: the pages are marked mid-write and unlocked one by one. */
  method MarkBatch(vm: Vm, ghost s: State)
    requires vm.Valid() && Leads(s, vm.Abs()) && vm.writer.Gathering? && HoldsOnly(vm.Abs(), vm.writer.gathered)
    modifies vm.Repr()
    ensures vm.Valid() && Leads(s, vm.Abs()) && vm.writer.Gathering? && vm.writer.gathered == {}
    ensures vm.writer.target == old(vm.writer.target)
    ensures |vm.writer.batch| == old(|vm.writer.batch| + |vm.writer.gathered|)
    ensures HoldsOnly(vm.Abs(), {})
  {
    while vm.writer.gathered != {}
      invariant vm.Valid() && Leads(s, vm.Abs()) && vm.writer.Gathering? && HoldsOnly(vm.Abs(), vm.writer.gathered)
      invariant vm.writer.target == old(vm.writer.target)
      invariant |vm.writer.batch| + |vm.writer.gathered| == old(|vm.writer.batch| + |vm.writer.gathered|)
      decreases |vm.writer.gathered|
    {
      MarkNext(vm, s);
    }
  }

  method MarkNext(vm: Vm, ghost s: State)
    requires vm.Valid() && Leads(s, vm.Abs()) && vm.writer.Gathering? && HoldsOnly(vm.Abs(), vm.writer.gathered)
    requires vm.writer.gathered != {}
    modifies vm.Repr()
    ensures vm.Valid() && Leads(s, vm.Abs()) && vm.writer.Gathering? && HoldsOnly(vm.Abs(), vm.writer.gathered)
    ensures vm.writer.target == old(vm.writer.target) && |vm.writer.batch| == old(|vm.writer.batch|) + 1
    ensures |vm.writer.gathered| == old(|vm.writer.gathered|) - 1
  {
    PauseWriter(vm, vm.writer.gathered, s);
    MarkOne(vm, s);
  }

  method MarkOne(vm: Vm, ghost s: State)
    requires vm.Valid() && Leads(s, vm.Abs()) && vm.writer.Gathering? && HoldsOnly(vm.Abs(), vm.writer.gathered)
    requires vm.writer.gathered != {}
    modifies vm.Repr()
    ensures vm.Valid() && Leads(s, vm.Abs()) && vm.writer.Gathering? && HoldsOnly(vm.Abs(), vm.writer.gathered)
    ensures vm.writer.target == old(vm.writer.target) && |vm.writer.batch| == old(|vm.writer.batch|) + 1
    ensures |vm.writer.gathered| == old(|vm.writer.gathered|) - 1
  {
    ghost var r := vm.Abs();
    var f :| f in vm.writer.gathered;
    MarkPage(vm, f);
    LeadsOn(s, r, vm.Abs());
    MoveOne({}, r.writer.gathered, f);
  }

  /** A removal that got nothing: which try of the round it was, and the state it found. */
  datatype Miss = Miss(try: nat, at: State)

  /** Every miss was a try lost to another thread, or found no unlocked page on the modified list. */
  ghost predicate AllMissed(s: State, missed: seq<Miss>, lost: nat -> bool) {
    && (forall i :: 0 <= i < |missed| ==> Leads(s, missed[i].at))
    && (forall i :: 0 <= i < |missed| ==> lost(missed[i].try) || NoneUnlocked(missed[i].at, ModifiedList))
    && (forall i, j :: 0 <= i < j < |missed| ==> missed[i].try < missed[j].try)
  }

  /** Lines 50 to 82. */
  method Gather(vm: Vm, lost: nat -> bool, ghost s: State) returns (ghost missed: seq<Miss>)
    requires vm.Valid() && Leads(s, vm.Abs()) && vm.writer.Gathering? && vm.writer.gathered == {}
    requires HoldsOnly(vm.Abs(), {})
    modifies vm.Repr()
    ensures vm.Valid() && Leads(s, vm.Abs()) && vm.writer.Gathering? && vm.writer.gathered == {}
    ensures HoldsOnly(vm.Abs(), {})
    ensures vm.writer.target == old(vm.writer.target) && |vm.writer.batch| <= vm.writer.target
    ensures AllMissed(s, missed, lost) && (|vm.writer.batch| < vm.writer.target ==> |missed| == BATCH_ATTEMPTS)
  {
    var misses, try := 0, 0;
    missed := [];
    while |vm.writer.batch| < vm.writer.target && misses < BATCH_ATTEMPTS
      invariant vm.Valid() && Leads(s, vm.Abs()) && vm.writer.Gathering? && vm.writer.gathered == {}
      invariant HoldsOnly(vm.Abs(), {})
      invariant vm.writer.target == old(vm.writer.target) && misses == |missed| <= BATCH_ATTEMPTS
      invariant AllMissed(s, missed, lost) && forall i :: 0 <= i < |missed| ==> missed[i].try < try
      decreases BATCH_ATTEMPTS - misses, vm.writer.target - |vm.writer.batch|
    {
      var n;
      n, missed := GatherTurn(vm, try, missed, lost, s);
      if n == 0 { misses := misses + 1; }
      try := try + 1;
    }
  }

  /** One turn of lines 50 to 82, with its miss noted. */
  method GatherTurn(vm: Vm, try: nat, ghost missed: seq<Miss>, lost: nat -> bool, ghost s: State)
    returns (n: nat, ghost more: seq<Miss>)
    requires vm.Valid() && Leads(s, vm.Abs()) && vm.writer.Gathering? && vm.writer.gathered == {}
    requires HoldsOnly(vm.Abs(), {}) && |vm.writer.batch| < vm.writer.target
    requires AllMissed(s, missed, lost) && forall i :: 0 <= i < |missed| ==> missed[i].try < try
    modifies vm.Repr()
    ensures vm.Valid() && Leads(s, vm.Abs()) && vm.writer.Gathering? && vm.writer.gathered == {}
    ensures HoldsOnly(vm.Abs(), {})
    ensures vm.writer.target == old(vm.writer.target) && |vm.writer.batch| == old(|vm.writer.batch|) + n
    ensures AllMissed(s, more, lost) && forall i :: 0 <= i < |more| ==> more[i].try < try + 1
    ensures |more| == |missed| + if n == 0 then 1 else 0
  {
    ghost var at;
    n, at := GatherMore(vm, lost(try), s);
    more := missed;
    if n == 0 {
      OneMoreMiss(s, missed, lost, Miss(try, at));
      more := missed + [Miss(try, at)];
    }
  }

  lemma OneMoreMiss(s: State, missed: seq<Miss>, lost: nat -> bool, miss: Miss)
    requires AllMissed(s, missed, lost) && forall i :: 0 <= i < |missed| ==> missed[i].try < miss.try
    requires Leads(s, miss.at) && (lost(miss.try) || NoneUnlocked(miss.at, ModifiedList))
    ensures AllMissed(s, missed + [miss], lost)
  {
  }

  /** One turn of lines 50 to 82. */
  method GatherMore(vm: Vm, lost: bool, ghost s: State) returns (n: nat, ghost at: State)
    requires vm.Valid() && Leads(s, vm.Abs()) && vm.writer.Gathering? && vm.writer.gathered == {}
    requires HoldsOnly(vm.Abs(), {}) && |vm.writer.batch| < vm.writer.target
    modifies vm.Repr()
    ensures vm.Valid() && Leads(s, vm.Abs()) && vm.writer.Gathering? && vm.writer.gathered == {}
    ensures HoldsOnly(vm.Abs(), {})
    ensures vm.writer.target == old(vm.writer.target) && |vm.writer.batch| == old(|vm.writer.batch|) + n
    ensures Leads(s, at) && (n == 0 ==> lost || NoneUnlocked(at, ModifiedList))
  {
    PauseWriter(vm, {}, s);
    at := vm.Abs();
    n := TakeBatch(vm, lost);
    LeadsOn(s, at, vm.Abs());
    assert n == 0 ==> vm.writer.gathered == {};
    MarkBatch(vm, s);
  }

  // ---------- Copying ----------

  /** pop_slot. The stash is not empty. */
  method Pop(vm: Vm)
    requires vm.Valid() && vm.writer.Copying? && vm.writer.slot == None && vm.writer.next < |vm.writer.batch|
    modifies vm.Repr()
    ensures vm.Valid() && Leads(old(vm.Abs()), vm.Abs()) && vm.writer.Copying? && vm.writer.slot.Some?
    ensures vm.writer == old(vm.writer).(slot := vm.writer.slot, copied := 0) && vm.pfnLock[..] == old(vm.pfnLock[..])
  {
    StashHasSlot(vm.Abs());
    var d: nat :| d < vm.owner.Length && vm.owner[d] == Stashed;
    OneStep(vm.Abs(), ByWriter(PopSlot(d)));
    TakeFromStash(vm, d);
  }

  method TakeFromStash(vm: Vm, d: nat)
    requires d < vm.owner.Length && vm.writer.Copying?
    modifies vm, vm.owner
    ensures var s := old(vm.Abs());
            vm.Abs() == s.(owner := s.owner[d := InFlight], stashed := s.stashed - 1,
                writer := s.writer.(slot := Some(d), copied := 0))
  {
    vm.SetOwner(d, InFlight);
    vm.stashed := vm.stashed - 1;
    vm.writer := vm.writer.(slot := Some(d), copied := 0);
  }

  lemma StashHasSlot(s: State)
    requires Inv(s) && s.writer.Copying? && s.writer.slot == None && s.writer.next < |s.writer.batch|
    ensures exists d: nat :: d < |s.owner| && s.owner[d] == Stashed
  {
    assert multiset(s.owner)[Stashed] > 0;
    assert Stashed in s.owner;
  }

  method CopyOneWord(vm: Vm)
    requires vm.Valid() && CopyWordEnabled(vm.Abs())
    modifies vm.Repr()
    ensures vm.Valid() && Leads(old(vm.Abs()), vm.Abs()) && vm.Abs() == CopyWordStep(old(vm.Abs()))
  {
    OneStep(vm.Abs(), ByWriter(CopyWord));
    var Copying(batch, next, slot, k, _) := vm.writer;
    StoreCopied(vm, slot.value, k, vm.mem[batch[next]][k]);
  }

  method StoreCopied(vm: Vm, d: nat, k: nat, w: bv64)
    requires vm.Apart() && vm.writer.Copying? && d < vm.disk.Length && k < |vm.disk[d]|
    modifies vm, vm.disk
    ensures var s := old(vm.Abs());
            vm.Abs() == s.(disk := s.disk[d := s.disk[d][k := w]], writer := s.writer.(copied := k + 1))
  {
    vm.StoreDiskWord(d, k, w);
    vm.writer := vm.writer.(copied := k + 1);
  }

  /** The page as gathered, with its slot popped. */
  ghost predicate AtPage(s: State, batch: seq<nat>, i: nat) {
    && s.writer.Copying? && s.writer.batch == batch && s.writer.next == i && i < |batch| && s.writer.slot.Some?
    && !s.writer.locked
  }

  /** Lines 117 to 119: a copy without the page's lock. Its user may store to it meanwhile. */
  method CopyPage(vm: Vm, batch: seq<nat>, i: nat, ghost written: set<nat>, ghost s: State)
    requires vm.Valid() && Leads(s, vm.Abs()) && AtPage(vm.Abs(), batch, i) && vm.writer.copied == 0
    requires HoldsOnly(vm.Abs(), written)
    modifies vm.Repr()
    ensures vm.Valid() && Leads(s, vm.Abs()) && AtPage(vm.Abs(), batch, i) && vm.writer.copied == vm.words
    ensures HoldsOnly(vm.Abs(), written)
  {
    var k := 0;
    while k < vm.words
      invariant k <= vm.words && vm.Valid() && Leads(s, vm.Abs()) && AtPage(vm.Abs(), batch, i) && vm.writer.copied == k
      invariant HoldsOnly(vm.Abs(), written)
    {
      CopyNext(vm, batch, i, written, s);
      k := k + 1;
    }
  }

  method CopyNext(vm: Vm, ghost batch: seq<nat>, ghost i: nat, ghost written: set<nat>, ghost s: State)
    requires vm.Valid() && Leads(s, vm.Abs()) && AtPage(vm.Abs(), batch, i) && vm.writer.copied < vm.words
    requires HoldsOnly(vm.Abs(), written)
    modifies vm.Repr()
    ensures vm.Valid() && Leads(s, vm.Abs()) && AtPage(vm.Abs(), batch, i) && HoldsOnly(vm.Abs(), written)
    ensures vm.writer.copied == old(vm.writer.copied) + 1
  {
    PauseWriter(vm, written, s);
    ghost var r := vm.Abs();
    CopyOneWord(vm);
    LeadsOn(s, r, vm.Abs());
  }

  /** Line 122: the writer waits, and gives up only after so many looks. */
  method AwaitPage(vm: Vm, batch: seq<nat>, i: nat, spins: nat, ghost written: set<nat>, ghost s: State)
    returns (free: bool, ghost held: seq<State>)
    requires vm.Valid() && Leads(s, vm.Abs()) && AtPage(vm.Abs(), batch, i) && vm.writer.copied == vm.words
    requires HoldsOnly(vm.Abs(), written)
    modifies vm.Repr()
    ensures vm.Valid() && Leads(s, vm.Abs()) && AtPage(vm.Abs(), batch, i) && vm.writer.copied == vm.words
    ensures HoldsOnly(vm.Abs(), written) && batch[i] < vm.pfnLock.Length
    ensures free <==> vm.pfnLock[batch[i]] == Nobody
    ensures !free ==> |held| == spins && AllHeld(s, held, batch[i])
  {
    var tries := 0;
    held := [];
    while tries < spins && vm.pfnLock[batch[i]] != Nobody
      invariant vm.Valid() && Leads(s, vm.Abs()) && AtPage(vm.Abs(), batch, i) && vm.writer.copied == vm.words
      invariant HoldsOnly(vm.Abs(), written) && tries == |held| <= spins && AllHeld(s, held, batch[i])
    {
      held := held + [vm.Abs()];
      PauseWriter(vm, written, s);
      tries := tries + 1;
    }
    free := vm.pfnLock[batch[i]] == Nobody;
  }

  method LockPage(vm: Vm)
    requires vm.Valid() && WriteLockEnabled(vm.Abs())
    modifies vm.Repr()
    ensures vm.Valid() && Leads(old(vm.Abs()), vm.Abs()) && vm.Abs() == WriteLockStep(old(vm.Abs()))
  {
    OneStep(vm.Abs(), ByWriter(WriteLock));
    vm.SetPfnLock(vm.writer.batch[vm.writer.next], Writer);
    vm.writer := vm.writer.(locked := true);
  }

  method CommitPage(vm: Vm, f: nat, d: nat, next: Writing)
    requires vm.Apart() && f < vm.status.Length && f < vm.place.Length && d < vm.owner.Length
    modifies vm, vm.status, vm.place, vm.owner
    ensures var s := old(vm.Abs());
            vm.Abs() == s.(status := s.status[f := Standby(d)], owner := s.owner[d := OfFrame(f)],
                           place := s.place[f := Written], writer := next)
  {
    vm.SetPfnStatus(f, Standby(d));
    vm.SetOwner(d, OfFrame(f));
    vm.SetPlace(f, Written);
    vm.writer := next;
  }

  method UndoPage(vm: Vm, f: nat, d: nat, next: Writing)
    requires vm.Apart() && f < vm.pfnLock.Length && d < vm.bit.Length && d < vm.owner.Length
    modifies vm, vm.pfnLock, vm.bit, vm.owner
    ensures var s := old(vm.Abs());
            vm.Abs() == ClearSlot(s, d).(pfnLock := s.pfnLock[f := Nobody], writer := next)
  {
    vm.SetPfnLock(f, Nobody);
    vm.ClearDiskSlot(d);
    vm.writer := next;
  }

  /** Lines 127 to 149: with the page locked its status decides whether the copy counts. */
  method Settle(vm: Vm) returns (counts: bool)
    requires vm.Valid() && WriteSettleEnabled(vm.Abs())
    modifies vm.Repr()
    ensures vm.Valid() && Leads(old(vm.Abs()), vm.Abs()) && vm.Abs() == WriteSettleStep(old(vm.Abs()))
    ensures counts == StillMidWrite(old(vm.Abs()))
  {
    OneStep(vm.Abs(), ByWriter(WriteSettle));
    counts := vm.status[vm.writer.batch[vm.writer.next]].MidWrite?;
    if counts {
      Commit(vm);
    } else {
      Undo(vm);
    }
  }

  method Commit(vm: Vm)
    requires vm.Valid() && WriteSettleEnabled(vm.Abs()) && StillMidWrite(vm.Abs())
    modifies vm.Repr()
    ensures vm.Abs() == WriteCommitStep(old(vm.Abs()))
  {
    var Copying(batch, next, slot, _, _) := vm.writer;
    CommitPage(vm, batch[next], slot.value, Copying(batch, next + 1, None, 0, false));
  }

  method Undo(vm: Vm)
    requires vm.Valid() && WriteSettleEnabled(vm.Abs()) && !StillMidWrite(vm.Abs())
    modifies vm.Repr()
    ensures vm.Abs() == WriteUndoStep(old(vm.Abs()))
  {
    var Copying(batch, next, slot, _, _) := vm.writer;
    UndoPage(vm, batch[next], slot.value, Copying(batch, next + 1, None, 0, false));
  }

  /** Between two pages: i pages are settled. */
  ghost predicate Between(s: State, batch: seq<nat>, i: nat) {
    s.writer == Copying(batch, i, None, 0, false) && i <= |batch|
  }

  /** The writer has locked the i-th page of the batch. */
  ghost predicate Settling(s: State, batch: seq<nat>, i: nat) {
    WriteSettleEnabled(s) && s.writer.batch == batch && s.writer.next == i && i < |batch|
  }

  lemma LockedPage(s: State, r: State, written: set<nat>)
    requires Inv(s) && WriteLockEnabled(s) && r == WriteLockStep(s) && HoldsOnly(s, written)
    ensures HoldsOnly(r, written + {s.writer.batch[s.writer.next]}) && s.writer.batch[s.writer.next] !in written
  {
  }

  /** The lock of the page that was settled is kept if its copy counts. */
  lemma SettledPage(s: State, r: State, written: set<nat>)
    requires Inv(s) && WriteSettleEnabled(s) && r == WriteSettleStep(s) && s.writer.next < |s.writer.batch|
    requires HoldsOnly(s, written + {s.writer.batch[s.writer.next]}) && s.writer.batch[s.writer.next] !in written
    ensures HoldsOnly(r, if StillMidWrite(s) then written + {s.writer.batch[s.writer.next]} else written)
    ensures Between(r, s.writer.batch, s.writer.next + 1)
  {
  }

  /** One turn of lines 105 to 150. */
  method WritePage(vm: Vm, batch: seq<nat>, i: nat, spins: nat, written: set<nat>, ghost s: State)
    returns (settled: bool, more: set<nat>, ghost at: State)
    requires vm.Valid() && Leads(s, vm.Abs()) && Between(vm.Abs(), batch, i) && i < |batch|
    requires HoldsOnly(vm.Abs(), written)
    modifies vm.Repr()
    ensures vm.Valid() && Leads(s, vm.Abs()) && Leads(s, at)
    ensures settled ==> Between(vm.Abs(), batch, i + 1) && Settling(at, batch, i) && HoldsOnly(vm.Abs(), more)
    ensures settled ==> more == written + if StillMidWrite(at) then {batch[i]} else {}
    ensures !settled ==> AtPage(vm.Abs(), batch, i) && batch[i] < vm.pfnLock.Length && vm.pfnLock[batch[i]] != Nobody
  {
    PopFor(vm, batch, i, written, s);
    CopyPage(vm, batch, i, written, s);
    ghost var held;
    settled, held := AwaitPage(vm, batch, i, spins, written, s);
    more, at := written, vm.Abs();
    if settled {
      more, at := SettlePage(vm, batch, i, written, s);
    }
  }

  method PopFor(vm: Vm, batch: seq<nat>, i: nat, ghost written: set<nat>, ghost s: State)
    requires vm.Valid() && Leads(s, vm.Abs()) && Between(vm.Abs(), batch, i) && i < |batch|
    requires HoldsOnly(vm.Abs(), written)
    modifies vm.Repr()
    ensures vm.Valid() && Leads(s, vm.Abs()) && AtPage(vm.Abs(), batch, i) && vm.writer.copied == 0
    ensures HoldsOnly(vm.Abs(), written)
  {
    ghost var r := vm.Abs();
    Pop(vm);
    LeadsOn(s, r, vm.Abs());
    assert vm.Abs().pfnLock == r.pfnLock;
  }

  /** Lines 122 to 149, the page's lock being free. */
  method SettlePage(vm: Vm, batch: seq<nat>, i: nat, written: set<nat>, ghost s: State)
    returns (more: set<nat>, ghost at: State)
    requires vm.Valid() && Leads(s, vm.Abs()) && AtPage(vm.Abs(), batch, i) && WriteLockEnabled(vm.Abs())
    requires HoldsOnly(vm.Abs(), written)
    modifies vm.Repr()
    ensures vm.Valid() && Leads(s, vm.Abs()) && Leads(s, at)
    ensures Between(vm.Abs(), batch, i + 1) && Settling(at, batch, i) && HoldsOnly(vm.Abs(), more)
    ensures more == written + if StillMidWrite(at) then {batch[i]} else {}
  {
    LockForSettling(vm, batch, i, written, s);
    PauseWriter(vm, written + {batch[i]}, s);
    at := vm.Abs();
    more := SettleLocked(vm, batch, i, written);
    LeadsOn(s, at, vm.Abs());
  }

  method SettleLocked(vm: Vm, batch: seq<nat>, i: nat, written: set<nat>) returns (more: set<nat>)
    requires vm.Valid() && Settling(vm.Abs(), batch, i)
    requires HoldsOnly(vm.Abs(), written + {batch[i]}) && batch[i] !in written
    modifies vm.Repr()
    ensures vm.Valid() && Leads(old(vm.Abs()), vm.Abs())
    ensures Between(vm.Abs(), batch, i + 1) && HoldsOnly(vm.Abs(), more)
    ensures more == written + if StillMidWrite(old(vm.Abs())) then {batch[i]} else {}
  {
    ghost var at := vm.Abs();
    var counts := Settle(vm);
    SettledPage(at, vm.Abs(), written);
    more := if counts then written + {batch[i]} else written;
  }

  method LockForSettling(vm: Vm, batch: seq<nat>, i: nat, ghost written: set<nat>, ghost s: State)
    requires vm.Valid() && Leads(s, vm.Abs()) && AtPage(vm.Abs(), batch, i) && WriteLockEnabled(vm.Abs())
    requires HoldsOnly(vm.Abs(), written)
    modifies vm.Repr()
    ensures vm.Valid() && Leads(s, vm.Abs()) && Settling(vm.Abs(), batch, i)
    ensures HoldsOnly(vm.Abs(), written + {batch[i]}) && batch[i] !in written
  {
    ghost var r := vm.Abs();
    LockPage(vm);
    LeadsOn(s, r, vm.Abs());
    LockedPage(r, vm.Abs(), written);
  }

  /** The pages whose copies count, given the state at which each was settled. */
  ghost function Commits(seen: seq<State>, batch: seq<nat>): set<nat> {
    set k: nat | k < |seen| && k < |batch| && StillMidWrite(seen[k]) :: batch[k]
  }

  lemma OneMoreCommit(seen: seq<State>, at: State, batch: seq<nat>)
    requires |seen| < |batch|
    ensures Commits(seen + [at], batch) == Commits(seen, batch) + if StillMidWrite(at) then {batch[|seen|]} else {}
  {
    var more := seen + [at];
    forall f | f in Commits(more, batch)
      ensures f in Commits(seen, batch) + if StillMidWrite(at) then {batch[|seen|]} else {} {
      var k: nat :| k < |more| && k < |batch| && StillMidWrite(more[k]) && f == batch[k];
      assert k < |seen| ==> more[k] == seen[k];
    }
    forall f | f in Commits(seen, batch) ensures f in Commits(more, batch) {
      var k: nat :| k < |seen| && k < |batch| && StillMidWrite(seen[k]) && f == batch[k];
      assert more[k] == seen[k];
    }
    assert more[|seen|] == at;
  }

  ghost predicate AllSettling(seen: seq<State>, batch: seq<nat>) {
    forall k :: 0 <= k < |seen| ==> Settling(seen[k], batch, k)
  }

  /** Lines 105 to 150: every page of the batch is settled, one after the other. */
  method WriteAll(vm: Vm, batch: seq<nat>, spins: nat, ghost s: State)
    returns (settled: bool, written: set<nat>, ghost seen: seq<State>)
    requires vm.Valid() && Leads(s, vm.Abs()) && Between(vm.Abs(), batch, 0) && HoldsOnly(vm.Abs(), {})
    modifies vm.Repr()
    ensures vm.Valid() && Leads(s, vm.Abs()) && AllLed(s, seen) && AllSettling(seen, batch) && |seen| <= |batch|
    ensures settled <==> |seen| == |batch|
    ensures settled ==> Between(vm.Abs(), batch, |batch|) && HoldsOnly(vm.Abs(), written)
    ensures settled ==> written == Commits(seen, batch)
    ensures !settled ==> AtPage(vm.Abs(), batch, |seen|) && batch[|seen|] < vm.pfnLock.Length
    ensures !settled ==> vm.pfnLock[batch[|seen|]] != Nobody
  {
    var i := 0;
    settled, written, seen := true, {}, [];
    while i < |batch|
      invariant i <= |batch| && vm.Valid() && Leads(s, vm.Abs()) && settled
      invariant Progress(s, seen, batch, written, i) && Between(vm.Abs(), batch, i) && HoldsOnly(vm.Abs(), written)
    {
      ghost var at;
      var more;
      settled, more, at := WritePage(vm, batch, i, spins, written, s);
      if !settled { return; }
      ProgressGoesOn(s, seen, batch, written, i, at);
      written, i, seen := more, i + 1, seen + [at];
    }
  }

  /** i pages were settled in the states seen, and the pages written are those whose copies count. */
  ghost predicate Progress(s: State, seen: seq<State>, batch: seq<nat>, written: set<nat>, i: nat) {
    i == |seen| <= |batch| && AllLed(s, seen) && AllSettling(seen, batch) && written == Commits(seen, batch)
  }

  lemma ProgressGoesOn(s: State, seen: seq<State>, batch: seq<nat>, written: set<nat>, i: nat, at: State)
    requires Progress(s, seen, batch, written, i) && i < |batch| && Leads(s, at) && Settling(at, batch, i)
    ensures Progress(s, seen + [at], batch, written + if StillMidWrite(at) then {batch[i]} else {}, i + 1)
  {
    OneMoreCommit(seen, at, batch);
  }

  // ---------- Publishing ----------

  method PlaceOnStandbyList(vm: Vm)
    requires vm.Apart()
    modifies vm.place
    ensures vm.Abs() == old(vm.Abs()).(place := vm.place[..])
    ensures forall f :: 0 <= f < vm.place.Length
              ==> vm.place[f] == if old(vm.place[f]).Written? then StandbyList else old(vm.place[f])
  {
    forall f | 0 <= f < vm.place.Length && vm.place[f].Written? {
      vm.place[f] := StandbyList;
    }
  }

  /** insert_list_to_tail_list: the written pages are linked onto the standby list. */
  method Splice(vm: Vm)
    requires vm.Valid() && WriteSpliceEnabled(vm.Abs())
    modifies vm.Repr()
    ensures vm.Valid() && Leads(old(vm.Abs()), vm.Abs()) && vm.Abs() == WriteSpliceStep(old(vm.Abs()))
  {
    ghost var s := vm.Abs();
    OneStep(s, ByWriter(WriteSplice));
    PlaceOnStandbyList(vm);
    vm.writer := Publishing;
    assert vm.place[..] == WriteSpliceStep(s).place;
  }

  method UnlockPage(vm: Vm, f: nat)
    requires vm.Valid() && vm.writer == Publishing && f < vm.pfnLock.Length && vm.pfnLock[f] == Writer
    modifies vm.Repr()
    ensures vm.Valid() && Leads(old(vm.Abs()), vm.Abs()) && vm.Abs() == WriteUnlockStep(old(vm.Abs()), f)
  {
    OneStep(vm.Abs(), ByWriter(WriteUnlock(f)));
    vm.SetPfnLock(f, Nobody);
  }

  method ReleaseNext(vm: Vm, written: set<nat>, ghost s: State) returns (rest: set<nat>)
    requires vm.Valid() && Leads(s, vm.Abs()) && vm.writer == Publishing && HoldsOnly(vm.Abs(), written)
    requires written != {}
    requires forall f :: f in written ==> f < vm.pfnLock.Length
    modifies vm.Repr()
    ensures vm.Valid() && Leads(s, vm.Abs()) && vm.writer == Publishing && HoldsOnly(vm.Abs(), rest)
    ensures rest < written
  {
    PauseWriter(vm, written, s);
    ghost var r := vm.Abs();
    var f :| f in written;
    UnlockPage(vm, f);
    LeadsOn(s, r, vm.Abs());
    rest := written - {f};
  }

  /** Lines 164 to 170. */
  method ReleaseBatch(vm: Vm, written: set<nat>, ghost s: State)
    requires vm.Valid() && Leads(s, vm.Abs()) && vm.writer == Publishing && HoldsOnly(vm.Abs(), written)
    requires forall f :: f in written ==> f < vm.pfnLock.Length
    modifies vm.Repr()
    ensures vm.Valid() && Leads(s, vm.Abs()) && vm.writer == Resting && HoldsOnly(vm.Abs(), {})
  {
    var rest := written;
    while rest != {}
      invariant vm.Valid() && Leads(s, vm.Abs()) && vm.writer == Publishing && HoldsOnly(vm.Abs(), rest)
      invariant forall f :: f in rest ==> f < vm.pfnLock.Length
      decreases rest
    {
      rest := ReleaseNext(vm, rest, s);
    }
    EndWrite(vm, s);
  }

  method EndWrite(vm: Vm, ghost s: State)
    requires vm.Valid() && Leads(s, vm.Abs()) && vm.writer == Publishing && HoldsOnly(vm.Abs(), {})
    modifies vm.Repr()
    ensures vm.Valid() && Leads(s, vm.Abs()) && vm.writer == Resting && HoldsOnly(vm.Abs(), {})
  {
    ghost var r := vm.Abs();
    OneStep(r, ByWriter(WriteEnd));
    vm.writer := Resting;
    LeadsOn(s, r, vm.Abs());
  }

  // ---------- write_pages ----------

  method Start(vm: Vm, target: nat, ghost s: State)
    requires vm.Valid() && Leads(s, vm.Abs()) && WriteStartEnabled(vm.Abs(), target) && HoldsOnly(vm.Abs(), {})
    modifies vm.Repr()
    ensures vm.Valid() && Leads(s, vm.Abs()) && vm.writer == Gathering(target, {}, []) && HoldsOnly(vm.Abs(), {})
  {
    ghost var r := vm.Abs();
    OneStep(r, ByWriter(WriteStart(target)));
    vm.writer := Gathering(target, {}, []);
    LeadsOn(s, r, vm.Abs());
  }

  method Begin(vm: Vm, ghost s: State) returns (batch: seq<nat>)
    requires vm.Valid() && Leads(s, vm.Abs()) && WriteBeginEnabled(vm.Abs()) && HoldsOnly(vm.Abs(), {})
    modifies vm.Repr()
    ensures vm.Valid() && Leads(s, vm.Abs()) && HoldsOnly(vm.Abs(), {})
    ensures batch == old(vm.writer.batch)
    ensures if batch == [] then vm.writer == Resting else Between(vm.Abs(), batch, 0)
  {
    ghost var r := vm.Abs();
    batch := vm.writer.batch;
    OneStep(r, ByWriter(WriteBegin));
    vm.writer := if batch == [] then Resting else Copying(batch, 0, None, 0, false);
    LeadsOn(s, r, vm.Abs());
  }

  /** What write_pages did with a batch, given the states at which pages were settled: all of them, or it waits for a
      page. */
  ghost predicate Wrote(s: State, done: bool, count: nat, batch: seq<nat>, seen: seq<State>) {
    && AllSettling(seen, batch) && |seen| <= |batch|
    && if done then
         s.writer == Resting && HoldsOnly(s, {}) && |seen| == |batch| && count == |Commits(seen, batch)|
       else
         AtPage(s, batch, |seen|) && batch[|seen|] < |s.pfnLock| && s.pfnLock[batch[|seen|]] != Nobody
  }

  /** write_pages, among the other threads: an execution is a run of the protocol. The writer comes to it, and
      leaves it, without a page; it stays in it only if a page's lock is not free within the given spins. */
  method WritePages(vm: Vm, approximate: nat, spins: nat, lost: nat -> bool)
    returns (done: bool, count: nat, ghost round: Round)
    requires vm.Valid() && vm.writer == Resting && HoldsOnly(vm.Abs(), {})
    modifies vm.Repr()
    ensures vm.Valid() && Leads(old(vm.Abs()), vm.Abs())
    ensures Explained(old(vm.Abs()), round, lost) && Wrote(vm.Abs(), done, count, round.batch, round.settled)
    ensures old(vm.emptySlots) < MIN_WRITE_BATCH_SIZE ==> done && round.batch == [] && vm.Abs() == old(vm.Abs())
    ensures old(vm.emptySlots) >= MIN_WRITE_BATCH_SIZE ==>
              Full(round, approximate, old(vm.stashed), vm.bit.Length)
  {
    ghost var s := vm.Abs();
    NoSteps(Writer, s);
    done, count, round := true, 0, Round([], [], [], []);
    assert Commits([], []) == {} && FoundClear([]) == {};
    if vm.emptySlots < MIN_WRITE_BATCH_SIZE { return; }
    var target;
    ghost var looked;
    target, looked := Budget(vm, approximate, s);
    round := Round(looked, [], [], []);
    if target > 0 {
      ghost var batch, missed, settled;
      done, count, batch, missed, settled := WriteRound(vm, target, spins, lost, s);
      round := Round(looked, batch, missed, settled);
    }
  }

  /** Lines 24 to 38: how many pages to write. */
  method Budget(vm: Vm, approximate: nat, ghost s: State) returns (target: nat, ghost looked: seq<State>)
    requires vm.Valid() && Leads(s, vm.Abs()) && vm.writer == Resting && HoldsOnly(vm.Abs(), {})
    modifies vm.Repr()
    ensures vm.Valid() && Leads(s, vm.Abs()) && vm.writer == Resting && HoldsOnly(vm.Abs(), {})
    ensures AllLed(s, looked) && vm.stashed == old(vm.stashed) + |FoundClear(looked)|
    ensures target <= approximate && target <= MAX_WRITE_BATCH_SIZE && target <= vm.stashed
    ensures target == approximate || target == MAX_WRITE_BATCH_SIZE || target == vm.stashed
    ensures vm.stashed < approximate && vm.stashed < MAX_WRITE_BATCH_SIZE ==> |looked| == vm.bit.Length
  {
    target := Smaller(approximate, MAX_WRITE_BATCH_SIZE);
    looked := [];
    assert FoundClear([]) == {};
    if vm.stashed < target {
      looked := TopUp(vm, target, s);
    }
    if vm.stashed < MIN_WRITE_BATCH_SIZE { return 0, looked; }
    target := Smaller(vm.stashed, target);
  }

  function Smaller(a: int, b: int): int {
    if a < b then a else b
  }

  /** What a call did: the states at which slots were looked at, the pages gathered, the removals that got
      nothing, and the states at which pages were settled. */
  datatype Round = Round(looked: seq<State>, batch: seq<nat>, missed: seq<Miss>, settled: seq<State>)

  ghost predicate Explained(s: State, round: Round, lost: nat -> bool) {
    AllLed(s, round.looked) && AllMissed(s, round.missed, lost) && AllLed(s, round.settled)
  }

  /** As many pages are gathered as are wanted and as there are slots for, unless five removals got nothing; and
      if the slots are fewer than wanted, every slot was looked at, and those found clear are in the stash. */
  ghost predicate Full(round: Round, wanted: nat, stash: int, slots: nat) {
    var stock, n := stash + |FoundClear(round.looked)|, |round.batch|;
    && n <= wanted && n <= MAX_WRITE_BATCH_SIZE && n <= stock
    && (stock < wanted && stock < MAX_WRITE_BATCH_SIZE ==> |round.looked| == slots)
    && (n < wanted && n < MAX_WRITE_BATCH_SIZE && n < stock ==> |round.missed| == BATCH_ATTEMPTS)
  }

  /** Lines 50 to 178. */
  method WriteRound(vm: Vm, target: nat, spins: nat, lost: nat -> bool, ghost s: State)
    returns (done: bool, count: nat, ghost batch: seq<nat>, ghost missed: seq<Miss>, ghost seen: seq<State>)
    requires vm.Valid() && Leads(s, vm.Abs()) && WriteStartEnabled(vm.Abs(), target) && HoldsOnly(vm.Abs(), {})
    modifies vm.Repr()
    ensures vm.Valid() && Leads(s, vm.Abs())
    ensures AllLed(s, seen) && Wrote(vm.Abs(), done, count, batch, seen) && |batch| <= target
    ensures AllMissed(s, missed, lost) && (|batch| < target ==> |missed| == BATCH_ATTEMPTS)
  {
    Start(vm, target, s);
    missed := Gather(vm, lost, s);
    var pages := Begin(vm, s);
    batch := pages;
    if pages == [] {
      done, count, seen := true, 0, [];
      assert Commits(seen, batch) == {};
    } else {
      done, count, seen := WriteGathered(vm, pages, spins, s);
    }
  }

  /** Lines 105 to 170. */
  method WriteGathered(vm: Vm, batch: seq<nat>, spins: nat, ghost s: State)
    returns (done: bool, count: nat, ghost seen: seq<State>)
    requires vm.Valid() && Leads(s, vm.Abs()) && Between(vm.Abs(), batch, 0) && HoldsOnly(vm.Abs(), {})
    modifies vm.Repr()
    ensures vm.Valid() && Leads(s, vm.Abs())
    ensures AllLed(s, seen) && Wrote(vm.Abs(), done, count, batch, seen)
  {
    var written;
    done, written, seen := WriteAll(vm, batch, spins, s);
    count := |written|;
    if done {
      Publish(vm, batch, written, s);
    }
  }

  method Publish(vm: Vm, batch: seq<nat>, written: set<nat>, ghost s: State)
    requires vm.Valid() && Leads(s, vm.Abs()) && Between(vm.Abs(), batch, |batch|) && HoldsOnly(vm.Abs(), written)
    requires forall f :: f in written ==> f in batch
    modifies vm.Repr()
    ensures vm.Valid() && Leads(s, vm.Abs()) && vm.writer == Resting && HoldsOnly(vm.Abs(), {})
  {
    ghost var r := vm.Abs();
    Splice(vm);
    LeadsOn(s, r, vm.Abs());
    ReleaseBatch(vm, written, s);
  }
}
