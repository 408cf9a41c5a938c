/** Initial states, runs, and the invariant over every run. */
module Runs {
  import opened Types
  import opened VmState
  import opened Steps
  import opened Preservation

  /** Start-up: every frame is on a free list with arbitrary contents, every entry is
      zeroed, and only the reserved slot zero is in use. */
  ghost predicate Init(s: State) {
    && Shape(s)
    && 0 < |s.owner|
    && (forall p :: 0 <= p < |s.pte| ==> s.pte[p] == Zeroed && s.pteLock[p] == Nobody && s.mapped[p] == None)
    && (forall f :: 0 <= f < |s.place| ==>
          s.place[f] == FreeList && s.status[f] == Free && s.back[f] == None && s.pfnLock[f] == Nobody)
    && (forall d :: 0 <= d < |s.owner| ==> s.owner[d] == if d == 0 then Reserved else Unused)
    && (forall d :: 0 <= d < |s.bit| ==> s.bit[d] == (d == 0))
    && s.emptySlots == |s.owner| - 1 && s.stashed == 0
    && (forall t :: 0 <= t < |s.thread| ==> s.thread[t] == Idle && s.cache[t] == {})
    && s.trim == Scanning(None) && s.writer == Resting
  }

  lemma InitHasInv(s: State)
    requires Init(s)
    ensures Inv(s)
  {
    assert s.owner == [Reserved] + seq(|s.owner| - 1, i => Unused);
    CountConstant(Unused, |s.owner| - 1);
  }

  lemma {:induction false} CountConstant(x: SlotOwner, n: nat)
    ensures multiset(seq(n, i => x)) == multiset{}[x := n]
  {
    if n > 0 {
      CountConstant(x, n - 1);
      assert seq(n, i => x) == seq(n - 1, i => x) + [x];
    }
  }

  lemma UserKeepsInv(s: State, l: FaultLabel)
    requires Inv(s) && UserEnabled(s, l)
    ensures Inv(UserApply(s, l))
  {
    match l
    case UserWrite(p, off, v) => UserWriteKeepsInv(s, p, off, v);
    case SoftStart(t, p) => SoftStartKeepsInv(s, t, p);
    case SoftLockPte(t) => if s.pte[s.thread[t].p].Transition? { SoftSnapshotKeepsInv(s, t); } else
      { SoftMissKeepsInv(s, t); }
    case SoftLockPfn(t) => SoftLockPfnKeepsInv(s, t);
    case SoftRecheck(t) => if LostPage(s, t) { SoftYieldKeepsInv(s, t); } else { SoftRescueKeepsInv(s, t); }
    case SoftMap(t) => SoftMapKeepsInv(s, t);
    case SoftFinish(t) => SoftFinishKeepsInv(s, t);
    case HardPop(t, p, f) => HardPopKeepsInv(s, t, p, f);
    case HardLockPfn(t) => HardLockPfnKeepsInv(s, t);
    case HardLockPte(t) => if HardTooLate(s, t) { HardGiveBackKeepsInv(s, t); } else { HardMapKeepsInv(s, t); }
    case HardFill(t) => HardFillKeepsInv(s, t);
    case HardClear(t) => HardClearKeepsInv(s, t);
    case HardFinish(t) => HardFinishKeepsInv(s, t);
    case Refill(t, pages) => RefillKeepsInv(s, t, pages);
    case RepurposeTake(t, pages) => RepurposeTakeKeepsInv(s, t, pages);
    case RepurposeOne(t, f) => RepurposeOneKeepsInv(s, t, f);
  }

  lemma TrimKeepsInv(s: State, l: TrimLabel)
    requires Inv(s) && TrimEnabled(s, l)
    ensures Inv(TrimApply(s, l))
  {
    match l
    case TrimLockPte(p) => TrimLockPteKeepsInv(s, p);
    case TrimLockPfn => TrimLockPfnKeepsInv(s);
    case TrimUnmap => TrimUnmapKeepsInv(s);
    case TrimMark(f) => TrimMarkKeepsInv(s, f);
    case TrimSplice => TrimSpliceKeepsInv(s);
    case TrimUnlock(f) => TrimUnlockKeepsInv(s, f);
    case TrimEnd => TrimEndKeepsInv(s);
  }

  lemma WriteKeepsInv(s: State, l: WriteLabel)
    requires Inv(s) && WriteEnabled(s, l)
    ensures Inv(WriteApply(s, l))
  {
    match l
    case WriteAlloc(d) => WriteAllocKeepsInv(s, d);
    case WriteStart(target) => WriteStartKeepsInv(s, target);
    case GatherTake(pages) => GatherTakeKeepsInv(s, pages);
    case GatherMark(f) => GatherMarkKeepsInv(s, f);
    case WriteBegin => WriteBeginKeepsInv(s);
    case PopSlot(d) => PopSlotKeepsInv(s, d);
    case CopyWord => CopyWordKeepsInv(s);
    case WriteLock => WriteLockKeepsInv(s);
    case WriteSettle => if StillMidWrite(s) { WriteCommitKeepsInv(s); } else { WriteUndoKeepsInv(s); }
    case WriteSplice => WriteSpliceKeepsInv(s);
    case WriteUnlock(f) => WriteUnlockKeepsInv(s, f);
    case WriteEnd => WriteEndKeepsInv(s);
  }

  lemma ListKeepsInv(s: State, l: ListLabel)
    requires Inv(s) && ListEnabled(s, l)
    ensures Inv(ListApply(s, l))
  {
    match l
    case Borrow(f) => BorrowKeepsInv(s, f);
    case Return(f) => ReturnKeepsInv(s, f);
  }

  /** Every step, by whichever thread, keeps the invariant. */
  lemma StepKeepsInv(s: State, l: Label)
    requires Inv(s) && Enabled(s, l)
    ensures Inv(Apply(s, l))
  {
    match l
    case ByUser(u) => UserKeepsInv(s, u);
    case ByTrimmer(u) => TrimKeepsInv(s, u);
    case ByWriter(u) => WriteKeepsInv(s, u);
    case OnList(u) => ListKeepsInv(s, u);
  }

  /** Each label is enabled in the state the ones before it lead to. */
  ghost predicate IsRun(s: State, ls: seq<Label>)
    requires Inv(s)
    decreases |ls|
  {
    ls != [] ==> Enabled(s, ls[0]) && (StepKeepsInv(s, ls[0]); IsRun(Apply(s, ls[0]), ls[1..]))
  }

  /** The state a run leads to. */
  ghost function Final(s: State, ls: seq<Label>): (r: State)
    requires Inv(s) && IsRun(s, ls)
    ensures Inv(r)
    decreases |ls|
  {
    if ls == [] then s
    else
      StepKeepsInv(s, ls[0]);
      Final(Apply(s, ls[0]), ls[1..])
  }

  /** A state that some interleaving of steps leads to from start-up. */
  ghost predicate Reachable(s: State) {
    exists s0, ls :: Init(s0) && Inv(s0) && IsRun(s0, ls) && Final(s0, ls) == s
  }

  lemma ReachableHasInv(s: State)
    requires Reachable(s)
    ensures Inv(s)
  {
    var s0, ls :| Init(s0) && Inv(s0) && IsRun(s0, ls) && Final(s0, ls) == s;
  }
}
