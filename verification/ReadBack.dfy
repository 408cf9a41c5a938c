/** A stored word goes to disk with its page and is read back into another frame, step by step.
    One entry, two frames, one free slot and two user threads; frame 1 is not used before the end. */
module ReadBack {
  import opened Types
  import opened VmState
  import opened Steps
  import opened Runs
  import opened Interleaving
  import opened SmallWorld

  function Begun(g: bv64): State {
    State(1, [Zeroed], [Nobody], [None], [Status.Free, Status.Free], [None, None], [Nobody, Nobody], [[0], [g]],
          [FreeList, FreeList], [[0], [0]], [true, false], [Reserved, Unused], 1, 0, [{}, {}], [Idle, Idle],
          Scanning(None), Resting)
  }

  lemma BeginIsReached(g: bv64)
    ensures Reached(Begun(g))
  {
    InitHasInv(Begun(g));
    assert IsRun(Begun(g), []) && Final(Begun(g), []) == Begun(g);
  }

  // ---------- First use ----------

  function InUse(g: bv64): State {
    Begun(g).(pte := [Valid(0)], mapped := [Some(0)], status := [Active, Status.Free], back := [Some(0), None],
              place := [Resident, FreeList])
  }

  lemma FirstUse(g: bv64)
    ensures Reached(InUse(g))
  {
    BeginIsReached(g);
    var s1 := Begun(g).(cache := [{0}, {}], place := [Cache(0), FreeList]);
    assert RefillStep(Begun(g), 0, {0}) == s1;
    UserStep(Begun(g), Refill(0, {0}), s1);
    Pop(s1, g);
  }

  lemma Pop(s1: State, g: bv64)
    requires Reached(s1) && s1 == Begun(g).(cache := [{0}, {}], place := [Cache(0), FreeList])
    ensures Reached(InUse(g))
  {
    var s2 := Begun(g).(place := [Hand(0), FreeList], thread := [HardWantsPfn(0, 0), Idle]);
    var emptied: set<nat> := {0} - {0};
    assert emptied == {};
    assert HardPopStep(s1, 0, 0, 0) == s2;
    UserStep(s1, HardPop(0, 0, 0), s2);
    Lock(s2, g);
  }

  lemma Lock(s2: State, g: bv64)
    requires Reached(s2) && s2 == Begun(g).(place := [Hand(0), FreeList], thread := [HardWantsPfn(0, 0), Idle])
    ensures Reached(InUse(g))
  {
    var s3 := s2.(pfnLock := [User(0), Nobody], thread := [HardLocked(0, 0), Idle]);
    assert HardLockPfnStep(s2, 0) == s3;
    UserStep(s2, HardLockPfn(0), s3);
    Map(s3, g);
  }

  lemma Map(s3: State, g: bv64)
    requires Reached(s3)
    requires s3 == Begun(g).(place := [Hand(0), FreeList], pfnLock := [User(0), Nobody],
               thread := [HardLocked(0, 0), Idle])
    ensures Reached(InUse(g))
  {
    var s4 := s3.(pteLock := [User(0)], mapped := [Some(0)], thread := [HardMapped(0, 0, 0), Idle]);
    assert HardMapStep(s3, 0) == s4;
    UserStep(s3, HardLockPte(0), s4);
    Fill(s4, g);
  }

  lemma Fill(s4: State, g: bv64)
    requires Reached(s4)
    requires s4 == Begun(g).(place := [Hand(0), FreeList], pfnLock := [User(0), Nobody], pteLock := [User(0)],
               mapped := [Some(0)], thread := [HardMapped(0, 0, 0), Idle])
    ensures Reached(InUse(g))
  {
    var s5 := s4.(thread := [HardMapped(0, 0, 1), Idle]);
    assert [0 as bv64][0 := 0] == [0];
    assert HardFillStep(s4, 0) == s5;
    UserStep(s4, HardFill(0), s5);
    Settle(s5, g);
  }

  lemma Settle(s5: State, g: bv64)
    requires Reached(s5)
    requires s5 == Begun(g).(place := [Hand(0), FreeList], pfnLock := [User(0), Nobody], pteLock := [User(0)],
               mapped := [Some(0)], thread := [HardMapped(0, 0, 1), Idle])
    ensures Reached(InUse(g))
  {
    var s6 := s5.(thread := [HardFilled(0, 0), Idle]);
    assert HardClearStep(s5, 0) == s6;
    UserStep(s5, HardClear(0), s6);
    Finish(s6, g);
  }

  lemma Finish(s6: State, g: bv64)
    requires Reached(s6)
    requires s6 == Begun(g).(place := [Hand(0), FreeList], pfnLock := [User(0), Nobody], pteLock := [User(0)],
               mapped := [Some(0)], thread := [HardFilled(0, 0), Idle])
    ensures Reached(InUse(g))
  {
    assert HardFinishStep(s6, 0) == InUse(g);
    UserStep(s6, HardFinish(0), InUse(g));
  }

  // ---------- Store and trim ----------

  function Stored(g: bv64, v: bv64): State {
    InUse(g).(mem := [[v], [g]])
  }

  function Trimmed(g: bv64, v: bv64): State {
    Stored(g, v).(pte := [Transition(0)], mapped := [None], status := [Modified, Status.Free],
                  place := [ModifiedList, FreeList])
  }

  lemma StoreAndTrim(g: bv64, v: bv64)
    ensures Reached(Trimmed(g, v))
  {
    FirstUse(g);
    assert [0 as bv64][0 := v] == [v];
    assert UserWriteStep(InUse(g), 0, 0, v) == Stored(g, v);
    UserStep(InUse(g), UserWrite(0, 0, v), Stored(g, v));
    Trim(g, v);
  }

  lemma Trim(g: bv64, v: bv64)
    requires Reached(Stored(g, v))
    ensures Reached(Trimmed(g, v))
  {
    var s1 := Stored(g, v).(pteLock := [Trimmer], trim := Scanning(Some(0)));
    assert TrimLockPteStep(Stored(g, v), 0) == s1;
    TrimStep(Stored(g, v), TrimLockPte(0), s1);
    Take(s1, g, v);
  }

  lemma Take(s1: State, g: bv64, v: bv64)
    requires Reached(s1) && s1 == Stored(g, v).(pteLock := [Trimmer], trim := Scanning(Some(0)))
    ensures Reached(Trimmed(g, v))
  {
    var s2 := Stored(g, v).(pfnLock := [Trimmer, Nobody], pte := [Transition(0)], place := [TrimBatch, FreeList]);
    assert TrimLockPfnStep(s1) == s2;
    TrimStep(s1, TrimLockPfn, s2);
    Unmap(s2, g, v);
  }

  lemma Unmap(s2: State, g: bv64, v: bv64)
    requires Reached(s2)
    requires s2 == Stored(g, v).(pfnLock := [Trimmer, Nobody], pte := [Transition(0)], place := [TrimBatch, FreeList])
    ensures Reached(Trimmed(g, v))
  {
    var s3 := s2.(mapped := [None], trim := Marking);
    assert TrimUnmapStep(s2) == s3;
    TrimStep(s2, TrimUnmap, s3);
    Mark(s3, g, v);
  }

  lemma Mark(s3: State, g: bv64, v: bv64)
    requires Reached(s3)
    requires s3 == Stored(g, v).(pfnLock := [Trimmer, Nobody], pte := [Transition(0)], place := [TrimBatch, FreeList],
               mapped := [None], trim := Marking)
    ensures Reached(Trimmed(g, v))
  {
    var s4 := s3.(status := [Modified, Status.Free]);
    assert TrimMarkStep(s3, 0) == s4;
    TrimStep(s3, TrimMark(0), s4);
    Splice(s4, g, v);
  }

  lemma Splice(s4: State, g: bv64, v: bv64)
    requires Reached(s4)
    requires s4 == Trimmed(g, v).(pfnLock := [Trimmer, Nobody], place := [TrimBatch, FreeList], trim := Marking)
    ensures Reached(Trimmed(g, v))
  {
    var s5 := s4.(place := [ModifiedList, FreeList], trim := Releasing);
    assert TrimSpliceStep(s4) == s5;
    TrimStep(s4, TrimSplice, s5);
    Release(s5, g, v);
  }

  lemma Release(s5: State, g: bv64, v: bv64)
    requires Reached(s5) && s5 == Trimmed(g, v).(pfnLock := [Trimmer, Nobody], trim := Releasing)
    ensures Reached(Trimmed(g, v))
  {
    var s6 := s5.(pfnLock := [Nobody, Nobody]);
    assert TrimUnlockStep(s5, 0) == s6;
    TrimStep(s5, TrimUnlock(0), s6);
    EndTrimming(s6, g, v);
  }

  lemma EndTrimming(s6: State, g: bv64, v: bv64)
    requires Reached(s6) && s6 == Trimmed(g, v).(trim := Releasing)
    ensures Reached(Trimmed(g, v))
  {
    assert TrimEndStep(s6) == Trimmed(g, v);
    TrimStep(s6, TrimEnd, Trimmed(g, v));
  }

  // ---------- Write out ----------

  function WrittenOut(g: bv64, v: bv64): State {
    Trimmed(g, v).(status := [Standby(1), Status.Free], place := [StandbyList, FreeList], disk := [[0], [v]],
                   bit := [true, true], owner := [Reserved, OfFrame(0)], emptySlots := 0)
  }

  /** The page has been gathered, and its slot is in the stash. */
  function Gathered(g: bv64, v: bv64): State {
    Trimmed(g, v).(status := [MidWrite, Status.Free], place := [WriteBatch, FreeList], bit := [true, true],
                   owner := [Reserved, Stashed], emptySlots := 0, stashed := 1,
                       writer := Copying([0], 0, None, 0, false))
  }

  lemma GatherIt(g: bv64, v: bv64)
    ensures Reached(Gathered(g, v))
  {
    StoreAndTrim(g, v);
    var s := Trimmed(g, v);
    var s1 := s.(bit := [true, true], owner := [Reserved, Stashed], emptySlots := 0, stashed := 1);
    assert WriteAllocStep(s, 1) == s1;
    WriteStep(s, WriteAlloc(1), s1);
    StartIt(s1, g, v);
  }

  lemma StartIt(s1: State, g: bv64, v: bv64)
    requires Reached(s1)
    requires s1 == Trimmed(g, v).(bit := [true, true], owner := [Reserved, Stashed], emptySlots := 0, stashed := 1)
    ensures Reached(Gathered(g, v))
  {
    var s2 := s1.(writer := Gathering(1, {}, []));
    assert WriteStartStep(s1, 1) == s2;
    WriteStep(s1, WriteStart(1), s2);
    MarkIt(s1, g, v);
  }

  lemma MarkIt(s1: State, g: bv64, v: bv64)
    requires s1 == Trimmed(g, v).(bit := [true, true], owner := [Reserved, Stashed], emptySlots := 0, stashed := 1)
    requires Reached(s1.(writer := Gathering(1, {}, [])))
    ensures Reached(Gathered(g, v))
  {
    var s2 := s1.(writer := Gathering(1, {}, []));
    var s3 := s1.(place := [Place.Gathered, FreeList], pfnLock := [Writer, Nobody], writer := Gathering(1, {0}, []));
    assert GatherTakeStep(s2, {0}) == s3;
    WriteStep(s2, GatherTake({0}), s3);
    BeginIt(s1, s3, g, v);
  }

  lemma BeginIt(s1: State, s3: State, g: bv64, v: bv64)
    requires s1 == Trimmed(g, v).(bit := [true, true], owner := [Reserved, Stashed], emptySlots := 0, stashed := 1)
    requires s3 == s1.(place := [Place.Gathered, FreeList], pfnLock := [Writer, Nobody],
               writer := Gathering(1, {0}, []))
    requires Reached(s3)
    ensures Reached(Gathered(g, v))
  {
    var s4 := s1.(status := [MidWrite, Status.Free], place := [WriteBatch, FreeList], writer := Gathering(1, {}, [0]));
    var emptied: set<nat> := {0} - {0};
    assert emptied == {} && [] + [0] == [0];
    assert GatherMarkStep(s3, 0) == s4;
    WriteStep(s3, GatherMark(0), s4);
    EndGathering(s4, g, v);
  }

  lemma EndGathering(s4: State, g: bv64, v: bv64)
    requires Reached(s4) && s4 == Gathered(g, v).(writer := Gathering(1, {}, [0]))
    ensures Reached(Gathered(g, v))
  {
    assert WriteBeginStep(s4) == Gathered(g, v);
    WriteStep(s4, WriteBegin, Gathered(g, v));
  }

  lemma WriteIt(g: bv64, v: bv64)
    ensures Reached(WrittenOut(g, v))
  {
    GatherIt(g, v);
    var s := Gathered(g, v);
    var s1 := s.(owner := [Reserved, InFlight], stashed := 0, writer := Copying([0], 0, Some(1), 0, false));
    assert PopSlotStep(s, 1) == s1;
    WriteStep(s, PopSlot(1), s1);
    CopyIt(s1, g, v);
  }

  lemma CopyIt(s1: State, g: bv64, v: bv64)
    requires Reached(s1)
    requires s1 == Gathered(g, v).(owner := [Reserved, InFlight], stashed := 0,
               writer := Copying([0], 0, Some(1), 0, false))
    ensures Reached(WrittenOut(g, v))
  {
    var s2 := s1.(disk := [[0], [v]], writer := Copying([0], 0, Some(1), 1, false));
    assert [0 as bv64][0 := v] == [v];
    assert CopyWordStep(s1) == s2;
    WriteStep(s1, CopyWord, s2);
    CommitIt(s2, g, v);
  }

  lemma CommitIt(s2: State, g: bv64, v: bv64)
    requires Reached(s2)
    requires s2 == Gathered(g, v).(owner := [Reserved, InFlight], stashed := 0, disk := [[0], [v]],
               writer := Copying([0], 0, Some(1), 1, false))
    ensures Reached(WrittenOut(g, v))
  {
    var s3 := s2.(pfnLock := [Writer, Nobody], writer := Copying([0], 0, Some(1), 1, true));
    assert WriteLockStep(s2) == s3;
    WriteStep(s2, WriteLock, s3);
    CountIt(s3, g, v);
  }

  lemma CountIt(s3: State, g: bv64, v: bv64)
    requires Reached(s3)
    requires s3 == Gathered(g, v).(owner := [Reserved, InFlight], stashed := 0, disk := [[0], [v]],
               pfnLock := [Writer, Nobody], writer := Copying([0], 0, Some(1), 1, true))
    ensures Reached(WrittenOut(g, v))
  {
    var s4 := s3.(status := [Standby(1), Status.Free], owner := [Reserved, OfFrame(0)], place := [Written, FreeList],
                  writer := Copying([0], 1, None, 0, false));
    assert WriteSettleStep(s3) == s4;
    WriteStep(s3, WriteSettle, s4);
    PublishIt(s4, g, v);
  }

  lemma PublishIt(s4: State, g: bv64, v: bv64)
    requires Reached(s4)
    requires s4 == WrittenOut(g, v).(place := [Written, FreeList], pfnLock := [Writer, Nobody],
               writer := Copying([0], 1, None, 0, false))
    ensures Reached(WrittenOut(g, v))
  {
    var s5 := s4.(place := [StandbyList, FreeList], writer := Publishing);
    assert WriteSpliceStep(s4) == s5;
    WriteStep(s4, WriteSplice, s5);
    EndRound(s5, g, v);
  }

  lemma EndRound(s5: State, g: bv64, v: bv64)
    requires Reached(s5) && s5 == WrittenOut(g, v).(pfnLock := [Writer, Nobody], writer := Publishing)
    ensures Reached(WrittenOut(g, v))
  {
    var s6 := s5.(pfnLock := [Nobody, Nobody]);
    assert WriteUnlockStep(s5, 0) == s6;
    WriteStep(s5, WriteUnlock(0), s6);
    assert WriteEndStep(s6) == WrittenOut(g, v);
    WriteStep(s6, WriteEnd, WrittenOut(g, v));
  }

  // ---------- Give away and read back ----------

  /** The page is on disk only. */
  function OnDiskOnly(g: bv64, v: bv64): State {
    WrittenOut(g, v).(pte := [OnDisk(1)], owner := [Reserved, OfPte(0)], status := [Status.Free, Status.Free],
                      back := [None, None], place := [Cache(0), FreeList], cache := [{0}, {}])
  }

  lemma GiveAway(g: bv64, v: bv64)
    ensures Reached(OnDiskOnly(g, v))
  {
    WriteIt(g, v);
    var s := WrittenOut(g, v);
    var s1 := s.(place := [Repurposed(0), FreeList], pfnLock := [User(0), Nobody], thread := [Repurposing({0}), Idle]);
    assert RepurposeTakeStep(s, 0, {0}) == s1;
    UserStep(s, RepurposeTake(0, {0}), s1);
    Give(s1, g, v);
  }

  lemma Give(s1: State, g: bv64, v: bv64)
    requires Reached(s1)
    requires s1 == WrittenOut(g, v).(place := [Repurposed(0), FreeList], pfnLock := [User(0), Nobody],
               thread := [Repurposing({0}), Idle])
    ensures Reached(OnDiskOnly(g, v))
  {
    var emptied: set<nat> := {0} - {0};
    assert emptied == {} && {} + {0} == {0};
    assert RepurposeOneStep(s1, 0, 0) == OnDiskOnly(g, v);
    UserStep(s1, RepurposeOne(0, 0), OnDiskOnly(g, v));
  }

  /** The page is in frame 1, and its slot free. */
  function BackAgain(g: bv64, v: bv64): State {
    OnDiskOnly(g, v).(pte := [Valid(1)], mapped := [Some(1)], status := [Status.Free, Active], back := [None, Some(0)],
                      place := [Cache(0), Resident], mem := [[v], [v]], bit := [true, false],
                      owner := [Reserved, Unused], emptySlots := 1)
  }

  /** A step on the way from a. */
  lemma Further(a: State, s: State, l: FaultLabel, r: State)
    requires Leads(a, s) && Inv(s) && UserEnabled(s, l) && UserApply(s, l) == r
    ensures Leads(a, r) && Inv(r)
  {
    OneStep(s, ByUser(l));
    LeadsOn(a, s, r);
  }

  /** A word stored to a page that is then trimmed, written out and given away is what a later fault on the page
      brings back, from its slot to another frame, which had other contents. */
  lemma StoredWordComesBack(g: bv64, v: bv64)
    ensures Reached(OnDiskOnly(g, v)) && Leads(OnDiskOnly(g, v), BackAgain(g, v))
    ensures OnDiskOnly(g, v).pte == [OnDisk(1)] && OnDiskOnly(g, v).mem[1] == [g]
    ensures BackAgain(g, v).pte == [Valid(1)] && BackAgain(g, v).mem[1] == [v]
  {
    GiveAway(g, v);
    FaultAgain(g, v);
  }

  lemma FaultAgain(g: bv64, v: bv64)
    requires Inv(OnDiskOnly(g, v))
    ensures Leads(OnDiskOnly(g, v), BackAgain(g, v))
  {
    var s := OnDiskOnly(g, v);
    NoSteps(Nobody, s);
    var s1 := s.(cache := [{0}, {1}], place := [Cache(0), Cache(1)]);
    assert RefillStep(s, 1, {1}) == s1;
    Further(s, s, Refill(1, {1}), s1);
    PopAgain(s1, g, v);
  }

  lemma PopAgain(s1: State, g: bv64, v: bv64)
    requires s1 == OnDiskOnly(g, v).(cache := [{0}, {1}], place := [Cache(0), Cache(1)])
    requires Leads(OnDiskOnly(g, v), s1) && Inv(s1)
    ensures Leads(OnDiskOnly(g, v), BackAgain(g, v))
  {
    var s := OnDiskOnly(g, v);
    var emptied: set<nat> := {1} - {1};
    assert emptied == {};
    var s2 := s.(place := [Cache(0), Hand(1)], thread := [Idle, HardWantsPfn(0, 1)]);
    assert HardPopStep(s1, 1, 0, 1) == s2;
    Further(s, s1, HardPop(1, 0, 1), s2);
    LockAgain(s2, g, v);
  }

  lemma LockAgain(s2: State, g: bv64, v: bv64)
    requires s2 == OnDiskOnly(g, v).(place := [Cache(0), Hand(1)], thread := [Idle, HardWantsPfn(0, 1)])
    requires Leads(OnDiskOnly(g, v), s2) && Inv(s2)
    ensures Leads(OnDiskOnly(g, v), BackAgain(g, v))
  {
    var s := OnDiskOnly(g, v);
    var s3 := s2.(pfnLock := [Nobody, User(1)], thread := [Idle, HardLocked(0, 1)]);
    assert HardLockPfnStep(s2, 1) == s3;
    Further(s, s2, HardLockPfn(1), s3);
    MapAgain(s3, g, v);
  }

  lemma MapAgain(s3: State, g: bv64, v: bv64)
    requires s3 == OnDiskOnly(g, v).(place := [Cache(0), Hand(1)], pfnLock := [Nobody, User(1)],
               thread := [Idle, HardLocked(0, 1)])
    requires Leads(OnDiskOnly(g, v), s3) && Inv(s3)
    ensures Leads(OnDiskOnly(g, v), BackAgain(g, v))
  {
    var s := OnDiskOnly(g, v);
    var s4 := s3.(pteLock := [User(1)], mapped := [Some(1)], thread := [Idle, HardMapped(0, 1, 0)]);
    assert HardLockPteStep(s3, 1) == s4;
    Further(s, s3, HardLockPte(1), s4);
    FillAgain(s4, g, v);
  }

  lemma FillAgain(s4: State, g: bv64, v: bv64)
    requires s4 == OnDiskOnly(g, v).(place := [Cache(0), Hand(1)], pfnLock := [Nobody, User(1)], pteLock := [User(1)],
               mapped := [Some(1)], thread := [Idle, HardMapped(0, 1, 0)])
    requires Leads(OnDiskOnly(g, v), s4) && Inv(s4)
    ensures Leads(OnDiskOnly(g, v), BackAgain(g, v))
  {
    var s := OnDiskOnly(g, v);
    var s5 := s4.(mem := [[v], [v]], thread := [Idle, HardMapped(0, 1, 1)]);
    assert [g][0 := v] == [v];
    assert HardFillStep(s4, 1) == s5;
    Further(s, s4, HardFill(1), s5);
    SettleAgain(s5, g, v);
  }

  lemma SettleAgain(s5: State, g: bv64, v: bv64)
    requires s5 == OnDiskOnly(g, v).(place := [Cache(0), Hand(1)], pfnLock := [Nobody, User(1)], pteLock := [User(1)],
               mapped := [Some(1)], mem := [[v], [v]], thread := [Idle, HardMapped(0, 1, 1)])
    requires Leads(OnDiskOnly(g, v), s5) && Inv(s5)
    ensures Leads(OnDiskOnly(g, v), BackAgain(g, v))
  {
    var s := OnDiskOnly(g, v);
    var s6 := s5.(bit := [true, false], owner := [Reserved, Unused], emptySlots := 1,
                  thread := [Idle, HardFilled(0, 1)]);
    assert HardClearStep(s5, 1) == s6;
    Further(s, s5, HardClear(1), s6);
    FinishAgain(s6, g, v);
  }

  lemma FinishAgain(s6: State, g: bv64, v: bv64)
    requires s6 == OnDiskOnly(g, v).(place := [Cache(0), Hand(1)], pfnLock := [Nobody, User(1)], pteLock := [User(1)],
               mapped := [Some(1)], mem := [[v], [v]], bit := [true, false], owner := [Reserved, Unused],
               emptySlots := 1, thread := [Idle, HardFilled(0, 1)])
    requires Leads(OnDiskOnly(g, v), s6) && Inv(s6)
    ensures Leads(OnDiskOnly(g, v), BackAgain(g, v))
  {
    var s := OnDiskOnly(g, v);
    assert HardFinishStep(s6, 1) == BackAgain(g, v);
    Further(s, s6, HardFinish(1), BackAgain(g, v));
  }
}
