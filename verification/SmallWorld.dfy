/** Runs of a memory manager of two pages and one frame, step by step, as far as the examples share them.
    A state is said to be reached if it satisfies the invariant and some run from start-up leads to it;
    each lemma goes a few steps on, from a state that is given field by field. The writer has two slots
    to take, and the second user thread does nothing here. */
module SmallWorld {
  import opened Types
  import opened VmState
  import opened Steps
  import opened Runs
  import opened Interleaving

  ghost predicate Reached(s: State) {
    Inv(s) && Reachable(s)
  }

  lemma UserStep(s: State, l: FaultLabel, r: State)
    requires Reached(s) && UserEnabled(s, l) && UserApply(s, l) == r
    ensures Reached(r)
  {
    OneStep(s, ByUser(l));
    ReachableOn(s, r);
  }

  lemma TrimStep(s: State, l: TrimLabel, r: State)
    requires Reached(s) && TrimEnabled(s, l) && TrimApply(s, l) == r
    ensures Reached(r)
  {
    OneStep(s, ByTrimmer(l));
    ReachableOn(s, r);
  }

  lemma WriteStep(s: State, l: WriteLabel, r: State)
    requires Reached(s) && WriteEnabled(s, l) && WriteApply(s, l) == r
    ensures Reached(r)
  {
    OneStep(s, ByWriter(l));
    ReachableOn(s, r);
  }

  // ---------- A memory manager of one page ----------

  /** Two entries, one frame, two user threads and two free slots, at start-up. */
  function Start(): State {
    State(1, [Zeroed, Zeroed], [Nobody, Nobody], [None, None], [Free], [None], [Nobody], [[0]], [FreeList],
          [[0], [0], [0]], [true, false, false], [Reserved, Unused, Unused], 2, 0, [{}, {}], [Idle, Idle],
              Scanning(None), Resting)
  }

  /** The page is resident; nothing else goes on, except that the writer may be gathering. */
  predicate IsResident(s: State) {
    && s.words == 1 && s.pte == [Valid(0), Zeroed] && s.pteLock == [Nobody, Nobody] && s.mapped == [Some(0), None]
    && s.status == [Active] && s.back == [Some(0)] && s.pfnLock == [Nobody] && s.place == [Resident]
    && s.thread == [Idle, Idle] && s.trim == Scanning(None)
  }

  function Trimmed(s: State): State {
    s.(pte := [Transition(0), Zeroed], mapped := [None, None], status := [Modified], place := [ModifiedList])
  }

  /** The page has been used once. */
  function Used(): State {
    Start().(pte := [Valid(0), Zeroed], mapped := [Some(0), None], status := [Active], back := [Some(0)],
        place := [Resident])
  }

  lemma StartIsReached()
    ensures Reached(Start())
  {
    InitHasInv(Start());
    assert IsRun(Start(), []) && Final(Start(), []) == Start();
  }

  lemma FirstUse()
    ensures Reached(Used())
  {
    StartIsReached();
    var s1 := Start().(cache := [{0}, {}], place := [Cache(0)]);
    assert RefillStep(Start(), 0, {0}) == s1;
    UserStep(Start(), Refill(0, {0}), s1);
    Popped(s1);
  }

  lemma Popped(s: State)
    requires Reached(s) && s == Start().(cache := [{0}, {}], place := [Cache(0)])
    ensures Reached(Used())
  {
    var s1 := s.(cache := [{}, {}], place := [Hand(0)], thread := [HardWantsPfn(0, 0), Idle]);
    var emptied: set<nat> := {0} - {0};
    assert emptied == {};
    assert HardPopStep(s, 0, 0, 0) == s1;
    UserStep(s, HardPop(0, 0, 0), s1);
    LockedPage(s1);
  }

  lemma LockedPage(s1: State)
    requires Reached(s1) && s1 == Start().(place := [Hand(0)], thread := [HardWantsPfn(0, 0), Idle])
    ensures Reached(Used())
  {
    var s2 := s1.(pfnLock := [User(0)], thread := [HardLocked(0, 0), Idle]);
    assert HardLockPfnStep(s1, 0) == s2;
    UserStep(s1, HardLockPfn(0), s2);
    Mapped(s2);
  }

  lemma Mapped(s: State)
    requires Reached(s) && s == Start().(place := [Hand(0)], pfnLock := [User(0)], thread := [HardLocked(0, 0), Idle])
    ensures Reached(Used())
  {
    var s1 := s.(pteLock := [User(0), Nobody], mapped := [Some(0), None], thread := [HardMapped(0, 0, 0), Idle]);
    assert HardMapStep(s, 0) == s1;
    UserStep(s, HardLockPte(0), s1);
    Filled(s1);
  }

  lemma Filled(s1: State)
    requires Reached(s1)
    requires s1 == Start().(place := [Hand(0)], pfnLock := [User(0)], pteLock := [User(0), Nobody],
               mapped := [Some(0), None], thread := [HardMapped(0, 0, 0), Idle])
    ensures Reached(Used())
  {
    var s2 := s1.(thread := [HardMapped(0, 0, 1), Idle]);
    assert [0 as bv64][0 := 0] == [0];
    assert HardFillStep(s1, 0) == s2;
    UserStep(s1, HardFill(0), s2);
    Zeroes(s2);
  }

  lemma Zeroes(s: State)
    requires Reached(s)
    requires s == Start().(place := [Hand(0)], pfnLock := [User(0)], pteLock := [User(0), Nobody],
               mapped := [Some(0), None], thread := [HardMapped(0, 0, 1), Idle])
    ensures Reached(Used())
  {
    var s1 := s.(thread := [HardFilled(0, 0), Idle]);
    assert HardClearStep(s, 0) == s1;
    UserStep(s, HardClear(0), s1);
    Settled(s1);
  }

  lemma Settled(s1: State)
    requires Reached(s1)
    requires s1 == Start().(place := [Hand(0)], pfnLock := [User(0)], pteLock := [User(0), Nobody],
               mapped := [Some(0), None], thread := [HardFilled(0, 0), Idle])
    ensures Reached(Used())
  {
    assert HardFinishStep(s1, 0) == Used();
    UserStep(s1, HardFinish(0), Used());
  }

  lemma TrimRound(s: State)
    requires Reached(s) && IsResident(s)
    ensures Reached(Trimmed(s))
  {
    var s1 := s.(pteLock := [Trimmer, Nobody], trim := Scanning(Some(0)));
    assert TrimLockPteStep(s, 0) == s1;
    TrimStep(s, TrimLockPte(0), s1);
    var s2 := s.(pfnLock := [Trimmer], pte := [Transition(0), Zeroed], place := [TrimBatch]);
    assert TrimLockPfnStep(s1) == s2;
    TrimStep(s1, TrimLockPfn, s2);
    TrimRest(s2);
  }

  lemma TrimRest(s: State)
    requires Reached(s) && IsResident(s.(pfnLock := [Nobody], pte := [Valid(0), Zeroed], place := [Resident]))
    requires s.pfnLock == [Trimmer] && s.pte == [Transition(0), Zeroed] && s.place == [TrimBatch]
    ensures Reached(Trimmed(s.(pfnLock := [Nobody])))
  {
    var s1 := s.(mapped := [None, None], trim := Marking);
    assert TrimUnmapStep(s) == s1;
    TrimStep(s, TrimUnmap, s1);
    var s2 := s1.(status := [Modified]);
    assert TrimMarkStep(s1, 0) == s2;
    TrimStep(s1, TrimMark(0), s2);
    TrimSplices(s2);
  }

  lemma TrimSplices(s: State)
    requires Reached(s) && s.trim == Marking && s.status == [Modified] && s.place == [TrimBatch]
    requires s.pfnLock == [Trimmer]
    ensures Reached(s.(place := [ModifiedList], pfnLock := [Nobody], trim := Scanning(None)))
  {
    var s1 := s.(place := [ModifiedList], trim := Releasing);
    assert TrimSpliceStep(s) == s1;
    TrimStep(s, TrimSplice, s1);
    var s2 := s1.(pfnLock := [Nobody]);
    assert TrimUnlockStep(s1, 0) == s2;
    TrimStep(s1, TrimUnlock(0), s2);
    var s3 := s2.(trim := Scanning(None));
    assert TrimEndStep(s2) == s3;
    TrimStep(s2, TrimEnd, s3);
  }

  lemma Gather(s: State, batch: seq<nat>)
    requires Reached(s) && s.writer == Gathering(2, {}, batch) && |batch| < 2
    requires s.place == [ModifiedList] && s.pfnLock == [Nobody] && |s.status| == 1
    ensures Reached(s.(status := [MidWrite], place := [WriteBatch], writer := Gathering(2, {}, batch + [0])))
  {
    var s1 := s.(place := [Gathered], pfnLock := [Writer], writer := Gathering(2, {0}, batch));
    assert GatherTakeStep(s, {0}) == s1;
    WriteStep(s, GatherTake({0}), s1);
    var s2 := s.(status := [MidWrite], place := [WriteBatch], writer := Gathering(2, {}, batch + [0]));
    var emptied: set<nat> := {0} - {0};
    assert emptied == {};
    assert GatherMarkStep(s1, 0) == s2;
    WriteStep(s1, GatherMark(0), s2);
  }

  lemma TakeSlots(s: State)
    requires Reached(s) && s.writer == Resting && s.bit == [true, false, false] && s.owner == [Reserved, Unused, Unused]
    requires s.emptySlots == 2 && s.stashed == 0
    ensures Reached(s.(bit := [true, true, true], owner := [Reserved, Stashed, Stashed], emptySlots := 0, stashed := 2,
                       writer := Gathering(2, {}, [])))
  {
    var s1 := s.(bit := [true, true, false], owner := [Reserved, Stashed, Unused], emptySlots := 1, stashed := 1);
    assert WriteAllocStep(s, 1) == s1;
    WriteStep(s, WriteAlloc(1), s1);
    var s2 := s.(bit := [true, true, true], owner := [Reserved, Stashed, Stashed], emptySlots := 0, stashed := 2);
    assert WriteAllocStep(s1, 2) == s2;
    WriteStep(s1, WriteAlloc(2), s2);
    var s3 := s2.(writer := Gathering(2, {}, []));
    assert WriteStartStep(s2, 2) == s3;
    WriteStep(s2, WriteStart(2), s3);
  }

  /** A slot is popped and the one word copied. */
  lemma Copy(s: State, batch: seq<nat>, next: nat, d: nat)
    requires Reached(s) && s.words == 1 && s.writer == Copying(batch, next, None, 0, false) && next < |batch|
    requires batch[next] == 0 && s.mem == [[0]]
    requires d < 3 == |s.owner| && s.owner[d] == Stashed && s.disk == [[0], [0], [0]]
    ensures Reached(s.(owner := s.owner[d := InFlight], stashed := s.stashed - 1,
              writer := Copying(batch, next, Some(d), 1, false)))
  {
    var s1 := s.(owner := s.owner[d := InFlight], stashed := s.stashed - 1,
        writer := Copying(batch, next, Some(d), 0, false));
    assert PopSlotStep(s, d) == s1;
    WriteStep(s, PopSlot(d), s1);
    var s2 := s1.(writer := Copying(batch, next, Some(d), 1, false));
    assert [0 as bv64][0 := 0] == [0];
    assert s.disk[d := [0]] == s.disk;
    assert CopyWordStep(s1) == s2;
    WriteStep(s1, CopyWord, s2);
  }

  /** The page is back on the modified list, and the writer has gathered it once. */
  function GatheredOnce(): State {
    Trimmed(Used()).(bit := [true, true, true], owner := [Reserved, Stashed, Stashed], emptySlots := 0, stashed := 2,
                     writer := Gathering(2, {}, [0]))
  }

  lemma FirstGathering()
    ensures Reached(GatheredOnce().(status := [MidWrite], place := [WriteBatch]))
  {
    FirstUse();
    TrimRound(Used());
    TakeSlots(Trimmed(Used()));
    Gather(GatheredOnce().(writer := Gathering(2, {}, [])), []);
    assert [] + [0] == [0];
  }
}
