/** Runs in which a late soft fault holds the lock of somebody else's page, and others wait for it. */
module LateWaits {
  import opened Types
  import opened VmState
  import opened Steps
  import opened Runs
  import opened SmallWorld
  import opened Deadlock

  /** The page of entry 0 has been written to slot 2 and is on the standby list. */
  function OnStandby(): State {
    GatheredOnce().(status := [Standby(2)], place := [StandbyList], owner := [Reserved, Stashed, OfFrame(0)],
                    stashed := 1, writer := Resting)
  }

  lemma WriteIt(s: State)
    requires Reached(s) && s == GatheredOnce().(status := [MidWrite], place := [WriteBatch])
    ensures Reached(s.(owner := [Reserved, Stashed, InFlight], stashed := 1,
              writer := Copying([0], 0, Some(2), 1, false)))
  {
    var s1 := s.(writer := Copying([0], 0, None, 0, false));
    assert WriteBeginStep(s) == s1;
    WriteStep(s, WriteBegin, s1);
    CopyIt(s1);
  }

  lemma CopyIt(s: State)
    requires Reached(s) && s.words == 1 && s.mem == [[0]] && s.disk == [[0], [0], [0]]
    requires s.owner == [Reserved, Stashed, Stashed] && s.stashed == 2 && s.writer == Copying([0], 0, None, 0, false)
    ensures Reached(s.(owner := [Reserved, Stashed, InFlight], stashed := 1,
              writer := Copying([0], 0, Some(2), 1, false)))
  {
    assert s.owner[2 := InFlight] == [Reserved, Stashed, InFlight];
    Copy(s, [0], 0, 2);
  }

  lemma CommitIt(s: State)
    requires Reached(s) && s.words == 1 && s.writer == Copying([0], 0, Some(2), 1, false)
    requires s.owner == [Reserved, Stashed, InFlight]
    requires s.status == [MidWrite] && s.place == [WriteBatch] && s.pfnLock == [Nobody]
    ensures Reached(s.(status := [Standby(2)], place := [Written], owner := [Reserved, Stashed, OfFrame(0)],
                       pfnLock := [Writer], writer := Copying([0], 1, None, 0, false)))
  {
    var s1 := s.(pfnLock := [Writer], writer := Copying([0], 0, Some(2), 1, true));
    assert WriteLockStep(s) == s1;
    WriteStep(s, WriteLock, s1);
    var s2 := s1.(status := [Standby(2)], place := [Written], owner := [Reserved, Stashed, OfFrame(0)],
                  writer := Copying([0], 1, None, 0, false));
    assert WriteCommitStep(s1) == s2;
    WriteStep(s1, WriteSettle, s2);
  }

  lemma PublishIt(s: State)
    requires Reached(s) && s.place == [Written] && s.pfnLock == [Writer] && s.writer == Copying([0], 1, None, 0, false)
    ensures Reached(s.(place := [StandbyList], pfnLock := [Nobody], writer := Resting))
  {
    var s1 := s.(place := [StandbyList], writer := Publishing);
    assert WriteSpliceStep(s) == s1;
    WriteStep(s, WriteSplice, s1);
    ReleaseIt(s1);
  }

  lemma ReleaseIt(s1: State)
    requires Reached(s1) && s1.place == [StandbyList] && s1.pfnLock == [Writer] && s1.writer == Publishing
    ensures Reached(s1.(pfnLock := [Nobody], writer := Resting))
  {
    var s2 := s1.(pfnLock := [Nobody]);
    assert WriteUnlockStep(s1, 0) == s2;
    WriteStep(s1, WriteUnlock(0), s2);
    var s3 := s2.(writer := Resting);
    assert WriteEndStep(s2) == s3;
    WriteStep(s2, WriteEnd, s3);
  }

  lemma StandbyIsReached()
    ensures Reached(OnStandby())
  {
    FirstGathering();
    var s := GatheredOnce().(status := [MidWrite], place := [WriteBatch]);
    WriteIt(s);
    var s1 := s.(owner := [Reserved, Stashed, InFlight], stashed := 1, writer := Copying([0], 0, Some(2), 1, false));
    CommitIt(s1);
    var s2 := s1.(status := [Standby(2)], place := [Written], owner := [Reserved, Stashed, OfFrame(0)],
                  pfnLock := [Writer], writer := Copying([0], 1, None, 0, false));
    PublishIt(s2);
  }

  /** Thread 0 has locked entry 0 and goes for the page; thread 1 gives the page to entry 1. */
  function GivenAway(): State {
    OnStandby().(pte := [OnDisk(2), Zeroed], pteLock := [User(0), Nobody], status := [Free], back := [None],
        place := [Cache(1)],
                 owner := [Reserved, Stashed, OfPte(0)], cache := [{}, {0}], thread := [SoftWantsPfn(0, 0), Idle])
  }

  lemma GiveAway()
    ensures Reached(GivenAway())
  {
    StandbyIsReached();
    var s1 := OnStandby().(thread := [SoftWantsPte(0), Idle]);
    assert SoftStartStep(OnStandby(), 0, 0) == s1;
    UserStep(OnStandby(), SoftStart(0, 0), s1);
    LockEntry(s1);
  }

  lemma LockEntry(s1: State)
    requires Reached(s1) && s1 == OnStandby().(thread := [SoftWantsPte(0), Idle])
    ensures Reached(GivenAway())
  {
    var s2 := s1.(pteLock := [User(0), Nobody], thread := [SoftWantsPfn(0, 0), Idle]);
    assert SoftSnapshotStep(s1, 0) == s2;
    UserStep(s1, SoftLockPte(0), s2);
    Repurpose(s2);
  }

  lemma Repurpose(s: State)
    requires Reached(s) && s == OnStandby().(pteLock := [User(0), Nobody], thread := [SoftWantsPfn(0, 0), Idle])
    ensures Reached(GivenAway())
  {
    var s1 := s.(place := [Repurposed(1)], pfnLock := [User(1)], thread := [SoftWantsPfn(0, 0), Repurposing({0})]);
    assert RepurposeTakeStep(s, 1, {0}) == s1;
    UserStep(s, RepurposeTake(1, {0}), s1);
    Give(s1);
  }

  lemma Give(s: State)
    requires Reached(s)
    requires s == OnStandby().(pteLock := [User(0), Nobody], place := [Repurposed(1)], pfnLock := [User(1)],
                               thread := [SoftWantsPfn(0, 0), Repurposing({0})])
    ensures Reached(GivenAway())
  {
    var emptied: set<nat> := {0} - {0};
    assert emptied == {};
    assert {} + {0} == {0};
    assert RepurposeOneStep(s, 1, 0) == GivenAway();
    UserStep(s, RepurposeOne(1, 0), GivenAway());
  }

  /** Thread 1 has popped the page for entry 1. */
  function Popped(): State {
    GivenAway().(place := [Hand(1)], cache := [{}, {}], thread := [SoftWantsPfn(0, 0), HardWantsPfn(1, 0)])
  }

  lemma PopIt()
    ensures Reached(Popped())
  {
    GiveAway();
    var emptied: set<nat> := {0} - {0};
    assert emptied == {};
    assert HardPopStep(GivenAway(), 1, 1, 0) == Popped();
    UserStep(GivenAway(), HardPop(1, 1, 0), Popped());
  }

  /** A hard fault can wait for the page it has popped, held by a soft fault that is late. */
  lemma HardFaultCanWait()
    ensures exists s :: Reachable(s) && WaitsFor(s, User(1), User(0)) && Wants(s, User(1)) == Some(PfnLock(0))
              && s.thread[1].HardWantsPfn?
  {
    PopIt();
    var s := Popped().(pfnLock := [User(0)], thread := [SoftLocked(0, 0), HardWantsPfn(1, 0)]);
    assert SoftLockPfnStep(Popped(), 0) == s;
    UserStep(Popped(), SoftLockPfn(0), s);
    HardFaultWaits(s);
  }

  lemma HardFaultWaits(s: State)
    requires s == Popped().(pfnLock := [User(0)], thread := [SoftLocked(0, 0), HardWantsPfn(1, 0)])
    ensures WaitsFor(s, User(1), User(0)) && Wants(s, User(1)) == Some(PfnLock(0))
  {
  }

  /** The page is resident for entry 1, and thread 0 still goes for it. */
  function Resettled(): State {
    Popped().(pte := [OnDisk(2), Valid(0)], mapped := [None, Some(0)], status := [Active], back := [Some(1)],
        place := [Resident],
              thread := [SoftWantsPfn(0, 0), Idle])
  }

  lemma Resettle()
    ensures Reached(Resettled())
  {
    PopIt();
    var s1 := Popped().(pfnLock := [User(1)], thread := [SoftWantsPfn(0, 0), HardLocked(1, 0)]);
    assert HardLockPfnStep(Popped(), 1) == s1;
    UserStep(Popped(), HardLockPfn(1), s1);
    MapIt(s1);
  }

  lemma MapIt(s1: State)
    requires Reached(s1)
    requires s1 == Popped().(pfnLock := [User(1)], thread := [SoftWantsPfn(0, 0), HardLocked(1, 0)])
    ensures Reached(Resettled())
  {
    var s2 := s1.(pteLock := [User(0), User(1)], mapped := [None, Some(0)],
        thread := [SoftWantsPfn(0, 0), HardMapped(1, 0, 0)]);
    assert HardMapStep(s1, 1) == s2;
    UserStep(s1, HardLockPte(1), s2);
    FillIt(s2);
  }

  lemma FillIt(s: State)
    requires Reached(s)
    requires s == Popped().(pfnLock := [User(1)], pteLock := [User(0), User(1)], mapped := [None, Some(0)],
                            thread := [SoftWantsPfn(0, 0), HardMapped(1, 0, 0)])
    ensures Reached(Resettled())
  {
    var s1 := s.(thread := [SoftWantsPfn(0, 0), HardMapped(1, 0, 1)]);
    assert [0 as bv64][0 := 0] == [0];
    assert HardFillStep(s, 1) == s1;
    UserStep(s, HardFill(1), s1);
    FinishIt(s1);
  }

  lemma FinishIt(s: State)
    requires Reached(s)
    requires s == Popped().(pfnLock := [User(1)], pteLock := [User(0), User(1)], mapped := [None, Some(0)],
                            thread := [SoftWantsPfn(0, 0), HardMapped(1, 0, 1)])
    ensures Reached(Resettled())
  {
    var s1 := s.(thread := [SoftWantsPfn(0, 0), HardFilled(1, 0)]);
    assert HardClearStep(s, 1) == s1;
    UserStep(s, HardClear(1), s1);
    SettleIt(s1);
  }

  lemma SettleIt(s: State)
    requires Reached(s)
    requires s == Popped().(pfnLock := [User(1)], pteLock := [User(0), User(1)], mapped := [None, Some(0)],
                            thread := [SoftWantsPfn(0, 0), HardFilled(1, 0)])
    ensures Reached(Resettled())
  {
    assert HardFinishStep(s, 1) == Resettled();
    UserStep(s, HardFinish(1), Resettled());
  }

  /** The trimmer can wait for a page of a valid entry, held by a soft fault that is late. */
  lemma TrimmerCanWait()
    ensures exists s :: Reachable(s) && WaitsFor(s, Trimmer, User(0))
  {
    Resettle();
    var s1 := Resettled().(pfnLock := [User(0)], thread := [SoftLocked(0, 0), Idle]);
    assert SoftLockPfnStep(Resettled(), 0) == s1;
    UserStep(Resettled(), SoftLockPfn(0), s1);
    TrimmerGoesOn(s1);
  }

  lemma TrimmerGoesOn(s1: State)
    requires Reached(s1) && s1 == Resettled().(pfnLock := [User(0)], thread := [SoftLocked(0, 0), Idle])
    ensures exists s :: Reachable(s) && WaitsFor(s, Trimmer, User(0))
  {
    var s2 := s1.(pteLock := [User(0), Trimmer], trim := Scanning(Some(1)));
    assert TrimLockPteStep(s1, 1) == s2;
    TrimStep(s1, TrimLockPte(1), s2);
    assert WaitsFor(s2, Trimmer, User(0));
  }
}
