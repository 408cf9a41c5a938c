/** A run in which the writer gathers a page twice in one round and then blocks on itself. */
module GatheredTwice {
  import opened Types
  import opened VmState
  import opened Steps
  import opened Runs
  import opened SmallWorld
  import opened Deadlock

  lemma Rescue(s: State)
    requires Reached(s) && s.pte == [Transition(0), Zeroed] && s.pteLock == [Nobody, Nobody]
    requires s.mapped == [None, None] && s.thread == [Idle, Idle]
    requires s.status == [MidWrite] && s.back == [Some(0)] && s.pfnLock == [Nobody] && s.place == [WriteBatch]
    ensures Reached(s.(pte := [Valid(0), Zeroed], mapped := [Some(0), None], status := [Active], place := [Resident]))
  {
    var s1 := s.(thread := [SoftWantsPte(0), Idle]);
    assert SoftStartStep(s, 0, 0) == s1;
    UserStep(s, SoftStart(0, 0), s1);
    var s2 := s.(pteLock := [User(0), Nobody], thread := [SoftWantsPfn(0, 0), Idle]);
    assert SoftSnapshotStep(s1, 0) == s2;
    UserStep(s1, SoftLockPte(0), s2);
    var s3 := s2.(pfnLock := [User(0)], thread := [SoftLocked(0, 0), Idle]);
    assert SoftLockPfnStep(s2, 0) == s3;
    UserStep(s2, SoftLockPfn(0), s3);
    RescueGoesOn(s3);
  }

  lemma RescueGoesOn(s: State)
    requires Reached(s) && s.pte == [Transition(0), Zeroed] && s.pteLock == [User(0), Nobody]
    requires s.mapped == [None, None]
    requires s.thread == [SoftLocked(0, 0), Idle]
    requires s.status == [MidWrite] && s.back == [Some(0)] && s.pfnLock == [User(0)] && s.place == [WriteBatch]
    ensures Reached(s.(pte := [Valid(0), Zeroed], pteLock := [Nobody, Nobody], mapped := [Some(0), None],
              status := [Active],
                       pfnLock := [Nobody], place := [Resident], thread := [Idle, Idle]))
  {
    var s1 := s.(place := [Rescued(0)], thread := [SoftHeld(0, 0), Idle]);
    assert SoftRescueStep(s, 0) == s1;
    UserStep(s, SoftRecheck(0), s1);
    RescueEnds(s1);
  }

  lemma RescueEnds(s: State)
    requires Reached(s) && s.pte == [Transition(0), Zeroed] && s.pteLock == [User(0), Nobody]
    requires s.mapped == [None, None] && s.thread == [SoftHeld(0, 0), Idle]
    requires s.status == [MidWrite] && s.back == [Some(0)] && s.pfnLock == [User(0)] && s.place == [Rescued(0)]
    ensures Reached(s.(pte := [Valid(0), Zeroed], pteLock := [Nobody, Nobody], mapped := [Some(0), None],
              status := [Active],
                       pfnLock := [Nobody], place := [Resident], thread := [Idle, Idle]))
  {
    var s1 := s.(mapped := [Some(0), None], thread := [SoftMapped(0, 0), Idle]);
    assert SoftMapStep(s, 0) == s1;
    UserStep(s, SoftMap(0), s1);
    var s2 := s.(pte := [Valid(0), Zeroed], pteLock := [Nobody, Nobody], mapped := [Some(0), None], status := [Active],
                 pfnLock := [Nobody], place := [Resident], thread := [Idle, Idle]);
    assert SoftFinishStep(s1, 0) == s2;
    UserStep(s1, SoftFinish(0), s2);
  }

  lemma Commit(s: State)
    requires Reached(s) && s.words == 1 && s.writer == Copying([0, 0], 0, Some(2), 1, false)
    requires s.owner == [Reserved, Stashed, InFlight] && s.status == [MidWrite] && s.place == [WriteBatch]
    requires s.pfnLock == [Nobody]
    ensures Reached(s.(status := [Standby(2)], owner := [Reserved, Stashed, OfFrame(0)], pfnLock := [Writer],
                       place := [Written], writer := Copying([0, 0], 1, None, 0, false)))
  {
    var s1 := s.(pfnLock := [Writer], writer := Copying([0, 0], 0, Some(2), 1, true));
    assert WriteLockStep(s) == s1;
    WriteStep(s, WriteLock, s1);
    var s2 := s1.(status := [Standby(2)], owner := [Reserved, Stashed, OfFrame(0)],
                  place := [Written], writer := Copying([0, 0], 1, None, 0, false));
    assert WriteCommitStep(s1) == s2;
    WriteStep(s1, WriteSettle, s2);
  }

  lemma Begin(s: State)
    requires Reached(s) && s.writer == Gathering(2, {}, [0, 0])
    ensures Reached(s.(writer := Copying([0, 0], 0, None, 0, false)))
  {
    var s1 := s.(writer := Copying([0, 0], 0, None, 0, false));
    assert WriteBeginStep(s) == s1;
    WriteStep(s, WriteBegin, s1);
  }

  lemma CopyTwice(s: State)
    requires Reached(s) && s.words == 1 && s.writer == Gathering(2, {}, [0, 0]) && s.mem == [[0]]
    requires s.disk == [[0], [0], [0]]
    requires s.owner == [Reserved, Stashed, Stashed] && s.status == [MidWrite] && s.place == [WriteBatch]
    requires s.pfnLock == [Nobody]
    ensures exists r :: Reachable(r) && SelfBlocked(r)
  {
    Begin(s);
    var s1 := s.(writer := Copying([0, 0], 0, None, 0, false));
    Copy(s1, [0, 0], 0, 2);
    assert s1.owner[2 := InFlight] == [Reserved, Stashed, InFlight];
    var s2 := s1.(owner := [Reserved, Stashed, InFlight], stashed := s.stashed - 1,
        writer := Copying([0, 0], 0, Some(2), 1, false));
    Commit(s2);
    var s3 := s2.(status := [Standby(2)], owner := [Reserved, Stashed, OfFrame(0)], pfnLock := [Writer],
        place := [Written],
                  writer := Copying([0, 0], 1, None, 0, false));
    Copy(s3, [0, 0], 1, 1);
    BlocksOnItself(s3.(owner := s3.owner[1 := InFlight], stashed := s3.stashed - 1,
        writer := Copying([0, 0], 1, Some(1), 1, false)));
  }

  lemma BlocksOnItself(s: State)
    requires Reached(s) && s.words == 1 && s.writer == Copying([0, 0], 1, Some(1), 1, false) && s.place == [Written]
    ensures exists r :: Reachable(r) && SelfBlocked(r)
  {
    assert SelfBlocked(s);
  }

  lemma SecondGathering()
    ensures Reached(GatheredOnce().(status := [MidWrite], place := [WriteBatch], writer := Gathering(2, {}, [0, 0])))
  {
    FirstGathering();
    Rescue(GatheredOnce().(status := [MidWrite], place := [WriteBatch]));
    TrimRound(GatheredOnce().(pte := [Valid(0), Zeroed], mapped := [Some(0), None], status := [Active],
        place := [Resident]));
    Gather(GatheredOnce(), [0]);
    assert [0] + [0] == [0, 0];
  }

  /** The writer can come to wait for itself: a soft fault rescues a gathered page, it is trimmed and
      gathered again in the same round, and the first of its two copies is committed. */
  lemma WriterCanBlockOnItself()
    ensures exists s :: Reachable(s) && SelfBlocked(s)
  {
    SecondGathering();
    CopyTwice(GatheredOnce().(status := [MidWrite], place := [WriteBatch], writer := Gathering(2, {}, [0, 0])));
  }
}
