/** Every step keeps the invariant.
    For each step there is one lemma that it keeps the whole invariant. Where the proof is not small it is
    put together from lemmas on the invariant's parts: the frames, the slots, the entries and the threads;
    and some of these from lemmas on the frame, entry or thread the step is about, and on any other.
    The lemmas at the beginning say what the invariant tells of one entry, slot or thread and of what
    it refers to. */
module Preservation {
  import opened Types
  import opened VmState
  import opened Steps

  /** What the invariant says about an entry, the frame it names and the thread that locked it. */
  lemma AtPte(s: State, p: nat)
    requires Inv(s) && p < |s.pte|
    ensures PteOk(s, p)
    ensures s.pte[p].Valid? || s.pte[p].Transition? ==> FrameOk(s, s.pte[p].frame)
    ensures s.pteLock[p].User? ==> ThreadOk(s, s.pteLock[p].t)
  {
  }

  /** What the invariant says about a slot and its owner. */
  lemma AtSlot(s: State, d: nat)
    requires Inv(s) && d < |s.owner|
    ensures SlotOk(s, d)
    ensures s.owner[d].OfFrame? ==> FrameOk(s, s.owner[d].f)
    ensures s.owner[d].OfPte? ==> PteOk(s, s.owner[d].p)
  {
  }

  /** What the invariant says about a thread, the entry it locked and the frame it holds. */
  lemma AtThread(s: State, t: nat)
    requires Inv(s) && t < |s.thread|
    ensures ThreadOk(s, t)
    ensures HoldsEntry(s.thread[t]) || s.thread[t].HardWantsPfn? || s.thread[t].HardLocked?
      ==> PteOk(s, s.thread[t].p) && FrameOk(s, s.thread[t].f)
  {
    assert ThreadOk(s, t);
  }

  /** A mapped frame holds the user's data or is being filled. */
  lemma MappedPlace(s: State, p: nat)
    requires Inv(s) && p < |s.mapped| && s.mapped[p].Some?
    ensures s.mapped[p].value < |s.place|
    ensures var pl := s.place[s.mapped[p].value]; pl.Resident? || pl.TrimBatch? || pl.Rescued? || pl.Hand?
  {
    AtPte(s, p);
  }

  lemma MoveOne(to: set<nat>, from: set<nat>, f: nat)
    requires f in from && f !in to
    ensures |to + {f}| == |to| + 1 && |from - {f}| == |from| - 1
  {
  }

  /** A frame that has nothing to do with a thread is where it was after a step of that thread, if its own
      fields and the other threads are as they were. */
  lemma PlaceKept(s: State, r: State, t: nat, g: nat)
    requires Shape(s) && Shape(r) && g < |s.place| && PlaceOk(s, g) && Unrelated(s, t, g)
    requires |r.place| == |s.place| && |r.thread| == |s.thread| && r.writer == s.writer && r.trim == s.trim
    requires r.place[g] == s.place[g] && r.status[g] == s.status[g] && r.back[g] == s.back[g]
    requires r.pfnLock[g] == s.pfnLock[g]
    requires forall u :: 0 <= u < |s.thread| && u != t ==> r.thread[u] == s.thread[u] && r.cache[u] == s.cache[u]
    requires t < |s.cache| ==> s.cache[t] <= r.cache[t]
    ensures PlaceOk(r, g)
  {
  }

  ghost predicate Unrelated(s: State, t: nat, g: nat) {
    && g < |s.place| && g < |s.pfnLock| && s.pfnLock[g] != User(t)
    && s.place[g] != Hand(t) && s.place[g] != Rescued(t) && s.place[g] != Repurposed(t)
  }

  lemma UserWriteKeepsPtes(s: State, p: nat, off: nat, v: bv64)
    requires Inv(s) && UserWriteEnabled(s, p, off)
    ensures Shape(UserWriteStep(s, p, off, v)) && PtesOk(UserWriteStep(s, p, off, v))
  {
    var s' := UserWriteStep(s, p, off, v);
    MappedPlace(s, p);
    forall q | 0 <= q < |s.pte| ensures PteOk(s', q) { AtPte(s, q); }
  }

  lemma UserWriteKeepsThreads(s: State, p: nat, off: nat, v: bv64)
    requires Inv(s) && UserWriteEnabled(s, p, off)
    ensures Shape(UserWriteStep(s, p, off, v)) && ThreadsOk(UserWriteStep(s, p, off, v))
  {
    var s' := UserWriteStep(s, p, off, v);
    MappedPlace(s, p);
    forall u | 0 <= u < |s.thread| ensures ThreadOk(s', u) { assert ThreadOk(s, u); }
  }

  lemma UserWriteKeepsInv(s: State, p: nat, off: nat, v: bv64)
    requires Inv(s) && UserWriteEnabled(s, p, off)
    ensures Inv(UserWriteStep(s, p, off, v))
  {
    var s' := UserWriteStep(s, p, off, v);
    MappedPlace(s, p);
    forall g | 0 <= g < |s.place| ensures FrameOk(s', g) { assert FrameOk(s, g); }
    forall e | 0 <= e < |s.owner| ensures SlotOk(s', e) { AtSlot(s, e); }
    UserWriteKeepsPtes(s, p, off, v);
    UserWriteKeepsThreads(s, p, off, v);
  }

  lemma SoftStartKeepsPtes(s: State, t: nat, p: nat)
    requires Inv(s) && SoftStartEnabled(s, t, p)
    ensures Shape(SoftStartStep(s, t, p)) && PtesOk(SoftStartStep(s, t, p))
  {
    var s' := SoftStartStep(s, t, p);
    forall q | 0 <= q < |s.pte| ensures PteOk(s', q) { AtPte(s, q); }
  }

  lemma SoftStartKeepsThreads(s: State, t: nat, p: nat)
    requires Inv(s) && SoftStartEnabled(s, t, p)
    ensures Shape(SoftStartStep(s, t, p)) && ThreadsOk(SoftStartStep(s, t, p))
  {
    var s' := SoftStartStep(s, t, p);
    forall u | 0 <= u < |s.thread| ensures ThreadOk(s', u) { assert ThreadOk(s, u); }
  }

  lemma SoftStartKeepsInv(s: State, t: nat, p: nat)
    requires Inv(s) && SoftStartEnabled(s, t, p)
    ensures Inv(SoftStartStep(s, t, p))
  {
    var s' := SoftStartStep(s, t, p);
    forall g | 0 <= g < |s.place| ensures FrameOk(s', g) { assert FrameOk(s, g); }
    forall e | 0 <= e < |s.owner| ensures SlotOk(s', e) { AtSlot(s, e); }
    SoftStartKeepsPtes(s, t, p);
    SoftStartKeepsThreads(s, t, p);
  }

  lemma SoftSnapshotKeepsFrames(s: State, t: nat)
    requires Inv(s) && SoftLockPteEnabled(s, t) && s.pte[s.thread[t].p].Transition?
    ensures Shape(SoftSnapshotStep(s, t)) && FramesOk(SoftSnapshotStep(s, t)) && SlotsOk(SoftSnapshotStep(s, t))
  {
    var s' := SoftSnapshotStep(s, t);
    AtThread(s, t);
    AtPte(s, s.thread[t].p);
    forall g | 0 <= g < |s.place| ensures FrameOk(s', g) { assert FrameOk(s, g); }
    forall e | 0 <= e < |s.owner| ensures SlotOk(s', e) { AtSlot(s, e); }
  }

  lemma SoftSnapshotKeepsPtes(s: State, t: nat)
    requires Inv(s) && SoftLockPteEnabled(s, t) && s.pte[s.thread[t].p].Transition?
    ensures Shape(SoftSnapshotStep(s, t)) && PtesOk(SoftSnapshotStep(s, t))
  {
    var s' := SoftSnapshotStep(s, t);
    AtThread(s, t);
    AtPte(s, s.thread[t].p);
    forall q | 0 <= q < |s.pte| ensures PteOk(s', q) { AtPte(s, q); }
  }

  lemma SoftSnapshotKeepsInv(s: State, t: nat)
    requires Inv(s) && SoftLockPteEnabled(s, t) && s.pte[s.thread[t].p].Transition?
    ensures Inv(SoftSnapshotStep(s, t))
  {
    var s' := SoftSnapshotStep(s, t);
    AtThread(s, t);
    AtPte(s, s.thread[t].p);
    SoftSnapshotKeepsFrames(s, t);
    SoftSnapshotKeepsPtes(s, t);
    forall u | 0 <= u < |s.thread| ensures ThreadOk(s', u) { assert ThreadOk(s, u); }
  }

  lemma SoftMissKeepsFrames(s: State, t: nat)
    requires Inv(s) && SoftLockPteEnabled(s, t) && !s.pte[s.thread[t].p].Transition?
    ensures Shape(SoftMissStep(s, t)) && FramesOk(SoftMissStep(s, t)) && SlotsOk(SoftMissStep(s, t))
  {
    var s' := SoftMissStep(s, t);
    AtThread(s, t);
    forall g | 0 <= g < |s.place| ensures FrameOk(s', g) { assert FrameOk(s, g); }
    forall e | 0 <= e < |s.owner| ensures SlotOk(s', e) { AtSlot(s, e); }
  }

  lemma SoftMissKeepsInv(s: State, t: nat)
    requires Inv(s) && SoftLockPteEnabled(s, t) && !s.pte[s.thread[t].p].Transition?
    ensures Inv(SoftMissStep(s, t))
  {
    var s' := SoftMissStep(s, t);
    AtThread(s, t);
    SoftMissKeepsFrames(s, t);
    forall q | 0 <= q < |s.pte| ensures PteOk(s', q) { AtPte(s, q); }
    forall u | 0 <= u < |s.thread| ensures ThreadOk(s', u) { assert ThreadOk(s, u); }
  }

  lemma SoftLockPfnKeepsFrames(s: State, t: nat)
    requires Inv(s) && SoftLockPfnEnabled(s, t)
    ensures Shape(SoftLockPfnStep(s, t)) && FramesOk(SoftLockPfnStep(s, t))
  {
    var s' := SoftLockPfnStep(s, t);
    AtThread(s, t);
    forall g | 0 <= g < |s.place| ensures FrameOk(s', g) { assert FrameOk(s, g); }
  }

  lemma SoftLockPfnKeepsSlots(s: State, t: nat)
    requires Inv(s) && SoftLockPfnEnabled(s, t)
    ensures Shape(SoftLockPfnStep(s, t)) && SlotsOk(SoftLockPfnStep(s, t))
  {
    var s' := SoftLockPfnStep(s, t);
    AtThread(s, t);
    forall e | 0 <= e < |s.owner| ensures SlotOk(s', e) { AtSlot(s, e); }
  }

  lemma SoftLockPfnKeepsPtes(s: State, t: nat)
    requires Inv(s) && SoftLockPfnEnabled(s, t)
    ensures Shape(SoftLockPfnStep(s, t)) && PtesOk(SoftLockPfnStep(s, t))
  {
    var s' := SoftLockPfnStep(s, t);
    AtThread(s, t);
    forall q | 0 <= q < |s.pte| ensures PteOk(s', q) { AtPte(s, q); }
  }

  lemma SoftLockPfnKeepsThreads(s: State, t: nat)
    requires Inv(s) && SoftLockPfnEnabled(s, t)
    ensures Shape(SoftLockPfnStep(s, t)) && ThreadsOk(SoftLockPfnStep(s, t))
  {
    var s' := SoftLockPfnStep(s, t);
    AtThread(s, t);
    forall u | 0 <= u < |s.thread| ensures ThreadOk(s', u) { assert ThreadOk(s, u); }
  }

  lemma SoftLockPfnKeepsInv(s: State, t: nat)
    requires Inv(s) && SoftLockPfnEnabled(s, t)
    ensures Inv(SoftLockPfnStep(s, t))
  {
    var s' := SoftLockPfnStep(s, t);
    AtThread(s, t);
    SoftLockPfnKeepsFrames(s, t);
    SoftLockPfnKeepsSlots(s, t);
    SoftLockPfnKeepsPtes(s, t);
    SoftLockPfnKeepsThreads(s, t);
  }

  lemma SoftYieldKeepsFrames(s: State, t: nat)
    requires Inv(s) && SoftRecheckEnabled(s, t) && LostPage(s, t)
    ensures Shape(SoftYieldStep(s, t)) && FramesOk(SoftYieldStep(s, t))
  {
    var s' := SoftYieldStep(s, t);
    AtThread(s, t);
    forall g | 0 <= g < |s.place| ensures FrameOk(s', g) { assert FrameOk(s, g); }
  }

  lemma SoftYieldKeepsSlots(s: State, t: nat)
    requires Inv(s) && SoftRecheckEnabled(s, t) && LostPage(s, t)
    ensures Shape(SoftYieldStep(s, t)) && SlotsOk(SoftYieldStep(s, t))
  {
    var s' := SoftYieldStep(s, t);
    AtThread(s, t);
    forall e | 0 <= e < |s.owner| ensures SlotOk(s', e) { AtSlot(s, e); }
  }

  lemma SoftYieldKeepsPtes(s: State, t: nat)
    requires Inv(s) && SoftRecheckEnabled(s, t) && LostPage(s, t)
    ensures Shape(SoftYieldStep(s, t)) && PtesOk(SoftYieldStep(s, t))
  {
    var s' := SoftYieldStep(s, t);
    AtThread(s, t);
    forall q | 0 <= q < |s.pte| ensures PteOk(s', q) { AtPte(s, q); }
  }

  lemma SoftYieldKeepsInv(s: State, t: nat)
    requires Inv(s) && SoftRecheckEnabled(s, t) && LostPage(s, t)
    ensures Inv(SoftYieldStep(s, t))
  {
    var s' := SoftYieldStep(s, t);
    AtThread(s, t);
    SoftYieldKeepsFrames(s, t);
    SoftYieldKeepsSlots(s, t);
    SoftYieldKeepsPtes(s, t);
    forall u | 0 <= u < |s.thread| ensures ThreadOk(s', u) { assert ThreadOk(s, u); }
  }

  lemma SoftRescueKeepsOtherPlace(s: State, t: nat, g: nat)
    requires Inv(s) && SoftRecheckEnabled(s, t) && !LostPage(s, t) && g < |s.place| && g != s.thread[t].f
    ensures Shape(SoftRescueStep(s, t)) && PlaceOk(SoftRescueStep(s, t), g)
  {
    AtThread(s, t);
    assert FrameOk(s, g);
    PlaceKept(s, SoftRescueStep(s, t), t, g);
  }

  lemma SoftRescueKeepsOtherPage(s: State, t: nat, g: nat)
    requires Inv(s) && SoftRecheckEnabled(s, t) && !LostPage(s, t) && g < |s.place| && g != s.thread[t].f
    ensures Shape(SoftRescueStep(s, t)) && PageOk(SoftRescueStep(s, t), g)
  {
    AtThread(s, t);
    assert FrameOk(s, g);
  }

  lemma SoftRescueKeepsOwnFrame(s: State, t: nat)
    requires Inv(s) && SoftRecheckEnabled(s, t) && !LostPage(s, t)
    ensures Shape(SoftRescueStep(s, t)) && s.thread[t].f < |s.place| && FrameOk(SoftRescueStep(s, t), s.thread[t].f)
  {
    AtThread(s, t);
  }

  lemma SoftRescueKeepsFrames(s: State, t: nat)
    requires Inv(s) && SoftRecheckEnabled(s, t) && !LostPage(s, t)
    ensures Shape(SoftRescueStep(s, t)) && FramesOk(SoftRescueStep(s, t))
  {
    SoftRescueKeepsOwnFrame(s, t);
    forall g | 0 <= g < |s.place| && g != s.thread[t].f ensures FrameOk(SoftRescueStep(s, t), g) {
      SoftRescueKeepsOtherPage(s, t, g);
      SoftRescueKeepsOtherPlace(s, t, g);
    }
  }

  lemma SoftRescueKeepsSlots(s: State, t: nat)
    requires Inv(s) && SoftRecheckEnabled(s, t) && !LostPage(s, t)
    ensures Shape(SoftRescueStep(s, t)) && SlotsOk(SoftRescueStep(s, t))
  {
    var s' := SoftRescueStep(s, t);
    AtThread(s, t);
    forall e | 0 <= e < |s.owner| ensures SlotOk(s', e) { AtSlot(s, e); }
  }

  lemma SoftRescueKeepsMapping(s: State, t: nat, q: nat)
    requires Inv(s) && SoftRecheckEnabled(s, t) && !LostPage(s, t) && q < |s.pte|
    ensures Shape(SoftRescueStep(s, t)) && Mapping(SoftRescueStep(s, t), q) == Mapping(s, q)
  {
    AtThread(s, t);
    AtPte(s, q);
  }

  lemma SoftRescueKeepsPtes(s: State, t: nat)
    requires Inv(s) && SoftRecheckEnabled(s, t) && !LostPage(s, t)
    ensures Shape(SoftRescueStep(s, t)) && PtesOk(SoftRescueStep(s, t))
  {
    AtThread(s, t);
    forall q | 0 <= q < |s.pte| ensures PteOk(SoftRescueStep(s, t), q) {
      SoftRescueKeepsMapping(s, t, q);
      assert PteOk(s, q);
    }
  }

  lemma SoftRescueKeepsCache(s: State, t: nat, u: nat)
    requires Inv(s) && SoftRecheckEnabled(s, t) && !LostPage(s, t) && u < |s.thread|
    ensures Shape(SoftRescueStep(s, t)) && CacheOk(SoftRescueStep(s, t), u)
  {
    AtThread(s, t);
    assert ThreadOk(s, u);
  }

  lemma SoftRescueKeepsOwnProgram(s: State, t: nat)
    requires Inv(s) && SoftRecheckEnabled(s, t) && !LostPage(s, t)
    ensures Shape(SoftRescueStep(s, t)) && ProgramOk(SoftRescueStep(s, t), t)
  {
    AtThread(s, t);
  }

  lemma SoftRescueKeepsOtherProgram(s: State, t: nat, u: nat)
    requires Inv(s) && SoftRecheckEnabled(s, t) && !LostPage(s, t) && u < |s.thread| && u != t
    ensures Shape(SoftRescueStep(s, t)) && ProgramOk(SoftRescueStep(s, t), u)
  {
    AtThread(s, t);
    assert ThreadOk(s, u);
  }

  lemma SoftRescueKeepsThreads(s: State, t: nat)
    requires Inv(s) && SoftRecheckEnabled(s, t) && !LostPage(s, t)
    ensures Shape(SoftRescueStep(s, t)) && ThreadsOk(SoftRescueStep(s, t))
  {
    AtThread(s, t);
    forall u | 0 <= u < |s.thread| ensures ThreadOk(SoftRescueStep(s, t), u) {
      SoftRescueKeepsCache(s, t, u);
      if u == t { SoftRescueKeepsOwnProgram(s, t); } else { SoftRescueKeepsOtherProgram(s, t, u); }
    }
  }

  lemma SoftRescueKeepsWorkers(s: State, t: nat)
    requires Inv(s) && SoftRecheckEnabled(s, t) && !LostPage(s, t)
    ensures Shape(SoftRescueStep(s, t)) && TrimOk(SoftRescueStep(s, t)) && WriterOk(SoftRescueStep(s, t))
  {
    AtThread(s, t);
    assert SoftRescueStep(s, t).pte == s.pte && SoftRescueStep(s, t).writer == s.writer;
  }

  lemma SoftRescueKeepsData(s: State, t: nat)
    requires Inv(s) && SoftRecheckEnabled(s, t) && !LostPage(s, t)
    ensures Shape(SoftRescueStep(s, t)) && DataOk(SoftRescueStep(s, t)) && CountersOk(SoftRescueStep(s, t))
  {
    AtThread(s, t);
  }

  lemma SoftRescueKeepsInv(s: State, t: nat)
    requires Inv(s) && SoftRecheckEnabled(s, t) && !LostPage(s, t)
    ensures Inv(SoftRescueStep(s, t))
  {
    SoftRescueKeepsFrames(s, t);
    SoftRescueKeepsSlots(s, t);
    SoftRescueKeepsPtes(s, t);
    SoftRescueKeepsThreads(s, t);
    SoftRescueKeepsWorkers(s, t);
    SoftRescueKeepsData(s, t);
  }

  lemma SoftMapKeepsFrames(s: State, t: nat)
    requires Inv(s) && SoftMapEnabled(s, t)
    ensures Shape(SoftMapStep(s, t)) && FramesOk(SoftMapStep(s, t)) && SlotsOk(SoftMapStep(s, t))
  {
    var s' := SoftMapStep(s, t);
    AtThread(s, t);
    forall g | 0 <= g < |s.place| ensures FrameOk(s', g) { assert FrameOk(s, g); }
    forall e | 0 <= e < |s.owner| ensures SlotOk(s', e) { AtSlot(s, e); }
  }

  lemma SoftMapKeepsInv(s: State, t: nat)
    requires Inv(s) && SoftMapEnabled(s, t)
    ensures Inv(SoftMapStep(s, t))
  {
    var s' := SoftMapStep(s, t);
    AtThread(s, t);
    SoftMapKeepsFrames(s, t);
    forall q | 0 <= q < |s.pte| ensures PteOk(s', q) { AtPte(s, q); }
    forall u | 0 <= u < |s.thread| ensures ThreadOk(s', u) { assert ThreadOk(s, u); }
  }

  lemma SoftFinishKeepsFrames(s: State, t: nat)
    requires Inv(s) && SoftFinishEnabled(s, t)
    ensures Shape(SoftFinishStep(s, t)) && FramesOk(SoftFinishStep(s, t))
  {
    var s' := SoftFinishStep(s, t);
    AtThread(s, t);
    forall g | 0 <= g < |s.place| ensures FrameOk(s', g) { assert FrameOk(s, g); }
  }

  lemma SoftFinishKeepsSlots(s: State, t: nat)
    requires Inv(s) && SoftFinishEnabled(s, t)
    ensures Shape(SoftFinishStep(s, t)) && SlotsOk(SoftFinishStep(s, t))
  {
    var s' := SoftFinishStep(s, t);
    AtThread(s, t);
    forall e | 0 <= e < |s.owner| ensures SlotOk(s', e) { AtSlot(s, e); }
  }

  lemma SoftFinishKeepsPtes(s: State, t: nat)
    requires Inv(s) && SoftFinishEnabled(s, t)
    ensures Shape(SoftFinishStep(s, t)) && PtesOk(SoftFinishStep(s, t))
  {
    var s' := SoftFinishStep(s, t);
    AtThread(s, t);
    forall q | 0 <= q < |s.pte| ensures PteOk(s', q) { AtPte(s, q); }
  }

  lemma SoftFinishKeepsThreads(s: State, t: nat)
    requires Inv(s) && SoftFinishEnabled(s, t)
    ensures Shape(SoftFinishStep(s, t)) && ThreadsOk(SoftFinishStep(s, t))
  {
    var s' := SoftFinishStep(s, t);
    AtThread(s, t);
    forall u | 0 <= u < |s.thread| ensures ThreadOk(s', u) { assert ThreadOk(s, u); }
  }

  lemma SoftFinishKeepsInv(s: State, t: nat)
    requires Inv(s) && SoftFinishEnabled(s, t)
    ensures Inv(SoftFinishStep(s, t))
  {
    AtThread(s, t);
    SoftFinishKeepsFrames(s, t);
    SoftFinishKeepsSlots(s, t);
    SoftFinishKeepsPtes(s, t);
    SoftFinishKeepsThreads(s, t);
  }

  lemma HardPopKeepsFrames(s: State, t: nat, p: nat, f: nat)
    requires Inv(s) && HardPopEnabled(s, t, p, f)
    ensures Shape(HardPopStep(s, t, p, f)) && FramesOk(HardPopStep(s, t, p, f))
  {
    var s' := HardPopStep(s, t, p, f);
    AtThread(s, t);
    assert FrameOk(s, f);
    forall g | 0 <= g < |s.place| ensures FrameOk(s', g) { assert FrameOk(s, g); }
  }

  lemma HardPopKeepsSlots(s: State, t: nat, p: nat, f: nat)
    requires Inv(s) && HardPopEnabled(s, t, p, f)
    ensures Shape(HardPopStep(s, t, p, f)) && SlotsOk(HardPopStep(s, t, p, f))
  {
    var s' := HardPopStep(s, t, p, f);
    AtThread(s, t);
    assert FrameOk(s, f);
    forall e | 0 <= e < |s.owner| ensures SlotOk(s', e) { AtSlot(s, e); }
  }

  lemma HardPopKeepsPtes(s: State, t: nat, p: nat, f: nat)
    requires Inv(s) && HardPopEnabled(s, t, p, f)
    ensures Shape(HardPopStep(s, t, p, f)) && PtesOk(HardPopStep(s, t, p, f))
  {
    var s' := HardPopStep(s, t, p, f);
    AtThread(s, t);
    assert FrameOk(s, f);
    forall q | 0 <= q < |s.pte| ensures PteOk(s', q) { AtPte(s, q); }
  }

  lemma HardPopKeepsThreads(s: State, t: nat, p: nat, f: nat)
    requires Inv(s) && HardPopEnabled(s, t, p, f)
    ensures Shape(HardPopStep(s, t, p, f)) && ThreadsOk(HardPopStep(s, t, p, f))
  {
    var s' := HardPopStep(s, t, p, f);
    AtThread(s, t);
    assert FrameOk(s, f);
    forall u | 0 <= u < |s.thread| ensures ThreadOk(s', u) { assert ThreadOk(s, u); }
  }

  lemma HardPopKeepsInv(s: State, t: nat, p: nat, f: nat)
    requires Inv(s) && HardPopEnabled(s, t, p, f)
    ensures Inv(HardPopStep(s, t, p, f))
  {
    var s' := HardPopStep(s, t, p, f);
    AtThread(s, t);
    assert FrameOk(s, f);
    HardPopKeepsFrames(s, t, p, f);
    HardPopKeepsSlots(s, t, p, f);
    HardPopKeepsPtes(s, t, p, f);
    HardPopKeepsThreads(s, t, p, f);
  }

  lemma HardLockPfnKeepsFrames(s: State, t: nat)
    requires Inv(s) && HardLockPfnEnabled(s, t)
    ensures Shape(HardLockPfnStep(s, t)) && FramesOk(HardLockPfnStep(s, t))
  {
    var s' := HardLockPfnStep(s, t);
    AtThread(s, t);
    forall g | 0 <= g < |s.place| ensures FrameOk(s', g) { assert FrameOk(s, g); }
  }

  lemma HardLockPfnKeepsSlots(s: State, t: nat)
    requires Inv(s) && HardLockPfnEnabled(s, t)
    ensures Shape(HardLockPfnStep(s, t)) && SlotsOk(HardLockPfnStep(s, t))
  {
    var s' := HardLockPfnStep(s, t);
    AtThread(s, t);
    forall e | 0 <= e < |s.owner| ensures SlotOk(s', e) { AtSlot(s, e); }
  }

  lemma HardLockPfnKeepsPtes(s: State, t: nat)
    requires Inv(s) && HardLockPfnEnabled(s, t)
    ensures Shape(HardLockPfnStep(s, t)) && PtesOk(HardLockPfnStep(s, t))
  {
    var s' := HardLockPfnStep(s, t);
    AtThread(s, t);
    forall q | 0 <= q < |s.pte| ensures PteOk(s', q) { AtPte(s, q); }
  }

  lemma HardLockPfnKeepsThreads(s: State, t: nat)
    requires Inv(s) && HardLockPfnEnabled(s, t)
    ensures Shape(HardLockPfnStep(s, t)) && ThreadsOk(HardLockPfnStep(s, t))
  {
    var s' := HardLockPfnStep(s, t);
    AtThread(s, t);
    forall u | 0 <= u < |s.thread| ensures ThreadOk(s', u) { assert ThreadOk(s, u); }
  }

  lemma HardLockPfnKeepsInv(s: State, t: nat)
    requires Inv(s) && HardLockPfnEnabled(s, t)
    ensures Inv(HardLockPfnStep(s, t))
  {
    var s' := HardLockPfnStep(s, t);
    AtThread(s, t);
    HardLockPfnKeepsFrames(s, t);
    HardLockPfnKeepsSlots(s, t);
    HardLockPfnKeepsPtes(s, t);
    HardLockPfnKeepsThreads(s, t);
  }

  lemma HardGiveBackKeepsFrames(s: State, t: nat)
    requires Inv(s) && HardLockPteEnabled(s, t) && HardTooLate(s, t)
    ensures Shape(HardGiveBackStep(s, t)) && FramesOk(HardGiveBackStep(s, t))
  {
    var s' := HardGiveBackStep(s, t);
    AtThread(s, t);
    forall g | 0 <= g < |s.place| ensures FrameOk(s', g) { assert FrameOk(s, g); }
  }

  lemma HardGiveBackKeepsSlots(s: State, t: nat)
    requires Inv(s) && HardLockPteEnabled(s, t) && HardTooLate(s, t)
    ensures Shape(HardGiveBackStep(s, t)) && SlotsOk(HardGiveBackStep(s, t))
  {
    var s' := HardGiveBackStep(s, t);
    AtThread(s, t);
    forall e | 0 <= e < |s.owner| ensures SlotOk(s', e) { AtSlot(s, e); }
  }

  lemma HardGiveBackKeepsMapping(s: State, t: nat, q: nat)
    requires Inv(s) && HardLockPteEnabled(s, t) && HardTooLate(s, t) && q < |s.pte|
    ensures Shape(HardGiveBackStep(s, t)) && Mapping(HardGiveBackStep(s, t), q) == Mapping(s, q)
  {
    AtThread(s, t);
    AtPte(s, q);
  }

  lemma HardGiveBackKeepsPtes(s: State, t: nat)
    requires Inv(s) && HardLockPteEnabled(s, t) && HardTooLate(s, t)
    ensures Shape(HardGiveBackStep(s, t)) && PtesOk(HardGiveBackStep(s, t))
  {
    AtThread(s, t);
    forall q | 0 <= q < |s.pte| ensures PteOk(HardGiveBackStep(s, t), q) {
      HardGiveBackKeepsMapping(s, t, q);
      assert PteOk(s, q);
    }
  }

  lemma HardGiveBackKeepsOtherCache(s: State, t: nat, u: nat)
    requires Inv(s) && HardLockPteEnabled(s, t) && HardTooLate(s, t) && u < |s.thread| && u != t
    ensures Shape(HardGiveBackStep(s, t)) && CacheOk(HardGiveBackStep(s, t), u)
  {
    AtThread(s, t);
    assert ThreadOk(s, u);
  }

  lemma HardGiveBackKeepsOtherProgram(s: State, t: nat, u: nat)
    requires Inv(s) && HardLockPteEnabled(s, t) && HardTooLate(s, t) && u < |s.thread| && u != t
    ensures Shape(HardGiveBackStep(s, t)) && ProgramOk(HardGiveBackStep(s, t), u)
  {
    AtThread(s, t);
    assert ThreadOk(s, u);
  }

  lemma HardGiveBackKeepsOwnThread(s: State, t: nat)
    requires Inv(s) && HardLockPteEnabled(s, t) && HardTooLate(s, t)
    ensures Shape(HardGiveBackStep(s, t)) && ThreadOk(HardGiveBackStep(s, t), t)
  {
    AtThread(s, t);
  }

  lemma HardGiveBackKeepsThreads(s: State, t: nat)
    requires Inv(s) && HardLockPteEnabled(s, t) && HardTooLate(s, t)
    ensures Shape(HardGiveBackStep(s, t)) && ThreadsOk(HardGiveBackStep(s, t))
  {
    HardGiveBackKeepsOwnThread(s, t);
    forall u | 0 <= u < |s.thread| && u != t ensures ThreadOk(HardGiveBackStep(s, t), u) {
      HardGiveBackKeepsOtherCache(s, t, u);
      HardGiveBackKeepsOtherProgram(s, t, u);
    }
  }

  lemma HardGiveBackKeepsInv(s: State, t: nat)
    requires Inv(s) && HardLockPteEnabled(s, t) && HardTooLate(s, t)
    ensures Inv(HardGiveBackStep(s, t))
  {
    AtThread(s, t);
    HardGiveBackKeepsFrames(s, t);
    HardGiveBackKeepsSlots(s, t);
    HardGiveBackKeepsPtes(s, t);
    HardGiveBackKeepsThreads(s, t);
  }

  lemma HardMapKeepsFrames(s: State, t: nat)
    requires Inv(s) && HardLockPteEnabled(s, t) && !HardTooLate(s, t)
    ensures Shape(HardMapStep(s, t)) && FramesOk(HardMapStep(s, t)) && SlotsOk(HardMapStep(s, t))
  {
    var s' := HardMapStep(s, t);
    AtThread(s, t);
    forall g | 0 <= g < |s.place| ensures FrameOk(s', g) { assert FrameOk(s, g); }
    forall e | 0 <= e < |s.owner| ensures SlotOk(s', e) { AtSlot(s, e); }
  }

  lemma HardMapKeepsPtes(s: State, t: nat)
    requires Inv(s) && HardLockPteEnabled(s, t) && !HardTooLate(s, t)
    ensures Shape(HardMapStep(s, t)) && PtesOk(HardMapStep(s, t))
  {
    var s' := HardMapStep(s, t);
    AtThread(s, t);
    forall q | 0 <= q < |s.pte| ensures PteOk(s', q) { AtPte(s, q); }
  }

  lemma HardMapKeepsInv(s: State, t: nat)
    requires Inv(s) && HardLockPteEnabled(s, t) && !HardTooLate(s, t)
    ensures Inv(HardMapStep(s, t))
  {
    var s' := HardMapStep(s, t);
    AtThread(s, t);
    HardMapKeepsFrames(s, t);
    HardMapKeepsPtes(s, t);
    forall u | 0 <= u < |s.thread| ensures ThreadOk(s', u) { assert ThreadOk(s, u); }
  }

  lemma HardFillKeepsFrames(s: State, t: nat)
    requires Inv(s) && HardFillEnabled(s, t)
    ensures Shape(HardFillStep(s, t)) && FramesOk(HardFillStep(s, t)) && SlotsOk(HardFillStep(s, t))
  {
    var s' := HardFillStep(s, t);
    AtThread(s, t);
    forall g | 0 <= g < |s.place| ensures FrameOk(s', g) { assert FrameOk(s, g); }
    forall e | 0 <= e < |s.owner| ensures SlotOk(s', e) { AtSlot(s, e); }
  }

  lemma HardFillKeepsPtes(s: State, t: nat)
    requires Inv(s) && HardFillEnabled(s, t)
    ensures Shape(HardFillStep(s, t)) && PtesOk(HardFillStep(s, t))
  {
    var s' := HardFillStep(s, t);
    AtThread(s, t);
    forall q | 0 <= q < |s.pte| ensures PteOk(s', q) { AtPte(s, q); }
  }

  lemma HardFillKeepsThreads(s: State, t: nat)
    requires Inv(s) && HardFillEnabled(s, t)
    ensures Shape(HardFillStep(s, t)) && ThreadsOk(HardFillStep(s, t))
  {
    var s' := HardFillStep(s, t);
    AtThread(s, t);
    forall u | 0 <= u < |s.thread| ensures ThreadOk(s', u) { assert ThreadOk(s, u); }
  }

  lemma HardFillKeepsInv(s: State, t: nat)
    requires Inv(s) && HardFillEnabled(s, t)
    ensures Inv(HardFillStep(s, t))
  {
    var s' := HardFillStep(s, t);
    AtThread(s, t);
    HardFillKeepsFrames(s, t);
    HardFillKeepsPtes(s, t);
    HardFillKeepsThreads(s, t);
  }

  lemma HardClearKeepsFrame(s: State, t: nat, g: nat)
    requires Inv(s) && HardClearEnabled(s, t) && g < |s.place|
    ensures Shape(HardClearStep(s, t)) && FrameOk(HardClearStep(s, t), g)
  {
    AtThread(s, t);
    assert FrameOk(s, g);
  }

  lemma HardClearKeepsFrames(s: State, t: nat)
    requires Inv(s) && HardClearEnabled(s, t)
    ensures Shape(HardClearStep(s, t)) && FramesOk(HardClearStep(s, t))
  {
    AtThread(s, t);
    forall g | 0 <= g < |s.place| ensures FrameOk(HardClearStep(s, t), g) { HardClearKeepsFrame(s, t, g); }
  }

  lemma HardClearKeepsSlots(s: State, t: nat)
    requires Inv(s) && HardClearEnabled(s, t)
    ensures Shape(HardClearStep(s, t)) && SlotsOk(HardClearStep(s, t))
  {
    AtThread(s, t);
    forall e | 0 <= e < |s.owner| ensures SlotOk(HardClearStep(s, t), e) { AtSlot(s, e); }
  }

  lemma HardClearKeepsMapping(s: State, t: nat, q: nat)
    requires Inv(s) && HardClearEnabled(s, t) && q < |s.pte|
    ensures Shape(HardClearStep(s, t)) && Mapping(HardClearStep(s, t), q) == Mapping(s, q)
  {
    AtThread(s, t);
    AtPte(s, q);
  }

  lemma HardClearKeepsPtes(s: State, t: nat)
    requires Inv(s) && HardClearEnabled(s, t)
    ensures Shape(HardClearStep(s, t)) && PtesOk(HardClearStep(s, t))
  {
    AtThread(s, t);
    forall q | 0 <= q < |s.pte| ensures PteOk(HardClearStep(s, t), q) {
      HardClearKeepsMapping(s, t, q);
      assert PteOk(s, q);
    }
  }

  lemma HardClearKeepsThread(s: State, t: nat, u: nat)
    requires Inv(s) && HardClearEnabled(s, t) && u < |s.thread|
    ensures Shape(HardClearStep(s, t)) && ThreadOk(HardClearStep(s, t), u)
  {
    AtThread(s, t);
    assert ThreadOk(s, u);
  }

  lemma HardClearKeepsThreads(s: State, t: nat)
    requires Inv(s) && HardClearEnabled(s, t)
    ensures Shape(HardClearStep(s, t)) && ThreadsOk(HardClearStep(s, t))
  {
    AtThread(s, t);
    forall u | 0 <= u < |s.thread| ensures ThreadOk(HardClearStep(s, t), u) { HardClearKeepsThread(s, t, u); }
  }

  lemma HardClearKeepsInv(s: State, t: nat)
    requires Inv(s) && HardClearEnabled(s, t)
    ensures Inv(HardClearStep(s, t))
  {
    AtThread(s, t);
    HardClearKeepsFrames(s, t);
    HardClearKeepsSlots(s, t);
    HardClearKeepsPtes(s, t);
    HardClearKeepsThreads(s, t);
  }

  lemma HardFinishKeepsFrames(s: State, t: nat)
    requires Inv(s) && HardFinishEnabled(s, t)
    ensures Shape(HardFinishStep(s, t)) && FramesOk(HardFinishStep(s, t))
  {
    var s' := HardFinishStep(s, t);
    AtThread(s, t);
    forall g | 0 <= g < |s.place| ensures FrameOk(s', g) { assert FrameOk(s, g); }
  }

  lemma HardFinishKeepsSlots(s: State, t: nat)
    requires Inv(s) && HardFinishEnabled(s, t)
    ensures Shape(HardFinishStep(s, t)) && SlotsOk(HardFinishStep(s, t))
  {
    var s' := HardFinishStep(s, t);
    AtThread(s, t);
    forall e | 0 <= e < |s.owner| ensures SlotOk(s', e) { AtSlot(s, e); }
  }

  lemma HardFinishKeepsPtes(s: State, t: nat)
    requires Inv(s) && HardFinishEnabled(s, t)
    ensures Shape(HardFinishStep(s, t)) && PtesOk(HardFinishStep(s, t))
  {
    var s' := HardFinishStep(s, t);
    AtThread(s, t);
    forall q | 0 <= q < |s.pte| ensures PteOk(s', q) { AtPte(s, q); }
  }

  lemma HardFinishKeepsThreads(s: State, t: nat)
    requires Inv(s) && HardFinishEnabled(s, t)
    ensures Shape(HardFinishStep(s, t)) && ThreadsOk(HardFinishStep(s, t))
  {
    var s' := HardFinishStep(s, t);
    AtThread(s, t);
    forall u | 0 <= u < |s.thread| ensures ThreadOk(s', u) { assert ThreadOk(s, u); }
  }

  lemma HardFinishKeepsInv(s: State, t: nat)
    requires Inv(s) && HardFinishEnabled(s, t)
    ensures Inv(HardFinishStep(s, t))
  {
    var s' := HardFinishStep(s, t);
    AtThread(s, t);
    HardFinishKeepsFrames(s, t);
    HardFinishKeepsSlots(s, t);
    HardFinishKeepsPtes(s, t);
    HardFinishKeepsThreads(s, t);
  }

  lemma RefillKeepsFrames(s: State, t: nat, pages: set<nat>)
    requires Inv(s) && RefillEnabled(s, t, pages)
    ensures Shape(RefillStep(s, t, pages)) && FramesOk(RefillStep(s, t, pages)) && SlotsOk(RefillStep(s, t, pages))
  {
    var s' := RefillStep(s, t, pages);
    forall g | 0 <= g < |s.place| ensures FrameOk(s', g) { assert FrameOk(s, g); }
    forall e | 0 <= e < |s.owner| ensures SlotOk(s', e) { AtSlot(s, e); }
  }

  lemma RefillKeepsInv(s: State, t: nat, pages: set<nat>)
    requires Inv(s) && RefillEnabled(s, t, pages)
    ensures Inv(RefillStep(s, t, pages))
  {
    var s' := RefillStep(s, t, pages);
    RefillKeepsFrames(s, t, pages);
    forall q | 0 <= q < |s.pte| ensures PteOk(s', q) { AtPte(s, q); }
    forall u | 0 <= u < |s.thread| ensures ThreadOk(s', u) { assert ThreadOk(s, u); }
  }

  lemma RepurposeTakeKeepsFrames(s: State, t: nat, pages: set<nat>)
    requires Inv(s) && RepurposeTakeEnabled(s, t, pages)
    ensures Shape(RepurposeTakeStep(s, t, pages)) && FramesOk(RepurposeTakeStep(s, t, pages))
    ensures SlotsOk(RepurposeTakeStep(s, t, pages))
  {
    var s' := RepurposeTakeStep(s, t, pages);
    forall g | 0 <= g < |s.place| ensures FrameOk(s', g) { assert FrameOk(s, g); }
    forall e | 0 <= e < |s.owner| ensures SlotOk(s', e) { AtSlot(s, e); }
  }

  lemma RepurposeTakeKeepsPtes(s: State, t: nat, pages: set<nat>)
    requires Inv(s) && RepurposeTakeEnabled(s, t, pages)
    ensures Shape(RepurposeTakeStep(s, t, pages)) && PtesOk(RepurposeTakeStep(s, t, pages))
  {
    var s' := RepurposeTakeStep(s, t, pages);
    forall q | 0 <= q < |s.pte| ensures PteOk(s', q) { AtPte(s, q); }
  }

  lemma RepurposeTakeKeepsInv(s: State, t: nat, pages: set<nat>)
    requires Inv(s) && RepurposeTakeEnabled(s, t, pages)
    ensures Inv(RepurposeTakeStep(s, t, pages))
  {
    var s' := RepurposeTakeStep(s, t, pages);
    RepurposeTakeKeepsFrames(s, t, pages);
    RepurposeTakeKeepsPtes(s, t, pages);
    forall u | 0 <= u < |s.thread| ensures ThreadOk(s', u) { assert ThreadOk(s, u); }
  }

  lemma RepurposeOneKeepsOtherPlace(s: State, t: nat, f: nat, g: nat)
    requires Inv(s) && RepurposeOneEnabled(s, t, f) && g < |s.place| && g != f
    ensures Shape(RepurposeOneStep(s, t, f)) && PlaceOk(RepurposeOneStep(s, t, f), g)
  {
    if s.place[g] == Repurposed(t) {
      RepurposeOneKeepsRest(s, t, f, g);
    } else {
      RepurposeOneKeepsPlaceElsewhere(s, t, f, g);
    }
  }

  lemma RepurposeOneKeepsRest(s: State, t: nat, f: nat, g: nat)
    requires Inv(s) && RepurposeOneEnabled(s, t, f) && g < |s.place| && g != f && s.place[g] == Repurposed(t)
    ensures Shape(RepurposeOneStep(s, t, f)) && PlaceOk(RepurposeOneStep(s, t, f), g)
  {
    AtThread(s, t);
    assert FrameOk(s, f);
    assert FrameOk(s, g);
  }

  lemma RepurposeOneKeepsPlaceElsewhere(s: State, t: nat, f: nat, g: nat)
    requires Inv(s) && RepurposeOneEnabled(s, t, f) && g < |s.place| && g != f && s.place[g] != Repurposed(t)
    ensures Shape(RepurposeOneStep(s, t, f)) && PlaceOk(RepurposeOneStep(s, t, f), g)
  {
    AtThread(s, t);
    assert FrameOk(s, f);
    assert FrameOk(s, g);
    PlaceKept(s, RepurposeOneStep(s, t, f), t, g);
  }

  lemma RepurposeOneKeepsOtherPage(s: State, t: nat, f: nat, g: nat)
    requires Inv(s) && RepurposeOneEnabled(s, t, f) && g < |s.place| && g != f
    ensures Shape(RepurposeOneStep(s, t, f)) && PageOk(RepurposeOneStep(s, t, f), g)
  {
    AtThread(s, t);
    assert FrameOk(s, f);
    assert FrameOk(s, g);
  }

  lemma RepurposeOneKeepsOwnFrame(s: State, t: nat, f: nat)
    requires Inv(s) && RepurposeOneEnabled(s, t, f)
    ensures Shape(RepurposeOneStep(s, t, f)) && f < |s.place| && FrameOk(RepurposeOneStep(s, t, f), f)
  {
    AtThread(s, t);
    assert FrameOk(s, f);
  }

  lemma RepurposeOneKeepsFrames(s: State, t: nat, f: nat)
    requires Inv(s) && RepurposeOneEnabled(s, t, f)
    ensures Shape(RepurposeOneStep(s, t, f)) && FramesOk(RepurposeOneStep(s, t, f))
  {
    RepurposeOneKeepsOwnFrame(s, t, f);
    forall g | 0 <= g < |s.place| && g != f ensures FrameOk(RepurposeOneStep(s, t, f), g) {
      RepurposeOneKeepsOtherPage(s, t, f, g);
      RepurposeOneKeepsOtherPlace(s, t, f, g);
    }
  }

  lemma RepurposeOneKeepsOtherSlot(s: State, t: nat, f: nat, e: nat)
    requires Inv(s) && RepurposeOneEnabled(s, t, f) && f < |s.status| && e < |s.owner| && s.status[f] != Standby(e)
    ensures Shape(RepurposeOneStep(s, t, f)) && SlotOk(RepurposeOneStep(s, t, f), e)
  {
    AtThread(s, t);
    assert FrameOk(s, f);
    AtSlot(s, e);
  }

  lemma RepurposeOneKeepsOwnSlot(s: State, t: nat, f: nat)
    requires Inv(s) && RepurposeOneEnabled(s, t, f)
    ensures f < |s.status| && s.status[f].Standby? && s.status[f].slot < |s.owner|
    ensures Shape(RepurposeOneStep(s, t, f)) && SlotOk(RepurposeOneStep(s, t, f), s.status[f].slot)
  {
    AtThread(s, t);
    assert FrameOk(s, f);
    AtPte(s, s.back[f].value);
    AtSlot(s, s.status[f].slot);
  }

  lemma RepurposeOneKeepsSlots(s: State, t: nat, f: nat)
    requires Inv(s) && RepurposeOneEnabled(s, t, f)
    ensures Shape(RepurposeOneStep(s, t, f)) && SlotsOk(RepurposeOneStep(s, t, f))
  {
    var s' := RepurposeOneStep(s, t, f);
    RepurposeOneKeepsOwnSlot(s, t, f);
    forall e | 0 <= e < |s.owner| && s.status[f] != Standby(e) ensures SlotOk(s', e) {
      RepurposeOneKeepsOtherSlot(s, t, f, e);
    }
  }

  lemma RepurposeOneKeepsMapping(s: State, t: nat, f: nat, q: nat)
    requires Inv(s) && RepurposeOneEnabled(s, t, f) && q < |s.pte| && f < |s.back| && s.back[f] != Some(q)
    ensures Shape(RepurposeOneStep(s, t, f)) && Mapping(RepurposeOneStep(s, t, f), q) == Mapping(s, q)
  {
    RepurposeOneIsElsewhere(s, t, f, q);
    AtThread(s, t);
    AtPte(s, q);
  }

  /** What the mapping of another entry depends on. */
  lemma RepurposeOneIsElsewhere(s: State, t: nat, f: nat, q: nat)
    requires Inv(s) && RepurposeOneEnabled(s, t, f) && q < |s.pte| && f < |s.back| && s.back[f] != Some(q)
    ensures var r := RepurposeOneStep(s, t, f);
            && Shape(r) && q < |r.pte| && r.pte[q] == s.pte[q] && r.pteLock == s.pteLock && r.trim == s.trim
            && r.place == s.place[f := Cache(t)] && |r.thread| == |s.thread|
            && (s.pte[q].Transition? ==> s.pte[q].frame != f)
            && forall u :: 0 <= u < |s.thread| && u != t ==> r.thread[u] == s.thread[u]
  {
    AtThread(s, t);
    assert FrameOk(s, f);
    assert PteOk(s, q);
  }

  lemma RepurposeOneKeepsOtherPte(s: State, t: nat, f: nat, q: nat)
    requires Inv(s) && RepurposeOneEnabled(s, t, f) && q < |s.pte| && f < |s.back| && s.back[f] != Some(q)
    ensures Shape(RepurposeOneStep(s, t, f)) && PteOk(RepurposeOneStep(s, t, f), q)
  {
    RepurposeOneKeepsMapping(s, t, f, q);
    AtThread(s, t);
    assert FrameOk(s, f);
    assert PteOk(s, q);
  }

  lemma RepurposeOneKeepsOwnPte(s: State, t: nat, f: nat)
    requires Inv(s) && RepurposeOneEnabled(s, t, f)
    ensures f < |s.back| && s.back[f].Some? && s.back[f].value < |s.pte|
    ensures Shape(RepurposeOneStep(s, t, f)) && PteOk(RepurposeOneStep(s, t, f), s.back[f].value)
  {
    AtThread(s, t);
    assert FrameOk(s, f);
    AtPte(s, s.back[f].value);
  }

  lemma RepurposeOneKeepsPtes(s: State, t: nat, f: nat)
    requires Inv(s) && RepurposeOneEnabled(s, t, f)
    ensures Shape(RepurposeOneStep(s, t, f)) && PtesOk(RepurposeOneStep(s, t, f))
  {
    RepurposeOneKeepsOwnPte(s, t, f);
    forall q | 0 <= q < |s.pte| && s.back[f] != Some(q) ensures PteOk(RepurposeOneStep(s, t, f), q) {
      RepurposeOneKeepsOtherPte(s, t, f, q);
    }
  }

  lemma RepurposeOneKeepsOwnCache(s: State, t: nat, f: nat)
    requires Inv(s) && RepurposeOneEnabled(s, t, f)
    ensures Shape(RepurposeOneStep(s, t, f)) && CacheOk(RepurposeOneStep(s, t, f), t)
  {
    AtThread(s, t);
    assert FrameOk(s, f);
    MoveOne(s.cache[t], s.thread[t].batch, f);
  }

  lemma RepurposeOneKeepsOwnProgram(s: State, t: nat, f: nat)
    requires Inv(s) && RepurposeOneEnabled(s, t, f)
    ensures Shape(RepurposeOneStep(s, t, f)) && ProgramOk(RepurposeOneStep(s, t, f), t)
  {
    AtThread(s, t);
    assert FrameOk(s, f);
    MoveOne(s.cache[t], s.thread[t].batch, f);
  }

  lemma RepurposeOneKeepsOtherProgram(s: State, t: nat, f: nat, u: nat)
    requires Inv(s) && RepurposeOneEnabled(s, t, f) && u < |s.thread| && u != t
    ensures Shape(RepurposeOneStep(s, t, f)) && ProgramOk(RepurposeOneStep(s, t, f), u)
  {
    AtThread(s, t);
    assert FrameOk(s, f);
    assert ThreadOk(s, u);
    ProgramKept(s, RepurposeOneStep(s, t, f), t, f, u);
  }

  /** What a thread knows outlives the loss of a page that another thread holds. */
  lemma ProgramKept(s: State, r: State, t: nat, f: nat, u: nat)
    requires Shape(s) && Shape(r) && u < |s.thread| && ProgramOk(s, u) && u != t && |r.pte| == |s.pte|
    requires f < |s.place| && s.place[f] == Repurposed(t) && s.pfnLock[f] == User(t)
    requires r.place == s.place[f := Cache(t)] && r.pfnLock == s.pfnLock[f := Nobody] && r.pteLock == s.pteLock
    requires |r.thread| == |s.thread| && r.thread[u] == s.thread[u] && r.cache[u] == s.cache[u] && r.words == s.words
    requires forall q :: 0 <= q < |s.pte| ==>
               r.pte[q] == s.pte[q] || (s.pte[q] == Transition(f) && r.pte[q].OnDisk?)
    ensures ProgramOk(r, u)
  {
  }

  lemma RepurposeOneKeepsOtherCache(s: State, t: nat, f: nat, u: nat)
    requires Inv(s) && RepurposeOneEnabled(s, t, f) && u < |s.thread| && u != t
    ensures Shape(RepurposeOneStep(s, t, f)) && CacheOk(RepurposeOneStep(s, t, f), u)
  {
    AtThread(s, t);
    assert FrameOk(s, f);
    assert ThreadOk(s, u);
  }

  lemma RepurposeOneKeepsThreads(s: State, t: nat, f: nat)
    requires Inv(s) && RepurposeOneEnabled(s, t, f)
    ensures Shape(RepurposeOneStep(s, t, f)) && ThreadsOk(RepurposeOneStep(s, t, f))
  {
    RepurposeOneKeepsOwnCache(s, t, f);
    RepurposeOneKeepsOwnProgram(s, t, f);
    forall u | 0 <= u < |s.thread| && u != t ensures ThreadOk(RepurposeOneStep(s, t, f), u) {
      RepurposeOneKeepsOtherCache(s, t, f, u);
      RepurposeOneKeepsOtherProgram(s, t, f, u);
    }
  }

  lemma RepurposeOneKeepsWorkers(s: State, t: nat, f: nat)
    requires Inv(s) && RepurposeOneEnabled(s, t, f)
    ensures Shape(RepurposeOneStep(s, t, f)) && TrimOk(RepurposeOneStep(s, t, f)) && WriterOk(RepurposeOneStep(s, t, f))
  {
    AtThread(s, t);
    assert FrameOk(s, f);
  }

  lemma RepurposeOneKeepsData(s: State, t: nat, f: nat)
    requires Inv(s) && RepurposeOneEnabled(s, t, f)
    ensures Shape(RepurposeOneStep(s, t, f))
    ensures DataOk(RepurposeOneStep(s, t, f)) && CountersOk(RepurposeOneStep(s, t, f))
  {
    AtThread(s, t);
    assert FrameOk(s, f);
  }

  lemma RepurposeOneKeepsInv(s: State, t: nat, f: nat)
    requires Inv(s) && RepurposeOneEnabled(s, t, f)
    ensures Inv(RepurposeOneStep(s, t, f))
  {
    RepurposeOneKeepsFrames(s, t, f);
    RepurposeOneKeepsSlots(s, t, f);
    RepurposeOneKeepsPtes(s, t, f);
    RepurposeOneKeepsThreads(s, t, f);
    RepurposeOneKeepsWorkers(s, t, f);
    RepurposeOneKeepsData(s, t, f);
  }

  lemma TrimLockPteKeepsInv(s: State, p: nat)
    requires Inv(s) && TrimLockPteEnabled(s, p)
    ensures Inv(TrimLockPteStep(s, p))
  {
    var s' := TrimLockPteStep(s, p);
    forall g | 0 <= g < |s.place| ensures FrameOk(s', g) { assert FrameOk(s, g); }
    forall e | 0 <= e < |s.owner| ensures SlotOk(s', e) { AtSlot(s, e); }
    forall q | 0 <= q < |s.pte| ensures PteOk(s', q) { AtPte(s, q); }
    forall u | 0 <= u < |s.thread| ensures ThreadOk(s', u) { assert ThreadOk(s, u); }
  }

  lemma TrimLockPfnKeepsFrames(s: State)
    requires Inv(s) && TrimLockPfnEnabled(s)
    ensures Shape(TrimLockPfnStep(s)) && FramesOk(TrimLockPfnStep(s)) && SlotsOk(TrimLockPfnStep(s))
  {
    var s' := TrimLockPfnStep(s);
    AtPte(s, s.trim.cur.value);
    forall g | 0 <= g < |s.place| ensures FrameOk(s', g) { assert FrameOk(s, g); }
    forall e | 0 <= e < |s.owner| ensures SlotOk(s', e) { AtSlot(s, e); }
  }

  lemma TrimLockPfnKeepsPtes(s: State)
    requires Inv(s) && TrimLockPfnEnabled(s)
    ensures Shape(TrimLockPfnStep(s)) && PtesOk(TrimLockPfnStep(s))
  {
    var s' := TrimLockPfnStep(s);
    AtPte(s, s.trim.cur.value);
    forall q | 0 <= q < |s.pte| ensures PteOk(s', q) { AtPte(s, q); }
  }

  lemma TrimLockPfnKeepsThreads(s: State)
    requires Inv(s) && TrimLockPfnEnabled(s)
    ensures Shape(TrimLockPfnStep(s)) && ThreadsOk(TrimLockPfnStep(s))
  {
    var s' := TrimLockPfnStep(s);
    AtPte(s, s.trim.cur.value);
    forall u | 0 <= u < |s.thread| ensures ThreadOk(s', u) { assert ThreadOk(s, u); }
  }

  lemma TrimLockPfnKeepsInv(s: State)
    requires Inv(s) && TrimLockPfnEnabled(s)
    ensures Inv(TrimLockPfnStep(s))
  {
    var s' := TrimLockPfnStep(s);
    AtPte(s, s.trim.cur.value);
    TrimLockPfnKeepsFrames(s);
    TrimLockPfnKeepsPtes(s);
    TrimLockPfnKeepsThreads(s);
  }

  lemma TrimUnmapKeepsInv(s: State)
    requires Inv(s) && TrimUnmapEnabled(s)
    ensures Inv(TrimUnmapStep(s))
  {
    var s' := TrimUnmapStep(s);
    forall g | 0 <= g < |s.place| ensures FrameOk(s', g) { assert FrameOk(s, g); }
    forall e | 0 <= e < |s.owner| ensures SlotOk(s', e) { AtSlot(s, e); }
    forall q | 0 <= q < |s.pte| ensures PteOk(s', q) { AtPte(s, q); }
    forall u | 0 <= u < |s.thread| ensures ThreadOk(s', u) { assert ThreadOk(s, u); }
  }

  lemma TrimMarkKeepsInv(s: State, f: nat)
    requires Inv(s) && TrimMarkEnabled(s, f)
    ensures Inv(TrimMarkStep(s, f))
  {
    var s' := TrimMarkStep(s, f);
    forall g | 0 <= g < |s.place| ensures FrameOk(s', g) { assert FrameOk(s, g); }
    forall e | 0 <= e < |s.owner| ensures SlotOk(s', e) { AtSlot(s, e); }
    forall q | 0 <= q < |s.pte| ensures PteOk(s', q) { AtPte(s, q); }
    forall u | 0 <= u < |s.thread| ensures ThreadOk(s', u) { assert ThreadOk(s, u); }
  }

  lemma TrimSpliceKeepsFrames(s: State)
    requires Inv(s) && TrimSpliceEnabled(s)
    ensures Shape(TrimSpliceStep(s)) && FramesOk(TrimSpliceStep(s)) && SlotsOk(TrimSpliceStep(s))
  {
    var s' := TrimSpliceStep(s);
    forall g | 0 <= g < |s.place| ensures FrameOk(s', g) { assert FrameOk(s, g); }
    forall e | 0 <= e < |s.owner| ensures SlotOk(s', e) { AtSlot(s, e); }
  }

  lemma TrimSpliceKeepsInv(s: State)
    requires Inv(s) && TrimSpliceEnabled(s)
    ensures Inv(TrimSpliceStep(s))
  {
    var s' := TrimSpliceStep(s);
    TrimSpliceKeepsFrames(s);
    forall q | 0 <= q < |s.pte| ensures PteOk(s', q) { AtPte(s, q); }
    forall u | 0 <= u < |s.thread| ensures ThreadOk(s', u) { assert ThreadOk(s, u); }
  }

  lemma TrimUnlockKeepsPtes(s: State, f: nat)
    requires Inv(s) && TrimUnlockEnabled(s, f)
    ensures Shape(TrimUnlockStep(s, f)) && PtesOk(TrimUnlockStep(s, f))
  {
    var s' := TrimUnlockStep(s, f);
    forall q | 0 <= q < |s.pte| ensures PteOk(s', q) { AtPte(s, q); }
  }

  lemma TrimUnlockKeepsThreads(s: State, f: nat)
    requires Inv(s) && TrimUnlockEnabled(s, f)
    ensures Shape(TrimUnlockStep(s, f)) && ThreadsOk(TrimUnlockStep(s, f))
  {
    var s' := TrimUnlockStep(s, f);
    forall u | 0 <= u < |s.thread| ensures ThreadOk(s', u) { assert ThreadOk(s, u); }
  }

  lemma TrimUnlockKeepsInv(s: State, f: nat)
    requires Inv(s) && TrimUnlockEnabled(s, f)
    ensures Inv(TrimUnlockStep(s, f))
  {
    var s' := TrimUnlockStep(s, f);
    forall g | 0 <= g < |s.place| ensures FrameOk(s', g) { assert FrameOk(s, g); }
    forall e | 0 <= e < |s.owner| ensures SlotOk(s', e) { AtSlot(s, e); }
    TrimUnlockKeepsPtes(s, f);
    TrimUnlockKeepsThreads(s, f);
  }

  lemma TrimEndKeepsInv(s: State)
    requires Inv(s) && TrimEndEnabled(s)
    ensures Inv(TrimEndStep(s))
  {
    var s' := TrimEndStep(s);
    forall g | 0 <= g < |s.place| ensures FrameOk(s', g) { assert FrameOk(s, g); }
    forall e | 0 <= e < |s.owner| ensures SlotOk(s', e) { AtSlot(s, e); }
    forall q | 0 <= q < |s.pte| ensures PteOk(s', q) { AtPte(s, q); }
    forall u | 0 <= u < |s.thread| ensures ThreadOk(s', u) { assert ThreadOk(s, u); }
  }

  lemma WriteAllocKeepsFrames(s: State, d: nat)
    requires Inv(s) && WriteAllocEnabled(s, d)
    ensures Shape(WriteAllocStep(s, d)) && FramesOk(WriteAllocStep(s, d)) && SlotsOk(WriteAllocStep(s, d))
  {
    var s' := WriteAllocStep(s, d);
    AtSlot(s, d);
    forall g | 0 <= g < |s.place| ensures FrameOk(s', g) { assert FrameOk(s, g); }
    forall e | 0 <= e < |s.owner| ensures SlotOk(s', e) { AtSlot(s, e); }
  }

  lemma WriteAllocKeepsInv(s: State, d: nat)
    requires Inv(s) && WriteAllocEnabled(s, d)
    ensures Inv(WriteAllocStep(s, d))
  {
    var s' := WriteAllocStep(s, d);
    AtSlot(s, d);
    WriteAllocKeepsFrames(s, d);
    forall q | 0 <= q < |s.pte| ensures PteOk(s', q) { AtPte(s, q); }
    forall u | 0 <= u < |s.thread| ensures ThreadOk(s', u) { assert ThreadOk(s, u); }
  }

  lemma WriteStartKeepsInv(s: State, target: nat)
    requires Inv(s) && WriteStartEnabled(s, target)
    ensures Inv(WriteStartStep(s, target))
  {
    var s' := WriteStartStep(s, target);
    forall g | 0 <= g < |s.place| ensures FrameOk(s', g) { assert FrameOk(s, g); }
    forall e | 0 <= e < |s.owner| ensures SlotOk(s', e) { AtSlot(s, e); }
    forall q | 0 <= q < |s.pte| ensures PteOk(s', q) { AtPte(s, q); }
    forall u | 0 <= u < |s.thread| ensures ThreadOk(s', u) { assert ThreadOk(s, u); }
  }

  lemma GatherTakeKeepsFrames(s: State, pages: set<nat>)
    requires Inv(s) && GatherTakeEnabled(s, pages)
    ensures Shape(GatherTakeStep(s, pages)) && FramesOk(GatherTakeStep(s, pages)) && SlotsOk(GatherTakeStep(s, pages))
  {
    var s' := GatherTakeStep(s, pages);
    forall g | 0 <= g < |s.place| ensures FrameOk(s', g) { assert FrameOk(s, g); }
    forall e | 0 <= e < |s.owner| ensures SlotOk(s', e) { AtSlot(s, e); }
  }

  lemma GatherTakeKeepsInv(s: State, pages: set<nat>)
    requires Inv(s) && GatherTakeEnabled(s, pages)
    ensures Inv(GatherTakeStep(s, pages))
  {
    var s' := GatherTakeStep(s, pages);
    GatherTakeKeepsFrames(s, pages);
    forall q | 0 <= q < |s.pte| ensures PteOk(s', q) { AtPte(s, q); }
    forall u | 0 <= u < |s.thread| ensures ThreadOk(s', u) { assert ThreadOk(s, u); }
  }

  lemma GatherMarkKeepsFrames(s: State, f: nat)
    requires Inv(s) && GatherMarkEnabled(s, f)
    ensures Shape(GatherMarkStep(s, f)) && FramesOk(GatherMarkStep(s, f)) && SlotsOk(GatherMarkStep(s, f))
  {
    var s' := GatherMarkStep(s, f);
    assert FrameOk(s, f);
    forall g | 0 <= g < |s.place| ensures FrameOk(s', g) { assert FrameOk(s, g); }
    forall e | 0 <= e < |s.owner| ensures SlotOk(s', e) { AtSlot(s, e); }
  }

  lemma GatherMarkKeepsPtes(s: State, f: nat)
    requires Inv(s) && GatherMarkEnabled(s, f)
    ensures Shape(GatherMarkStep(s, f)) && PtesOk(GatherMarkStep(s, f))
  {
    var s' := GatherMarkStep(s, f);
    assert FrameOk(s, f);
    forall q | 0 <= q < |s.pte| ensures PteOk(s', q) { AtPte(s, q); }
  }

  lemma GatherMarkKeepsThreads(s: State, f: nat)
    requires Inv(s) && GatherMarkEnabled(s, f)
    ensures Shape(GatherMarkStep(s, f)) && ThreadsOk(GatherMarkStep(s, f))
  {
    var s' := GatherMarkStep(s, f);
    assert FrameOk(s, f);
    forall u | 0 <= u < |s.thread| ensures ThreadOk(s', u) { assert ThreadOk(s, u); }
  }

  lemma GatherMarkKeepsInv(s: State, f: nat)
    requires Inv(s) && GatherMarkEnabled(s, f)
    ensures Inv(GatherMarkStep(s, f))
  {
    var s' := GatherMarkStep(s, f);
    assert FrameOk(s, f);
    GatherMarkKeepsFrames(s, f);
    GatherMarkKeepsPtes(s, f);
    GatherMarkKeepsThreads(s, f);
  }

  lemma WriteBeginKeepsInv(s: State)
    requires Inv(s) && WriteBeginEnabled(s)
    ensures Inv(WriteBeginStep(s))
  {
    var s' := WriteBeginStep(s);
    forall g | 0 <= g < |s.place| ensures FrameOk(s', g) { assert FrameOk(s, g); }
    forall e | 0 <= e < |s.owner| ensures SlotOk(s', e) { AtSlot(s, e); }
    forall q | 0 <= q < |s.pte| ensures PteOk(s', q) { AtPte(s, q); }
    forall u | 0 <= u < |s.thread| ensures ThreadOk(s', u) { assert ThreadOk(s, u); }
  }

  lemma PopSlotKeepsInv(s: State, d: nat)
    requires Inv(s) && PopSlotEnabled(s, d)
    ensures Inv(PopSlotStep(s, d))
  {
    var s' := PopSlotStep(s, d);
    forall g | 0 <= g < |s.place| ensures FrameOk(s', g) { assert FrameOk(s, g); }
    forall e | 0 <= e < |s.owner| ensures SlotOk(s', e) { AtSlot(s, e); }
    forall q | 0 <= q < |s.pte| ensures PteOk(s', q) { AtPte(s, q); }
    forall u | 0 <= u < |s.thread| ensures ThreadOk(s', u) { assert ThreadOk(s, u); }
  }

  lemma CopyWordKeepsFrames(s: State)
    requires Inv(s) && CopyWordEnabled(s)
    ensures Shape(CopyWordStep(s)) && FramesOk(CopyWordStep(s)) && SlotsOk(CopyWordStep(s))
  {
    var s' := CopyWordStep(s);
    AtSlot(s, s.writer.slot.value);
    forall g | 0 <= g < |s.place| ensures FrameOk(s', g) { assert FrameOk(s, g); }
    forall e | 0 <= e < |s.owner| ensures SlotOk(s', e) { AtSlot(s, e); }
  }

  lemma CopyWordKeepsInv(s: State)
    requires Inv(s) && CopyWordEnabled(s)
    ensures Inv(CopyWordStep(s))
  {
    var s' := CopyWordStep(s);
    AtSlot(s, s.writer.slot.value);
    CopyWordKeepsFrames(s);
    forall q | 0 <= q < |s.pte| ensures PteOk(s', q) { AtPte(s, q); }
    forall u | 0 <= u < |s.thread| ensures ThreadOk(s', u) { assert ThreadOk(s, u); }
    forall g | 0 <= g < |s.place| && HasCopy(s.place[g]) ensures s'.disk[s.status[g].slot] == s.mem[g]
      { assert FrameOk(s, g); }
  }

  lemma WriteLockKeepsFrames(s: State)
    requires Inv(s) && WriteLockEnabled(s)
    ensures Shape(WriteLockStep(s)) && FramesOk(WriteLockStep(s)) && SlotsOk(WriteLockStep(s))
  {
    var s' := WriteLockStep(s);
    assert FrameOk(s, s.writer.batch[s.writer.next]);
    forall g | 0 <= g < |s.place| ensures FrameOk(s', g) { assert FrameOk(s, g); }
    forall e | 0 <= e < |s.owner| ensures SlotOk(s', e) { AtSlot(s, e); }
  }

  lemma WriteLockKeepsInv(s: State)
    requires Inv(s) && WriteLockEnabled(s)
    ensures Inv(WriteLockStep(s))
  {
    var s' := WriteLockStep(s);
    assert FrameOk(s, s.writer.batch[s.writer.next]);
    WriteLockKeepsFrames(s);
    forall q | 0 <= q < |s.pte| ensures PteOk(s', q) { AtPte(s, q); }
    forall u | 0 <= u < |s.thread| ensures ThreadOk(s', u) { assert ThreadOk(s, u); }
  }

  lemma WriteCommitKeepsFrames(s: State)
    requires Inv(s) && WriteSettleEnabled(s) && StillMidWrite(s)
    ensures Shape(WriteCommitStep(s)) && FramesOk(WriteCommitStep(s))
  {
    var s' := WriteCommitStep(s);
    AtSlot(s, s.writer.slot.value);
    assert FrameOk(s, s.writer.batch[s.writer.next]);
    forall g | 0 <= g < |s.place| ensures FrameOk(s', g) { assert FrameOk(s, g); }
  }

  lemma WriteCommitKeepsSlots(s: State)
    requires Inv(s) && WriteSettleEnabled(s) && StillMidWrite(s)
    ensures Shape(WriteCommitStep(s)) && SlotsOk(WriteCommitStep(s))
  {
    var s' := WriteCommitStep(s);
    AtSlot(s, s.writer.slot.value);
    assert FrameOk(s, s.writer.batch[s.writer.next]);
    forall e | 0 <= e < |s.owner| ensures SlotOk(s', e) { AtSlot(s, e); }
  }

  lemma WriteCommitKeepsPtes(s: State)
    requires Inv(s) && WriteSettleEnabled(s) && StillMidWrite(s)
    ensures Shape(WriteCommitStep(s)) && PtesOk(WriteCommitStep(s))
  {
    var s' := WriteCommitStep(s);
    AtSlot(s, s.writer.slot.value);
    assert FrameOk(s, s.writer.batch[s.writer.next]);
    forall q | 0 <= q < |s.pte| ensures PteOk(s', q) { AtPte(s, q); }
  }

  lemma WriteCommitKeepsInv(s: State)
    requires Inv(s) && WriteSettleEnabled(s) && StillMidWrite(s)
    ensures Inv(WriteCommitStep(s))
  {
    var s' := WriteCommitStep(s);
    AtSlot(s, s.writer.slot.value);
    assert FrameOk(s, s.writer.batch[s.writer.next]);
    WriteCommitKeepsFrames(s);
    WriteCommitKeepsSlots(s);
    WriteCommitKeepsPtes(s);
    forall u | 0 <= u < |s.thread| ensures ThreadOk(s', u) { assert ThreadOk(s, u); }
  }

  lemma WriteUndoKeepsFrames(s: State)
    requires Inv(s) && WriteSettleEnabled(s) && !StillMidWrite(s)
    ensures Shape(WriteUndoStep(s)) && FramesOk(WriteUndoStep(s))
  {
    var s' := WriteUndoStep(s);
    AtSlot(s, s.writer.slot.value);
    assert FrameOk(s, s.writer.batch[s.writer.next]);
    forall g | 0 <= g < |s.place| ensures FrameOk(s', g) { assert FrameOk(s, g); }
  }

  lemma WriteUndoKeepsSlots(s: State)
    requires Inv(s) && WriteSettleEnabled(s) && !StillMidWrite(s)
    ensures Shape(WriteUndoStep(s)) && SlotsOk(WriteUndoStep(s))
  {
    var s' := WriteUndoStep(s);
    AtSlot(s, s.writer.slot.value);
    assert FrameOk(s, s.writer.batch[s.writer.next]);
    forall e | 0 <= e < |s.owner| ensures SlotOk(s', e) { AtSlot(s, e); }
  }

  lemma WriteUndoKeepsInv(s: State)
    requires Inv(s) && WriteSettleEnabled(s) && !StillMidWrite(s)
    ensures Inv(WriteUndoStep(s))
  {
    var s' := WriteUndoStep(s);
    AtSlot(s, s.writer.slot.value);
    assert FrameOk(s, s.writer.batch[s.writer.next]);
    WriteUndoKeepsFrames(s);
    WriteUndoKeepsSlots(s);
    forall q | 0 <= q < |s.pte| ensures PteOk(s', q) { AtPte(s, q); }
    forall u | 0 <= u < |s.thread| ensures ThreadOk(s', u) { assert ThreadOk(s, u); }
  }

  lemma WriteSpliceKeepsFrames(s: State)
    requires Inv(s) && WriteSpliceEnabled(s)
    ensures Shape(WriteSpliceStep(s)) && FramesOk(WriteSpliceStep(s)) && SlotsOk(WriteSpliceStep(s))
  {
    var s' := WriteSpliceStep(s);
    forall g | 0 <= g < |s.place| ensures FrameOk(s', g) { assert FrameOk(s, g); }
    forall e | 0 <= e < |s.owner| ensures SlotOk(s', e) { AtSlot(s, e); }
  }

  lemma WriteSpliceKeepsInv(s: State)
    requires Inv(s) && WriteSpliceEnabled(s)
    ensures Inv(WriteSpliceStep(s))
  {
    var s' := WriteSpliceStep(s);
    WriteSpliceKeepsFrames(s);
    forall q | 0 <= q < |s.pte| ensures PteOk(s', q) { AtPte(s, q); }
    forall u | 0 <= u < |s.thread| ensures ThreadOk(s', u) { assert ThreadOk(s, u); }
  }

  lemma WriteUnlockKeepsInv(s: State, f: nat)
    requires Inv(s) && WriteUnlockEnabled(s, f)
    ensures Inv(WriteUnlockStep(s, f))
  {
    var s' := WriteUnlockStep(s, f);
    forall g | 0 <= g < |s.place| ensures FrameOk(s', g) { assert FrameOk(s, g); }
    forall e | 0 <= e < |s.owner| ensures SlotOk(s', e) { AtSlot(s, e); }
    forall q | 0 <= q < |s.pte| ensures PteOk(s', q) { AtPte(s, q); }
    forall u | 0 <= u < |s.thread| ensures ThreadOk(s', u) { assert ThreadOk(s, u); }
  }

  lemma WriteEndKeepsInv(s: State)
    requires Inv(s) && WriteEndEnabled(s)
    ensures Inv(WriteEndStep(s))
  {
    var s' := WriteEndStep(s);
    forall g | 0 <= g < |s.place| ensures FrameOk(s', g) { assert FrameOk(s, g); }
    forall e | 0 <= e < |s.owner| ensures SlotOk(s', e) { AtSlot(s, e); }
    forall q | 0 <= q < |s.pte| ensures PteOk(s', q) { AtPte(s, q); }
    forall u | 0 <= u < |s.thread| ensures ThreadOk(s', u) { assert ThreadOk(s, u); }
  }

  lemma BorrowKeepsFrames(s: State, f: nat)
    requires Inv(s) && BorrowEnabled(s, f)
    ensures Shape(BorrowStep(s, f)) && FramesOk(BorrowStep(s, f)) && SlotsOk(BorrowStep(s, f))
  {
    var s' := BorrowStep(s, f);
    forall g | 0 <= g < |s.place| ensures FrameOk(s', g) { assert FrameOk(s, g); }
    forall e | 0 <= e < |s.owner| ensures SlotOk(s', e) { AtSlot(s, e); }
  }

  lemma BorrowKeepsInv(s: State, f: nat)
    requires Inv(s) && BorrowEnabled(s, f)
    ensures Inv(BorrowStep(s, f))
  {
    var s' := BorrowStep(s, f);
    BorrowKeepsFrames(s, f);
    forall q | 0 <= q < |s.pte| ensures PteOk(s', q) { AtPte(s, q); }
    forall u | 0 <= u < |s.thread| ensures ThreadOk(s', u) { assert ThreadOk(s, u); }
  }

  lemma ReturnKeepsFrames(s: State, f: nat)
    requires Inv(s) && ReturnEnabled(s, f)
    ensures Shape(ReturnStep(s, f)) && FramesOk(ReturnStep(s, f)) && SlotsOk(ReturnStep(s, f))
  {
    var s' := ReturnStep(s, f);
    assert FrameOk(s, f);
    forall g | 0 <= g < |s.place| ensures FrameOk(s', g) { assert FrameOk(s, g); }
    forall e | 0 <= e < |s.owner| ensures SlotOk(s', e) { AtSlot(s, e); }
  }

  lemma ReturnKeepsInv(s: State, f: nat)
    requires Inv(s) && ReturnEnabled(s, f)
    ensures Inv(ReturnStep(s, f))
  {
    var s' := ReturnStep(s, f);
    assert FrameOk(s, f);
    ReturnKeepsFrames(s, f);
    forall q | 0 <= q < |s.pte| ensures PteOk(s', q) { AtPte(s, q); }
    forall u | 0 <= u < |s.thread| ensures ThreadOk(s', u) { assert ThreadOk(s, u); }
  }
}
