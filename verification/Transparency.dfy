/** Paging is invisible to the user: every run refines a flat, zero-initialised memory. */
module Transparency {
  import opened Types
  import opened VmState
  import opened Steps
  import opened Preservation
  import opened Runs

  /** A page's contents as its entry tells where they are. */
  ghost function Stored(s: State, p: nat): (r: Page)
    requires Inv(s) && p < |s.pte|
    ensures |r| == s.words
  {
    assert PteOk(s, p);
    match s.pte[p]
    case Zeroed => ZeroPage(s.words)
    case Valid(f) => s.mem[f]
    case Transition(f) => s.mem[f]
    case OnDisk(d) => s.disk[d]
  }

  /** A hard fault has mapped the address and is filling the frame. */
  ghost predicate BeingFilled(s: State, p: nat) {
    && p < |s.pteLock| && s.pteLock[p].User?
    && s.pteLock[p].t < |s.thread| && s.thread[s.pteLock[p].t].HardMapped?
  }

  /** The current contents of a virtual page. The words already filled are those in the new frame. */
  ghost function Value(s: State, p: nat): (r: Page)
    requires Inv(s) && p < |s.pte|
    ensures |r| == s.words
  {
    if BeingFilled(s, p) then
      AtThread(s, s.pteLock[p].t);
      var HardMapped(_, f, filled) := s.thread[s.pteLock[p].t];
      Overlaid(s.mem[f], filled, Stored(s, p))
    else if SlotFreed(s, p) then
      AtThread(s, s.pteLock[p].t);
      s.mem[s.thread[s.pteLock[p].t].f]
    else Stored(s, p)
  }

  /** The first words of one page and the rest of another. */
  function Overlaid(front: Page, n: nat, rest: Page): (r: Page)
    requires n <= |front| == |rest|
    ensures |r| == |rest|
    ensures forall i :: 0 <= i < |rest| ==> r[i] == if i < n then front[i] else rest[i]
  {
    front[..n] + rest[n..]
  }

  /** A hard fault has mapped the word's address but not yet filled the word. */
  ghost predicate InFillWindow(s: State, p: nat, off: nat) {
    BeingFilled(s, p) && s.thread[s.pteLock[p].t].filled <= off
  }

  /** The contents after one step, were memory flat. A store in a fill window is lost. */
  ghost function FlatStep(s: State, l: Label, p: nat, v: Page): Page {
    match l
    case ByUser(UserWrite(q, off, w)) =>
      if q == p && off < |v| && !InFillWindow(s, p, off) then v[off := w] else v
    case _ => v
  }

  /** The locked entry of a page being filled is not valid or in transition. */
  lemma AtFill(s: State, p: nat)
    requires Inv(s) && p < |s.pte| && BeingFilled(s, p)
    ensures var u := s.thread[s.pteLock[p].t];
            && u.p == p && u.f < |s.mem| && u.filled <= s.words && s.mapped[p] == Some(u.f)
            && s.place[u.f] == Hand(s.pteLock[p].t) && (s.pte[p].OnDisk? || s.pte[p].Zeroed?)
  {
    AtPte(s, p);
  }

  /** Nor is one that has been filled. */
  lemma AtFilled(s: State, p: nat)
    requires Inv(s) && p < |s.pte| && SlotFreed(s, p)
    ensures var u := s.thread[s.pteLock[p].t];
            && u.p == p && u.f < |s.mem| && s.mapped[p] == Some(u.f)
            && s.place[u.f] == Hand(s.pteLock[p].t) && (s.pte[p].OnDisk? || s.pte[p].Zeroed?)
  {
    AtPte(s, p);
    AtThread(s, s.pteLock[p].t);
  }

  /** A mapped word is the page's current one, except in a fill window. */
  lemma MappedIsCurrent(s: State, p: nat, off: nat)
    requires Inv(s) && p < |s.pte| && s.mapped[p].Some? && off < s.words && !InFillWindow(s, p, off)
    ensures s.mapped[p].value < |s.mem| && s.mem[s.mapped[p].value][off] == Value(s, p)[off]
  {
    AtPte(s, p);
    if BeingFilled(s, p) { AtFill(s, p); }
  }

  /** No frame holds the contents of two pages. */
  lemma FrameHasOnePage(s: State, p: nat, q: nat, f: nat)
    requires Inv(s) && p < |s.pte| && q < |s.pte| && p != q
    requires s.pte[p] == Valid(f) || s.pte[p] == Transition(f)
    ensures s.pte[q] != Valid(f) && s.pte[q] != Transition(f)
  {
    assert PteOk(s, p) && PteOk(s, q);
  }

  /** The frame a page's address is mapped to is neither another page's frame nor being filled for one. */
  lemma MappedIsApart(s: State, p: nat, q: nat)
    requires Inv(s) && p < |s.pte| && q < |s.pte| && p != q && s.mapped[p].Some?
    ensures s.pte[q] != Valid(s.mapped[p].value) && s.pte[q] != Transition(s.mapped[p].value)
    ensures BeingFilled(s, q) || SlotFreed(s, q) ==> s.thread[s.pteLock[q].t].f != s.mapped[p].value
  {
    AtPte(s, p);
    AtPte(s, q);
    if BeingFilled(s, q) { AtFill(s, q); }
    if SlotFreed(s, q) { AtFilled(s, q); }
    if BeingFilled(s, p) { AtFill(s, p); }
    else if SlotFreed(s, p) { AtFilled(s, p); }
    else { FrameHasOnePage(s, p, q, s.mapped[p].value); }
  }

  lemma WriteIsFlat(s: State, p: nat, off: nat, v: bv64, q: nat)
    requires Inv(s) && UserWriteEnabled(s, p, off) && q < |s.pte|
    ensures Inv(UserWriteStep(s, p, off, v)) && q < |UserWriteStep(s, p, off, v).pte|
    ensures Value(UserWriteStep(s, p, off, v), q) == FlatStep(s, ByUser(UserWrite(p, off, v)), q, Value(s, q))
  {
    UserWriteKeepsInv(s, p, off, v);
    AtPte(s, p);
    AtPte(s, q);
    if q != p {
      MappedIsApart(s, p, q);
      if BeingFilled(s, q) { AtFill(s, q); }
    } else if BeingFilled(s, p) {
      AtFill(s, p);
    }
  }

  /** Filling a word makes it the page's own. */
  lemma FillIsFlat(s: State, t: nat, q: nat)
    requires Inv(s) && HardFillEnabled(s, t) && q < |s.pte|
    ensures Inv(HardFillStep(s, t)) && q < |HardFillStep(s, t).pte| && Value(HardFillStep(s, t), q) == Value(s, q)
  {
    HardFillKeepsInv(s, t);
    AtThread(s, t);
    AtPte(s, q);
    if BeingFilled(s, q) { AtFill(s, q); }
  }

  /** A hard fault has mapped the page's address. */
  ghost predicate Fetching(s: State, p: nat) {
    && p < |s.pteLock| && s.pteLock[p].User?
    && s.pteLock[p].t < |s.thread| && MapsPage(s.thread[s.pteLock[p].t])
  }

  /** What the contents of a page depend on, in two states. */
  ghost predicate SameSources(s: State, r: State, q: nat)
    requires q < |s.pteLock|
  {
    && r.pte == s.pte && r.mem == s.mem && r.disk == s.disk && r.words == s.words && |r.pteLock| == |s.pteLock|
    && (Fetching(r, q) <==> Fetching(s, q))
    && (Fetching(s, q) ==> r.pteLock[q] == s.pteLock[q] && r.thread[s.pteLock[q].t] == s.thread[s.pteLock[q].t])
  }

  lemma ValueKept(s: State, r: State, q: nat)
    requires Inv(s) && Inv(r) && q < |s.pte| && SameSources(s, r, q)
    ensures q < |r.pte| && Value(r, q) == Value(s, q)
  {
    AtPte(s, q);
  }

  /** Freeing the slot: what was read back is in the frame. */
  lemma ClearIsFlat(s: State, t: nat, q: nat)
    requires Inv(s) && HardClearEnabled(s, t) && q < |s.pte|
    ensures Inv(HardClearStep(s, t)) && q < |HardClearStep(s, t).pte| && Value(HardClearStep(s, t), q) == Value(s, q)
  {
    HardClearKeepsInv(s, t);
    if q == s.thread[t].p {
      AtThread(s, t);
      AtFill(s, q);
    } else {
      ClearIsElsewhere(s, t, q);
      ValueKept(s, HardClearStep(s, t), q);
    }
  }

  lemma ClearIsElsewhere(s: State, t: nat, q: nat)
    requires Inv(s) && HardClearEnabled(s, t) && q < |s.pte| && q != s.thread[t].p
    ensures SameSources(s, HardClearStep(s, t), q)
  {
    AtThread(s, t);
    AtPte(s, q);
  }

  lemma FinishIsFlat(s: State, t: nat, q: nat)
    requires Inv(s) && HardFinishEnabled(s, t) && q < |s.pte|
    ensures Inv(HardFinishStep(s, t)) && q < |HardFinishStep(s, t).pte|
    ensures Value(HardFinishStep(s, t), q) == Value(s, q)
  {
    HardFinishKeepsInv(s, t);
    AtThread(s, t);
    AtPte(s, q);
    if BeingFilled(s, q) { AtFill(s, q); }
    if SlotFreed(s, q) { AtFilled(s, q); }
  }

  lemma MapIsFlat(s: State, t: nat, q: nat)
    requires Inv(s) && HardLockPteEnabled(s, t) && q < |s.pte|
    ensures Inv(HardLockPteStep(s, t)) && q < |HardLockPteStep(s, t).pte|
    ensures Value(HardLockPteStep(s, t), q) == Value(s, q)
  {
    UserKeepsInv(s, HardLockPte(t));
    if HardTooLate(s, t) { GiveBackIsFlat(s, t, q); } else { NewMappingIsFlat(s, t, q); }
  }

  lemma GiveBackIsFlat(s: State, t: nat, q: nat)
    requires Inv(s) && HardLockPteEnabled(s, t) && HardTooLate(s, t) && q < |s.pte| && Inv(HardGiveBackStep(s, t))
    ensures q < |HardGiveBackStep(s, t).pte| && Value(HardGiveBackStep(s, t), q) == Value(s, q)
  {
    AtPte(s, q);
  }

  /** No word is filled yet. */
  lemma NewMappingIsFlat(s: State, t: nat, q: nat)
    requires Inv(s) && HardLockPteEnabled(s, t) && !HardTooLate(s, t) && q < |s.pte| && Inv(HardMapStep(s, t))
    ensures q < |HardMapStep(s, t).pte| && Value(HardMapStep(s, t), q) == Value(s, q)
  {
    AtThread(s, t);
    AtPte(s, q);
  }

  /** Giving a standby page away: the copy on disk is exact. */
  lemma RepurposeIsFlat(s: State, t: nat, f: nat, q: nat)
    requires Inv(s) && RepurposeOneEnabled(s, t, f) && q < |s.pte|
    ensures Inv(RepurposeOneStep(s, t, f)) && q < |RepurposeOneStep(s, t, f).pte|
    ensures Value(RepurposeOneStep(s, t, f), q) == Value(s, q)
  {
    RepurposeOneKeepsInv(s, t, f);
    AtThread(s, t);
    assert FrameOk(s, f);
    if s.back[f] == Some(q) { RepurposedIsCopied(s, t, f, q); } else { RepurposeIsElsewhere(s, t, f, q); }
  }

  lemma RepurposedIsCopied(s: State, t: nat, f: nat, q: nat)
    requires Inv(s) && RepurposeOneEnabled(s, t, f) && Inv(RepurposeOneStep(s, t, f))
    requires q < |s.pte| && f < |s.back| && s.back[f] == Some(q)
    ensures q < |RepurposeOneStep(s, t, f).pte| && Value(RepurposeOneStep(s, t, f), q) == Value(s, q)
  {
    AtThread(s, t);
    assert FrameOk(s, f);
    AtPte(s, q);
  }

  lemma RepurposeIsElsewhere(s: State, t: nat, f: nat, q: nat)
    requires Inv(s) && RepurposeOneEnabled(s, t, f) && Inv(RepurposeOneStep(s, t, f))
    requires q < |s.pte| && f < |s.back| && s.back[f] != Some(q)
    ensures q < |RepurposeOneStep(s, t, f).pte| && Value(RepurposeOneStep(s, t, f), q) == Value(s, q)
  {
    AtThread(s, t);
    assert FrameOk(s, f);
    AtPte(s, q);
  }

  /** The writer's copy goes to a slot no entry names. */
  lemma CopyIsFlat(s: State, q: nat)
    requires Inv(s) && CopyWordEnabled(s) && q < |s.pte|
    ensures Inv(CopyWordStep(s)) && q < |CopyWordStep(s).pte| && Value(CopyWordStep(s), q) == Value(s, q)
  {
    CopyWordKeepsInv(s);
    AtPte(s, q);
  }

  lemma RescueIsFlat(s: State, t: nat, q: nat)
    requires Inv(s) && SoftFinishEnabled(s, t) && q < |s.pte|
    ensures Inv(SoftFinishStep(s, t)) && q < |SoftFinishStep(s, t).pte| && Value(SoftFinishStep(s, t), q) == Value(s, q)
  {
    SoftFinishKeepsInv(s, t);
    AtThread(s, t);
    AtPte(s, q);
  }

  /** The other steps of a user thread touch no entry, no frame, no slot's contents and no page being filled. */
  lemma QuietIsFlat(s: State, l: FaultLabel, q: nat)
    requires Inv(s) && UserEnabled(s, l) && q < |s.pte| && Inv(UserApply(s, l)) && IsQuiet(l)
    ensures q < |UserApply(s, l).pte| && Value(UserApply(s, l), q) == Value(s, q)
  {
    QuietStep(s, l, q);
    ValueKept(s, UserApply(s, l), q);
  }

  predicate IsQuiet(l: FaultLabel) {
    !l.UserWrite? && !FetchesPage(l) && !l.RepurposeOne? && !l.SoftFinish?
  }

  predicate FetchesPage(l: FaultLabel) {
    l.HardLockPte? || l.HardFill? || l.HardClear? || l.HardFinish?
  }

  lemma QuietStep(s: State, l: FaultLabel, q: nat)
    requires Inv(s) && UserEnabled(s, l) && q < |s.pte| && IsQuiet(l)
    ensures SameSources(s, UserApply(s, l), q)
  {
    AtPte(s, q);
    if l.SoftLockPte? || l.SoftRecheck? { QuietOnEntry(s, l, q); } else { QuietOffEntry(s, l, q); }
  }

  lemma QuietOnEntry(s: State, l: FaultLabel, q: nat)
    requires Inv(s) && UserEnabled(s, l) && q < |s.pte| && (l.SoftLockPte? || l.SoftRecheck?)
    ensures SameSources(s, UserApply(s, l), q)
  {
    AtPte(s, q);
    if l.SoftRecheck? { RecheckIsQuiet(s, l.t, q); }
  }

  lemma RecheckIsQuiet(s: State, t: nat, q: nat)
    requires Inv(s) && SoftRecheckEnabled(s, t) && q < |s.pte|
    ensures SameSources(s, SoftRecheckStep(s, t), q)
  {
    AtPte(s, q);
    AtThread(s, t);
  }

  lemma QuietOffEntry(s: State, l: FaultLabel, q: nat)
    requires Inv(s) && UserEnabled(s, l) && q < |s.pte| && IsQuiet(l) && !l.SoftLockPte? && !l.SoftRecheck?
    ensures SameSources(s, UserApply(s, l), q)
  {
    assert UserApply(s, l).pteLock == s.pteLock;
    AtPte(s, q);
  }

  lemma HardIsFlat(s: State, l: FaultLabel, q: nat)
    requires Inv(s) && UserEnabled(s, l) && q < |s.pte| && Inv(UserApply(s, l))
    requires FetchesPage(l)
    ensures q < |UserApply(s, l).pte| && Value(UserApply(s, l), q) == Value(s, q)
  {
    match l
    case HardLockPte(t) => MapIsFlat(s, t, q);
    case HardFill(t) => FillIsFlat(s, t, q);
    case HardClear(t) => ClearIsFlat(s, t, q);
    case HardFinish(t) => FinishIsFlat(s, t, q);
  }

  lemma UserIsFlat(s: State, l: FaultLabel, q: nat)
    requires Inv(s) && UserEnabled(s, l) && q < |s.pte| && Inv(UserApply(s, l))
    ensures q < |UserApply(s, l).pte| && Value(UserApply(s, l), q) == FlatStep(s, ByUser(l), q, Value(s, q))
  {
    if l.UserWrite? {
      WriteIsFlat(s, l.p, l.off, l.v, q);
    } else if FetchesPage(l) {
      HardIsFlat(s, l, q);
    } else if l.RepurposeOne? {
      RepurposeIsFlat(s, l.t, l.f, q);
    } else if l.SoftFinish? {
      RescueIsFlat(s, l.t, q);
    } else {
      QuietIsFlat(s, l, q);
    }
  }

  lemma TrimIsFlat(s: State, l: TrimLabel, q: nat)
    requires Inv(s) && TrimEnabled(s, l) && q < |s.pte| && Inv(TrimApply(s, l))
    ensures q < |TrimApply(s, l).pte| && Value(TrimApply(s, l), q) == Value(s, q)
  {
    AtPte(s, q);
    if BeingFilled(s, q) { AtFill(s, q); }
  }

  lemma WriterIsFlat(s: State, l: WriteLabel, q: nat)
    requires Inv(s) && WriteEnabled(s, l) && q < |s.pte| && Inv(WriteApply(s, l))
    ensures q < |WriteApply(s, l).pte| && Value(WriteApply(s, l), q) == Value(s, q)
  {
    if l.CopyWord? {
      CopyIsFlat(s, q);
    } else {
      WriterStepIsQuiet(s, l, q);
    }
  }

  lemma WriterStepIsQuiet(s: State, l: WriteLabel, q: nat)
    requires Inv(s) && WriteEnabled(s, l) && q < |s.pte| && Inv(WriteApply(s, l)) && !l.CopyWord?
    ensures q < |WriteApply(s, l).pte| && Value(WriteApply(s, l), q) == Value(s, q)
  {
    var r := WriteApply(s, l);
    assert r.pte == s.pte && r.mem == s.mem && r.disk == s.disk && r.words == s.words;
    assert r.pteLock == s.pteLock && r.thread == s.thread;
    ValueKept(s, r, q);
  }

  lemma ListIsFlat(s: State, l: ListLabel, q: nat)
    requires Inv(s) && ListEnabled(s, l) && q < |s.pte| && Inv(ListApply(s, l))
    ensures q < |ListApply(s, l).pte| && Value(ListApply(s, l), q) == Value(s, q)
  {
    AtPte(s, q);
  }

  /** One step changes the contents of a page exactly as flat memory would. */
  lemma StepIsFlat(s: State, l: Label, q: nat)
    requires Inv(s) && Enabled(s, l) && q < |s.pte|
    ensures Inv(Apply(s, l)) && q < |Apply(s, l).pte|
    ensures Value(Apply(s, l), q) == FlatStep(s, l, q, Value(s, q))
  {
    StepKeepsInv(s, l);
    match l
    case ByUser(u) => UserIsFlat(s, u, q);
    case ByTrimmer(u) => TrimIsFlat(s, u, q);
    case ByWriter(u) => WriterIsFlat(s, u, q);
    case OnList(u) => ListIsFlat(s, u, q);
  }

  // ---------- Whole runs ----------

  /** The label is a store to this word. */
  predicate StoresTo(l: Label, p: nat, off: nat) {
    l.ByUser? && l.user.UserWrite? && l.user.p == p && l.user.off == off
  }

  /** What a flat memory would hold: the last value stored to the word, or v if there is none. */
  function LastStored(ls: seq<Label>, p: nat, off: nat, v: bv64): bv64 {
    if ls == [] then v
    else LastStored(ls[1..], p, off, if StoresTo(ls[0], p, off) then ls[0].user.v else v)
  }

  /** The same, leaving out the stores made in a fill window. */
  ghost function LastKept(s: State, ls: seq<Label>, p: nat, off: nat, v: bv64): bv64
    requires Inv(s) && IsRun(s, ls)
    decreases |ls|
  {
    if ls == [] then v
    else
      StepKeepsInv(s, ls[0]);
      LastKept(Apply(s, ls[0]), ls[1..], p, off, if StoresTo(ls[0], p, off) && !InFillWindow(s, p, off)
          then ls[0].user.v else v)
  }

  /** No store of the run to this word is made in a fill window. */
  ghost predicate AvoidsWindows(s: State, ls: seq<Label>, p: nat, off: nat)
    requires Inv(s) && IsRun(s, ls)
    decreases |ls|
  {
    ls != [] ==>
      && (StoresTo(ls[0], p, off) ==> !InFillWindow(s, p, off))
      && (StepKeepsInv(s, ls[0]); AvoidsWindows(Apply(s, ls[0]), ls[1..], p, off))
  }

  /** After any run a word of a page is the last value whose store was not made in a fill window. */
  lemma {:induction false} RunIsFlatOutsideWindows(s: State, ls: seq<Label>, p: nat, off: nat)
    requires Inv(s) && IsRun(s, ls) && p < |s.pte| && off < s.words
    ensures p < |Final(s, ls).pte| && off < Final(s, ls).words
    ensures Value(Final(s, ls), p)[off] == LastKept(s, ls, p, off, Value(s, p)[off])
    decreases |ls|
  {
    if ls != [] {
      StepIsFlat(s, ls[0], p);
      RunIsFlatOutsideWindows(Apply(s, ls[0]), ls[1..], p, off);
    }
  }

  lemma {:induction false} AvoidingWindowsKeepsAll(s: State, ls: seq<Label>, p: nat, off: nat, v: bv64)
    requires Inv(s) && IsRun(s, ls) && AvoidsWindows(s, ls, p, off)
    ensures LastKept(s, ls, p, off, v) == LastStored(ls, p, off, v)
    decreases |ls|
  {
    if ls != [] {
      StepKeepsInv(s, ls[0]);
      AvoidingWindowsKeepsAll(Apply(s, ls[0]), ls[1..], p, off, if StoresTo(ls[0], p, off) then ls[0].user.v else v);
    }
  }

  /** Transparency: after any interleaving from start-up, reading a mapped word returns the
      last value stored to it, or zero. */
  lemma Transparency(s: State, ls: seq<Label>, p: nat, off: nat)
    requires Init(s) && Inv(s) && IsRun(s, ls) && p < |s.pte| && off < s.words
    requires AvoidsWindows(s, ls, p, off)
    ensures p < |Final(s, ls).pte| && off < Final(s, ls).words
    ensures Value(Final(s, ls), p)[off] == LastStored(ls, p, off, 0)
    ensures var e := Final(s, ls);
            e.mapped[p].Some? && !InFillWindow(e, p, off) ==>
              e.mapped[p].value < |e.mem| && e.mem[e.mapped[p].value][off] == LastStored(ls, p, off, 0)
  {
    RunIsFlatOutsideWindows(s, ls, p, off);
    AvoidingWindowsKeepsAll(s, ls, p, off, 0);
    var e := Final(s, ls);
    if e.mapped[p].Some? && !InFillWindow(e, p, off) {
      MappedIsCurrent(e, p, off);
    }
  }

  /** A store is kept exactly when it is not made in a fill window, or changes nothing. */
  lemma StoreIsKeptIff(s: State, p: nat, off: nat, v: bv64)
    requires Inv(s) && UserWriteEnabled(s, p, off)
    ensures Inv(UserWriteStep(s, p, off, v)) && p < |s.pte|
    ensures Value(UserWriteStep(s, p, off, v), p)[off] == v <==> !InFillWindow(s, p, off) || Value(s, p)[off] == v
  {
    MappedInRange(s, p);
    WriteIsFlat(s, p, off, v, p);
  }
}
