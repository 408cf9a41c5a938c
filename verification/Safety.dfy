/** What holds in every reachable state: the fault handler's checks never fail, frames' statuses fit their places. */
module Safety {
  import opened Types
  import opened VmState
  import opened Steps
  import opened Preservation
  import opened Runs
  import opened Interleaving

  /** Entries and frames point at each other. */
  lemma EntriesAndFramesAgree(s: State, p: nat)
    requires Reachable(s) && p < |s.pte|
    ensures Shape(s)
    ensures s.pte[p].Valid? ==>
              var f := s.pte[p].frame;
              f < |s.place| && s.back[f] == Some(p) && s.status[f] == Active && s.place[f] == Resident
                  && s.mapped[p] == Some(f)
    ensures s.pte[p].Transition? ==>
              var f := s.pte[p].frame;
              && f < |s.place| && s.back[f] == Some(p)
              && (s.status[f].Modified? || s.status[f].MidWrite? || s.status[f].Standby?
                  || (s.status[f].Active? && s.place[f].TrimBatch? && s.pfnLock[f] == Trimmer))
  {
    ReachableHasInv(s);
    AtPte(s, p);
  }

  /** A free frame is named by no entry, and no frame is named by two. */
  lemma FramesAreNotShared(s: State, p: nat, q: nat, f: nat)
    requires Reachable(s) && p < |s.pte| && q < |s.pte| && f < |s.status|
    requires s.pte[p] == Valid(f) || s.pte[p] == Transition(f)
    ensures s.status[f] != Free
    ensures s.pte[q] == Valid(f) || s.pte[q] == Transition(f) ==> p == q
  {
    ReachableHasInv(s);
    AtPte(s, p);
    AtPte(s, q);
  }

  /** A soft fault that has locked the page it waited for finds it given away, or exactly as it left it. */
  lemma RecheckIsComplete(s: State, t: nat)
    requires Reachable(s) && SoftRecheckEnabled(s, t)
    ensures Shape(s) && t < |s.thread|
    ensures var p, f := s.thread[t].p, s.thread[t].f;
            && p < |s.pte| && f < |s.place|
            && (s.pte[p].OnDisk? ||
                (&& s.pte[p] == Transition(f) && s.back[f] == Some(p)
                 && match s.status[f] {
                      case Modified => s.place[f] == ModifiedList
                      case MidWrite => s.place[f] == WriteBatch
                      case Standby(d) => s.place[f] == StandbyList && d < |s.bit| && s.bit[d]
                      case _ => false
                    }))
  {
    ReachableHasInv(s);
    AtThread(s, t);
    var f := s.thread[t].f;
    if s.status[f].Standby? && FrameOk(s, f) && HasCopy(s.place[f]) {
      AtSlot(s, s.status[f].slot);
    }
  }

  /** A soft fault has its entry's lock, and is waiting for the page or has not read the entry again. */
  predicate Waits(at: Thread) {
    at.SoftWantsPfn? || at.SoftLocked?
  }

  /** The entry is as it was, or went from transition to disk. */
  predicate GoesToDiskAtMost(was: Pte, now: Pte) {
    now == was || (was.Transition? && now.OnDisk?)
  }

  lemma OtherStepKeepsEntry(s: State, l: Label, t: nat)
    requires Inv(s) && Enabled(s, l) && Actor(l) != User(t) && t < |s.thread| && Waits(s.thread[t])
    ensures s.thread[t].p < |s.pte| && Kept(User(t), s, Apply(s, l))
    ensures GoesToDiskAtMost(s.pte[s.thread[t].p], Apply(s, l).pte[s.thread[t].p])
  {
    AtThread(s, t);
    AtPte(s, s.thread[t].p);
    StepKeeps(User(t), s, l);
    if l.ByUser? { OtherUserKeepsEntry(s, l.user, t); } else { assert |Apply(s, l).pte| == |s.pte|; }
  }

  lemma OtherUserKeepsEntry(s: State, l: FaultLabel, t: nat)
    requires Inv(s) && UserEnabled(s, l) && Actor(ByUser(l)) != User(t) && t < |s.thread| && Waits(s.thread[t])
    ensures s.thread[t].p < |s.pte| == |UserApply(s, l).pte|
    ensures GoesToDiskAtMost(s.pte[s.thread[t].p], UserApply(s, l).pte[s.thread[t].p])
  {
    AtThread(s, t);
    UserStepKeepsSize(s, l);
    if l.SoftFinish? || l.HardFinish? {
      FinishIsElsewhere(s, l, t);
    } else if l.RepurposeOne? {
      RepurposeOnlyMovesToDisk(s, l.t, l.f, s.thread[t].p);
    } else {
      assert UserApply(s, l).pte == s.pte;
    }
  }

  /** A thread finishes faults on entries it has locked itself. */
  lemma FinishIsElsewhere(s: State, l: FaultLabel, t: nat)
    requires Inv(s) && UserEnabled(s, l) && (l.SoftFinish? || l.HardFinish?) && l.t != t
    requires t < |s.thread| && Waits(s.thread[t])
    ensures s.thread[t].p < |s.pte| == |UserApply(s, l).pte|
    ensures UserApply(s, l).pte[s.thread[t].p] == s.pte[s.thread[t].p]
  {
    AtThread(s, t);
    AtThread(s, l.t);
  }

  lemma RepurposeOnlyMovesToDisk(s: State, t: nat, f: nat, p: nat)
    requires Inv(s) && RepurposeOneEnabled(s, t, f) && p < |s.pte|
    ensures |RepurposeOneStep(s, t, f).pte| == |s.pte| && GoesToDiskAtMost(s.pte[p], RepurposeOneStep(s, t, f).pte[p])
  {
    AtThread(s, t);
    assert FrameOk(s, f);
  }

  /** Between the snapshot and the second look, whatever the others do, the soft fault keeps the entry's
      lock, and the entry stays as it is or goes from transition to disk. On disk it stays. */
  lemma {:induction false} WaitingEntryIsStable(s: State, ls: seq<Label>, t: nat)
    requires Inv(s) && IsRun(s, ls) && NotBy(User(t), ls) && t < |s.thread| && Waits(s.thread[t])
    ensures var e, p, f := Final(s, ls), s.thread[t].p, s.thread[t].f;
            && t < |e.thread| && e.thread[t] == s.thread[t]
            && p < |s.pte| && p < |e.pte| && p < |e.pteLock| && e.pteLock[p] == User(t)
            && (e.pte[p] == Transition(f) || e.pte[p].OnDisk?)
            && GoesToDiskAtMost(s.pte[p], e.pte[p])
    decreases |ls|
  {
    if ls == [] {
      AtThread(s, t);
    } else {
      OtherStepKeepsEntry(s, ls[0], t);
      StepKeepsInv(s, ls[0]);
      assert NotBy(User(t), ls[1..]);
      WaitingEntryIsStable(Apply(s, ls[0]), ls[1..], t);
    }
  }

  /** Repurposing rewrites an entry without its lock: the entry is in transition to that very
      frame, and whoever has locked it is a soft fault waiting for that very frame. */
  lemma RepurposingIsSafe(s: State, t: nat, f: nat)
    requires Reachable(s) && RepurposeOneEnabled(s, t, f)
    ensures Shape(s) && f < |s.place| && s.back[f].Some? && s.back[f].value < |s.pte|
    ensures s.status[f].Standby? && s.status[f].slot < |s.disk| && s.disk[s.status[f].slot] == s.mem[f]
    ensures var p := s.back[f].value;
            && s.pte[p] == Transition(f)
            && match s.pteLock[p] {
                 case Nobody => true
                 case User(u) => u < |s.thread| && s.thread[u] == SoftWantsPfn(p, f)
                 case _ => false
               }
  {
    ReachableHasInv(s);
    GivenPage(s, t, f);
    AtPte(s, s.back[f].value);
  }

  lemma GivenPage(s: State, t: nat, f: nat)
    requires Inv(s) && RepurposeOneEnabled(s, t, f)
    ensures f < |s.place| && s.back[f].Some? && s.back[f].value < |s.pte| && s.pte[s.back[f].value] == Transition(f)
    ensures s.pfnLock[f] == User(t) && s.place[f] == Repurposed(t) && s.thread[t].Repurposing?
    ensures s.status[f].Standby? && s.status[f].slot < |s.disk| && s.disk[s.status[f].slot] == s.mem[f]
  {
    AtThread(s, t);
    assert FrameOk(s, f);
  }

  /** Mid-write undo is exact: a page still mid-write when the writer locks it again equals the
      copy just made, and a page that was taken is left to whoever took it. */
  lemma MidWriteIsExact(s: State)
    requires Reachable(s) && WriteSettleEnabled(s)
    ensures Inv(s) && s.writer.slot.Some? && s.writer.next < |s.writer.batch|
    ensures s.writer.slot.value < |s.disk| && s.writer.batch[s.writer.next] < |s.mem|
    ensures StillMidWrite(s) ==> s.disk[s.writer.slot.value] == s.mem[s.writer.batch[s.writer.next]]
    ensures !StillMidWrite(s) ==>
              var f, s' := s.writer.batch[s.writer.next], WriteSettleStep(s);
              s'.mem == s.mem && s'.pte == s.pte && s'.status == s.status && s'.pfnLock == s.pfnLock[f := Nobody]
  {
    ReachableHasInv(s);
    assert FrameOk(s, s.writer.batch[s.writer.next]);
  }

  /** Every standby page has an exact copy in its slot. */
  lemma StandbyHasCopy(s: State, f: nat)
    requires Reachable(s) && f < |s.place| && s.place[f] == StandbyList
    ensures Shape(s) && s.status[f].Standby? && s.status[f].slot < |s.disk| && s.disk[s.status[f].slot] == s.mem[f]
  {
    ReachableHasInv(s);
    assert FrameOk(s, f);
  }

  /** The status a frame must have, given where it is. */
  predicate StatusFits(pl: Place, st: Status) {
    match pl
    case FreeList => st.Free?
    case Cache(_) => st.Free?
    case Hand(_) => st.Free?
    case Resident => st.Active?
    case TrimBatch => st.Active? || st.Modified?
    case ModifiedList => st.Modified?
    case Gathered => st.Modified?
    case WriteBatch => st.MidWrite?
    case Written => st.Standby?
    case StandbyList => st.Standby?
    case Repurposed(_) => st.Standby?
    case Rescued(_) => !st.Free? && !st.Active?
  }

  /** Who can hold its lock, apart from a thread that holds it in passing. */
  predicate LockFits(pl: Place, lk: Holder) {
    match pl
    case FreeList => lk.Nobody?
    case Cache(_) => lk.Nobody?
    case Hand(t) => lk.Nobody? || lk == User(t)
    case Resident => lk.Nobody?
    case TrimBatch => lk.Trimmer?
    case ModifiedList => lk.Nobody? || lk.Trimmer? || lk.Listing?
    case Gathered => lk.Writer?
    case WriteBatch => lk.Nobody?
    case Written => lk.Writer?
    case StandbyList => lk.Nobody? || lk.Writer? || lk.Listing?
    case Repurposed(t) => lk == User(t)
    case Rescued(t) => lk == User(t)
  }

  /** Frame conservation, the lists and batches: a frame's status and lock fit its place, and
      the writer's batch it is said to be in has it. */
  lemma FrameConservation(s: State, f: nat)
    requires Reachable(s) && f < |s.place|
    ensures Shape(s) && StatusFits(s.place[f], s.status[f])
    ensures LockFits(s.place[f], s.pfnLock[f]) || (Passing(s, f) && s.place[f] != FreeList)
    ensures s.writer.Gathering? && f in s.writer.gathered <==> s.place[f] == Gathered
    ensures s.place[f] == WriteBatch ==> (s.writer.Gathering? || s.writer.Copying?) && f in s.writer.batch
  {
    ReachableHasInv(s);
    assert FrameOk(s, f);
  }

  predicate HasPopped(at: Thread) {
    at.HardWantsPfn? || at.HardLocked? || MapsPage(at)
  }

  /** Frame conservation, the user threads: a frame is in a thread's cache, hand or batch, or
      held by its soft fault, exactly when its place says so. */
  lemma ThreadFrameConservation(s: State, f: nat, t: nat)
    requires Reachable(s) && f < |s.place| && t < |s.thread|
    ensures t < |s.cache| && (f in s.cache[t] <==> s.place[f] == Cache(t))
    ensures HasPopped(s.thread[t]) && s.thread[t].f == f <==> s.place[f] == Hand(t)
    ensures (s.thread[t].SoftHeld? || s.thread[t].SoftMapped?) && s.thread[t].f == f <==> s.place[f] == Rescued(t)
    ensures s.thread[t].Repurposing? && f in s.thread[t].batch <==> s.place[f] == Repurposed(t)
  {
    ReachableHasInv(s);
    assert FrameOk(s, f);
    assert ThreadOk(s, t);
  }

  /** A hard fault that gives its page back finds room in its own cache, which never overflows. */
  lemma CacheHasRoom(s: State, t: nat)
    requires Reachable(s) && t < |s.thread|
    ensures t < |s.cache| && |s.cache[t]| <= FREE_PAGE_CACHE_SIZE
    ensures s.thread[t].HardLocked? ==> |s.cache[t] + {s.thread[t].f}| <= FREE_PAGE_CACHE_SIZE
  {
    ReachableHasInv(s);
    AtThread(s, t);
  }

  /** The entry the trimmer has locked is still valid, and its frame is not in the batch yet. If the
      page's lock is taken then only in passing: for a soft fault that lost the page, or for the
      writer looking at a page rescued from it. */
  lemma TrimmerTakesValidPages(s: State, p: nat)
    requires Reachable(s) && s.trim == Scanning(Some(p))
    ensures p < |s.pte| && s.pte[p].Valid? && s.pte[p].frame < |s.place|
    ensures Shape(s) && s.place[s.pte[p].frame] == Resident
    ensures TrimLockPfnEnabled(s) || Passing(s, s.pte[p].frame)
  {
    ReachableHasInv(s);
    AtPte(s, p);
  }
}
