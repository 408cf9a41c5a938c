/** Blocking lock waits: who waits for whom. */
module Deadlock {
  import opened Types
  import opened VmState
  import opened Steps
  import opened Preservation
  import opened Runs
  import opened Interleaving

  /** What a thread can block on: a lock, or the locks of a list's head and last page, which a splice tries for
      again and again with its batch locked. */
  datatype Lock = PteLock(p: nat) | PfnLock(f: nat) | ListEnds(pl: Place)

  /** What a thread is blocked on, if anything: its next step is to take it. */
  ghost function Wants(s: State, a: Holder): Option<Lock> {
    match a
    case Nobody => None
    case Listing => None   // a list operation that holds a neighbour only tries for locks
    case User(t) =>
      if t < |s.thread| then
        match s.thread[t]
        case SoftWantsPte(p) => Some(PteLock(p))
        case SoftWantsPfn(_, f) => Some(PfnLock(f))
        case HardWantsPfn(_, f) => Some(PfnLock(f))
        case _ => None
      else None
    case Trimmer =>
      if s.trim.Scanning? && s.trim.cur.Some? && s.trim.cur.value < |s.pte| && s.pte[s.trim.cur.value].Valid?
      then Some(PfnLock(s.pte[s.trim.cur.value].frame))
      else if TrimSpliceEnabled(s) then Some(ListEnds(ModifiedList)) else None
    case Writer =>
      if s.writer.Copying? && s.writer.slot.Some? && s.writer.copied == s.words && !s.writer.locked
        && s.writer.next < |s.writer.batch|
      then Some(PfnLock(s.writer.batch[s.writer.next]))
      else if WriteSpliceEnabled(s) then Some(ListEnds(StandbyList)) else None
  }

  /** The thread holds the lock. A list's head may be locked by some list operation, and its last page
      may be any page of the list. */
  ghost predicate HeldBy(s: State, l: Lock, b: Holder) {
    match l
    case PteLock(p) => p < |s.pteLock| && s.pteLock[p] == b
    case PfnLock(f) => f < |s.pfnLock| && s.pfnLock[f] == b
    case ListEnds(pl) => b == Listing || exists f :: OnListHeldBy(s, pl, f, b)
  }

  ghost predicate OnListHeldBy(s: State, pl: Place, f: nat, b: Holder) {
    f < |s.place| && f < |s.pfnLock| && s.place[f] == pl && s.pfnLock[f] == b
  }

  /** a is blocked on a lock that b holds. */
  ghost predicate WaitsFor(s: State, a: Holder, b: Holder) {
    !b.Nobody? && Wants(s, a).Some? && HeldBy(s, Wants(s, a).value, b)
  }

  /** The writer is about to lock a page that it has already put on its temporary list. */
  ghost predicate SelfBlocked(s: State) {
    && s.writer.Copying? && s.writer.slot.Some? && s.writer.copied == s.words && !s.writer.locked
    && s.writer.next < |s.writer.batch| && s.writer.batch[s.writer.next] < |s.place|
    && s.place[s.writer.batch[s.writer.next]] == Written
  }

  /** How far a thread can be from running, by what it is blocked on. */
  ghost function Rank(s: State, a: Holder): nat {
    if Wants(s, a) == None then 0
    else if a.Trimmer? then 1
    else if a.Writer? then 2
    else if Wants(s, a).value.PteLock? then 4 else 3
  }

  /** Whoever holds a page's lock in passing is blocked on nothing. */
  lemma PassingIsNotBlocked(s: State, f: nat)
    requires Inv(s) && f < |s.place| && Passing(s, f)
    ensures Wants(s, s.pfnLock[f]) == None
  {
  }

  /** Every wait is for a thread of lower rank, except the writer's wait for itself. */
  lemma WaitsGoDown(s: State, a: Holder, b: Holder)
    requires Inv(s) && WaitsFor(s, a, b)
    ensures if a == Writer && b == Writer then SelfBlocked(s) else Rank(s, b) < Rank(s, a)
  {
    if Wants(s, a).value.ListEnds? {
      SpliceWaitsForPassing(s, a, b);
    } else if Wants(s, a).value.PteLock? {
      EntryWaitsGoDown(s, a, b);
    } else {
      PageWaitsGoDown(s, a, b);
    }
  }

  lemma EntryWaitsGoDown(s: State, a: Holder, b: Holder)
    requires Inv(s) && WaitsFor(s, a, b) && Wants(s, a).value.PteLock?
    ensures Rank(s, b) < Rank(s, a)
  {
    AtWanted(s, a);
  }

  lemma PageWaitsGoDown(s: State, a: Holder, b: Holder)
    requires Inv(s) && WaitsFor(s, a, b) && Wants(s, a).value.PfnLock?
    ensures if a == Writer && b == Writer then SelfBlocked(s) else Rank(s, b) < Rank(s, a)
  {
    AtWanted(s, a);
    if b.User? { AtThread(s, b.t); }
  }

  /** A splice waits for list operations and for holders in passing, all of which run on. */
  lemma SpliceWaitsForPassing(s: State, a: Holder, b: Holder)
    requires Inv(s) && WaitsFor(s, a, b) && Wants(s, a).value.ListEnds?
    ensures a != b && Wants(s, b) == None && (a.Trimmer? || a.Writer?)
  {
    if b != Listing {
      var f :| OnListHeldBy(s, Wants(s, a).value.pl, f, b);
      assert FrameOk(s, f);
      PassingIsNotBlocked(s, f);
    }
  }

  /** What the invariant says about the lock a thread wants. */
  lemma AtWanted(s: State, a: Holder)
    requires Inv(s) && Wants(s, a).Some? && !Wants(s, a).value.ListEnds?
    ensures match Wants(s, a).value
            case PteLock(p) => p < |s.pte| && PteOk(s, p) && (s.pteLock[p].User? ==> ThreadOk(s, s.pteLock[p].t))
            case PfnLock(f) =>
              && f < |s.place| && FrameOk(s, f) && (s.pfnLock[f].User? ==> s.pfnLock[f].t < |s.thread|)
              && (a.Trimmer? ==> s.place[f] == Resident)
            case ListEnds(_) => true
  {
    match a
    case User(t) => AtThread(s, t); if Wants(s, a).value.PteLock? { AtPte(s, s.thread[t].p); }
    case Trimmer => AtPte(s, s.trim.cur.value);
    case Writer =>
  }

  /** A chain of waits. */
  ghost predicate WaitChain(s: State, c: seq<Holder>) {
    forall i :: 0 <= i < |c| - 1 ==> WaitsFor(s, c[i], c[i + 1])
  }

  lemma {:induction false} ChainGoesDown(s: State, c: seq<Holder>)
    requires Inv(s) && !SelfBlocked(s) && WaitChain(s, c) && 2 <= |c|
    ensures Rank(s, c[|c| - 1]) < Rank(s, c[0])
  {
    var n := |c| - 1;
    WaitsGoDown(s, c[n - 1], c[n]);
    if n > 1 {
      assert WaitChain(s, c[..n]);
      ChainGoesDown(s, c[..n]);
    }
  }

  /** Deadlock freedom: some threads wait for each other in a cycle exactly when the writer
      waits for itself. */
  lemma CycleIffSelfBlocked(s: State)
    requires Reachable(s)
    ensures (exists c :: 2 <= |c| && WaitChain(s, c) && c[0] == c[|c| - 1]) <==> SelfBlocked(s)
  {
    ReachableHasInv(s);
    if SelfBlocked(s) {
      AtWanted(s, Writer);
      var c := [Writer, Writer];
      assert WaitChain(s, c);
    } else {
      forall c | 2 <= |c| && WaitChain(s, c) ensures c[0] != c[|c| - 1] { ChainGoesDown(s, c); }
    }
  }

  // ---------- Progress ----------

  /** In the middle of an operation. */
  ghost predicate Busy(s: State, a: Holder) {
    match a
    case User(t) => t < |s.thread| && s.thread[t] != Idle
    case Trimmer => s.trim != Scanning(None) || exists f :: 0 <= f < |s.pfnLock| && s.pfnLock[f] == Trimmer
    case Writer => s.writer != Resting
    case _ => false
  }

  ghost predicate CanStep(s: State, a: Holder) {
    exists l :: Enabled(s, l) && Actor(l) == a
  }

  /** Whose next step is not to splice a list. */
  ghost predicate OnlyLocks(s: State, a: Holder) {
    Wants(s, a).Some? ==> !Wants(s, a).value.ListEnds?
  }

  lemma UserBlocked(s: State, t: nat)
    requires Inv(s) && Busy(s, User(t)) && !CanStep(s, User(t))
    ensures OnlyLocks(s, User(t)) && exists b :: WaitsFor(s, User(t), b)
  {
    AtThread(s, t);
    var l := match s.thread[t]
      case SoftWantsPte(_) => SoftLockPte(t)
      case SoftWantsPfn(_, _) => SoftLockPfn(t)
      case SoftLocked(_, _) => SoftRecheck(t)
      case SoftHeld(_, _) => SoftMap(t)
      case HardWantsPfn(_, _) => HardLockPfn(t)
      case HardLocked(_, _) => HardLockPte(t)
      case HardMapped(_, _, k) => if k < s.words then HardFill(t) else HardClear(t)
      case HardFilled(_, _) => HardFinish(t)
      case Repurposing(batch) => var f :| f in batch; RepurposeOne(t, f)
      case _ => SoftFinish(t);
    assert Actor(ByUser(l)) == User(t) && !Enabled(s, ByUser(l));
    HolderIsWaitedFor(s, User(t));
  }

  /** A lock that is not free has a holder to wait for. */
  lemma HolderIsWaitedFor(s: State, a: Holder)
    requires Wants(s, a).Some? && !Wants(s, a).value.ListEnds? && !HeldBy(s, Wants(s, a).value, Nobody)
    requires match Wants(s, a).value
             case PteLock(p) => p < |s.pteLock|
             case PfnLock(f) => f < |s.pfnLock|
             case ListEnds(_) => true
    ensures exists b :: WaitsFor(s, a, b)
  {
    var b := match Wants(s, a).value
      case PteLock(p) => s.pteLock[p]
      case PfnLock(f) => s.pfnLock[f]
      case ListEnds(_) => Nobody;
    assert WaitsFor(s, a, b);
  }

  lemma TrimmerBlocked(s: State)
    requires Inv(s) && Busy(s, Trimmer) && !CanStep(s, Trimmer)
    ensures OnlyLocks(s, Trimmer) && exists b :: WaitsFor(s, Trimmer, b)
  {
    if s.trim.Scanning? && s.trim.cur.Some? {
      AtPte(s, s.trim.cur.value);
      assert Actor(ByTrimmer(TrimLockPfn)) == Trimmer && !Enabled(s, ByTrimmer(TrimLockPfn));
      HolderIsWaitedFor(s, Trimmer);
    } else {
      TrimmerRuns(s);
    }
  }

  lemma TrimmerRuns(s: State)
    requires Inv(s) && !(s.trim.Scanning? && s.trim.cur.Some?)
    ensures CanStep(s, Trimmer)
  {
    var l := if s.trim.Scanning? then TrimUnmap else TrimEnd;
    if s.trim.Marking? {
      l := TrimSplice;
      if f: nat :| f < |s.place| && s.place[f].TrimBatch? && s.status[f] != Modified { l := TrimMark(f); }
    } else if s.trim.Releasing? {
      if f: nat :| f < |s.pfnLock| && s.pfnLock[f] == Trimmer { l := TrimUnlock(f); }
    }
    assert Enabled(s, ByTrimmer(l)) && Actor(ByTrimmer(l)) == Trimmer;
  }

  lemma WriterBlocked(s: State)
    requires Inv(s) && Busy(s, Writer) && !CanStep(s, Writer)
    ensures OnlyLocks(s, Writer) && exists b :: WaitsFor(s, Writer, b)
  {
    if s.writer.Copying? && s.writer.slot.Some? && s.writer.copied == s.words && !s.writer.locked {
      assert Actor(ByWriter(WriteLock)) == Writer && !Enabled(s, ByWriter(WriteLock));
      HolderIsWaitedFor(s, Writer);
    } else {
      WriterRuns(s);
    }
  }

  lemma WriterRuns(s: State)
    requires Inv(s) && Busy(s, Writer)
    requires !(s.writer.Copying? && s.writer.slot.Some? && s.writer.copied == s.words && !s.writer.locked)
    ensures CanStep(s, Writer)
  {
    var l := WriteEnd;
    match s.writer {
      case Gathering(_, gathered, _) =>
        l := WriteBegin;
        if f :| f in gathered { l := GatherMark(f); }
      case Copying(batch, next, slot, _, locked) =>
        if locked { l := WriteSettle; }
        else if slot.Some? { l := CopyWord; }
        else if next == |batch| { l := WriteSplice; }
        else {
          StashedSlot(s);
          var d: nat :| d < |s.owner| && s.owner[d].Stashed?;
          l := PopSlot(d);
        }
      case Publishing => if f: nat :| f < |s.pfnLock| && s.pfnLock[f] == Writer { l := WriteUnlock(f); }
      case Resting =>
    }
    assert Enabled(s, ByWriter(l)) && Actor(ByWriter(l)) == Writer;
  }

  lemma StashedSlot(s: State)
    requires Inv(s) && s.writer.Copying? && s.writer.slot == None && s.writer.next < |s.writer.batch|
    ensures exists d: nat :: d < |s.owner| && s.owner[d].Stashed?
  {
    assert multiset(s.owner)[Stashed] > 0;
    assert Stashed in s.owner;
  }

  /** Whoever is in the middle of an operation and cannot go on is waiting for somebody. */
  lemma BlockedWaits(s: State, a: Holder)
    requires Inv(s) && Busy(s, a) && !CanStep(s, a)
    ensures OnlyLocks(s, a) && exists b :: WaitsFor(s, a, b)
  {
    match a
    case User(t) => UserBlocked(s, t);
    case Trimmer => TrimmerBlocked(s);
    case Writer => WriterBlocked(s);
  }

  /** And whoever waits for a lock cannot go on. */
  lemma WaitingIsBlocked(s: State, a: Holder, b: Holder)
    requires Inv(s) && WaitsFor(s, a, b) && OnlyLocks(s, a)
    ensures Busy(s, a) && !CanStep(s, a)
  {
    forall l | Enabled(s, l) ensures Actor(l) != a { WaitingMakesNoStep(s, a, b, l); }
  }

  lemma WaitingMakesNoStep(s: State, a: Holder, b: Holder, l: Label)
    requires Inv(s) && WaitsFor(s, a, b) && OnlyLocks(s, a) && Enabled(s, l)
    ensures Actor(l) != a
  {
  }

  /** The holder of a lock somebody waits for is in the middle of an operation. */
  lemma HolderIsBusy(s: State, a: Holder, b: Holder)
    requires Inv(s) && WaitsFor(s, a, b) && OnlyLocks(s, a) && b != Listing
    ensures Busy(s, b)
  {
    AtWanted(s, a);
    if b.User? && b.t < |s.thread| { AtThread(s, b.t); }
  }

  /** Progress: as long as somebody is in the middle of an operation, somebody can go on, be it the holder of a
      list's neighbour, unless the writer waits for itself. */
  lemma {:induction false} SomebodyGoesOn(s: State, a: Holder)
    requires Inv(s) && !SelfBlocked(s) && Busy(s, a)
    ensures exists b :: (Busy(s, b) || b == Listing) && CanStep(s, b)
    decreases Rank(s, a)
  {
    if !CanStep(s, a) {
      BlockedWaits(s, a);
      var b :| WaitsFor(s, a, b);
      WaitsGoDown(s, a, b);
      if b == Listing { ListingCanStep(s, a); } else { HolderIsBusy(s, a, b); SomebodyGoesOn(s, b); }
    }
  }

  lemma ListingCanStep(s: State, a: Holder)
    requires Inv(s) && WaitsFor(s, a, Listing) && OnlyLocks(s, a)
    ensures CanStep(s, Listing)
  {
    AtWanted(s, a);
    var f := Wants(s, a).value.f;
    assert Enabled(s, OnList(Return(f))) && Actor(OnList(Return(f))) == Listing;
  }

  /** The writer waits for itself only if a page is in its batch twice. */
  lemma SelfBlockedMeansDuplicate(s: State)
    requires Reachable(s) && SelfBlocked(s)
    ensures exists i, j :: 0 <= i < j < |s.writer.batch| && s.writer.batch[i] == s.writer.batch[j]
  {
    ReachableHasInv(s);
    var f, next := s.writer.batch[s.writer.next], s.writer.next;
    assert FrameOk(s, f);
    assert f in s.writer.batch[..next];
    var i :| 0 <= i < next && s.writer.batch[..next][i] == f;
    assert s.writer.batch[i] == s.writer.batch[next];
  }

  /** A page the writer still has to lock is already on its temporary list. */
  ghost predicate Doomed(s: State) {
    && s.writer.Copying?
    && exists j :: s.writer.next <= j < |s.writer.batch|
         && s.writer.batch[j] < |s.place| && s.place[s.writer.batch[j]] == Written
  }

  /** Which duplicates do harm: a round is doomed by the commit of a page that is in the rest of the batch. */
  lemma CommitDooms(s: State)
    requires Inv(s) && WriteSettleEnabled(s)
    ensures s.writer.next < |s.writer.batch|
    ensures Doomed(WriteSettleStep(s)) <==>
              Doomed(s) || (StillMidWrite(s) && s.writer.batch[s.writer.next] in s.writer.batch[s.writer.next + 1..])
  {
    var b, n := s.writer.batch, s.writer.next;
    var r := WriteSettleStep(s);
    assert FrameOk(s, b[n]);
    if Doomed(s) {
      var j :| n <= j < |b| && b[j] < |s.place| && s.place[b[j]] == Written;
      assert r.place[r.writer.batch[j]] == Written;
    }
    if StillMidWrite(s) && b[n] in b[n + 1..] {
      var k :| 0 <= k < |b[n + 1..]| && b[n + 1..][k] == b[n];
      assert b[n + 1 + k] == b[n] && r.place[r.writer.batch[n + 1 + k]] == Written;
    }
    if Doomed(r) {
      var j :| n + 1 <= j < |b| && b[j] < |r.place| && r.place[b[j]] == Written;
      assert b[j] == b[n + 1..][j - n - 1];
    }
  }

  /** A page on the temporary list stays there until the writer splices it, so a doomed round never ends:
      the writer stays in it, and comes to wait for itself if it gets as far as the page. */
  lemma {:induction false} DoomedForever(s: State, ls: seq<Label>)
    requires Inv(s) && Doomed(s) && IsRun(s, ls)
    ensures Doomed(Final(s, ls)) && Final(s, ls).writer.batch == s.writer.batch
    decreases |ls|
  {
    if ls != [] {
      DoomedStep(s, ls[0]);
      StepKeepsInv(s, ls[0]);
      DoomedForever(Apply(s, ls[0]), ls[1..]);
    }
  }

  lemma DoomedStep(s: State, l: Label)
    requires Inv(s) && Doomed(s) && Enabled(s, l)
    ensures Doomed(Apply(s, l)) && Apply(s, l).writer.batch == s.writer.batch
  {
    var j :| s.writer.next <= j < |s.writer.batch|
      && s.writer.batch[j] < |s.place| && s.place[s.writer.batch[j]] == Written;
    var f := s.writer.batch[j];
    match l
    case ByUser(u) => WrittenUserStep(s, u, f);
    case ByTrimmer(u) => WrittenTrimStep(s, u, f);
    case ByWriter(u) =>
      if u.WriteSettle? {
        CommitDooms(s);
      } else {
        assert u.PopSlot? || u.CopyWord? || u.WriteLock?;
      }
    case OnList(u) =>
  }

  /** The writer waiting for itself never runs again. */
  lemma {:induction false} SelfBlockedForever(s: State, ls: seq<Label>)
    requires Inv(s) && SelfBlocked(s) && IsRun(s, ls)
    ensures SelfBlocked(Final(s, ls)) && Final(s, ls).writer == s.writer
    decreases |ls|
  {
    if ls != [] {
      SelfBlockedStep(s, ls[0]);
      StepKeepsInv(s, ls[0]);
      SelfBlockedForever(Apply(s, ls[0]), ls[1..]);
    }
  }

  lemma SelfBlockedStep(s: State, l: Label)
    requires Inv(s) && SelfBlocked(s) && Enabled(s, l)
    ensures SelfBlocked(Apply(s, l)) && Apply(s, l).writer == s.writer
  {
    var f := s.writer.batch[s.writer.next];
    assert FrameOk(s, f);
    match l
    case ByUser(u) => WrittenUserStep(s, u, f);
    case ByTrimmer(u) => WrittenTrimStep(s, u, f);
    case ByWriter(u) =>
    case OnList(u) =>
  }

  /** No user thread takes a page from the writer's temporary list. */
  lemma WrittenUserStep(s: State, l: FaultLabel, f: nat)
    requires Inv(s) && UserEnabled(s, l) && f < |s.place| && s.place[f] == Written
    ensures var r := UserApply(s, l);
              f < |r.place| && r.place[f] == Written && r.writer == s.writer && r.words == s.words
  {
    if l.SoftRecheck? || l.SoftFinish? || l.HardPop? {
      WrittenIsNotTaken(s, l, f);
    } else if l.HardLockPte? || l.HardClear? || l.HardFinish? {
      WrittenIsNotGiven(s, l, f);
    } else if l.RepurposeOne? {
      AtThread(s, l.t);
    } else {
      WrittenIsLeft(s, l, f);
    }
  }

  lemma WrittenIsNotTaken(s: State, l: FaultLabel, f: nat)
    requires Inv(s) && UserEnabled(s, l) && f < |s.place| && s.place[f] == Written
    requires l.SoftRecheck? || l.SoftFinish? || l.HardPop?
    ensures var r := UserApply(s, l);
              f < |r.place| && r.place[f] == Written && r.writer == s.writer && r.words == s.words
  {
    assert FrameOk(s, f);
    AtThread(s, l.t);
  }

  lemma WrittenIsNotGiven(s: State, l: FaultLabel, f: nat)
    requires Inv(s) && UserEnabled(s, l) && f < |s.place| && s.place[f] == Written
    requires l.HardLockPte? || l.HardClear? || l.HardFinish?
    ensures var r := UserApply(s, l);
              f < |r.place| && r.place[f] == Written && r.writer == s.writer && r.words == s.words
  {
    if l.HardLockPte? {
      WrittenIsNotTried(s, l.t, f);
    } else {
      assert FrameOk(s, f);
      AtThread(s, l.t);
    }
  }

  lemma WrittenIsNotTried(s: State, t: nat, f: nat)
    requires Inv(s) && HardLockPteEnabled(s, t) && f < |s.place| && s.place[f] == Written
    ensures var r := HardLockPteStep(s, t);
              f < |r.place| && r.place[f] == Written && r.writer == s.writer && r.words == s.words
  {
    assert FrameOk(s, f);
    AtThread(s, t);
  }

  lemma WrittenIsLeft(s: State, l: FaultLabel, f: nat)
    requires Inv(s) && UserEnabled(s, l) && f < |s.place| && s.place[f] == Written
    requires !l.SoftRecheck? && !l.SoftFinish? && !l.HardPop? && !l.RepurposeOne?
    requires !l.HardLockPte? && !l.HardClear? && !l.HardFinish?
    ensures var r := UserApply(s, l);
              f < |r.place| && r.place[f] == Written && r.writer == s.writer && r.words == s.words
  {
    assert FrameOk(s, f);
  }

  lemma WrittenTrimStep(s: State, l: TrimLabel, f: nat)
    requires Inv(s) && TrimEnabled(s, l) && f < |s.place| && s.place[f] == Written
    ensures var r := TrimApply(s, l);
              f < |r.place| && r.place[f] == Written && r.writer == s.writer && r.words == s.words
  {
    assert FrameOk(s, f);
    if l.TrimLockPfn? { AtPte(s, s.trim.cur.value); }
  }
}
