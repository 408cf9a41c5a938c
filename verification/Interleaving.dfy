/** Executions of one thread among the others, as runs of the protocol. */
module Interleaving {
  import opened Types
  import opened VmState
  import opened Steps
  import opened Preservation
  import opened Runs
  import opened Vm

  /** Who makes a step. A store can be made by any thread. */
  function Actor(l: Label): Holder {
    match l
    case ByUser(UserWrite(_, _, _)) => Nobody
    case ByUser(SoftStart(t, _)) => User(t)
    case ByUser(HardPop(t, _, _)) => User(t)
    case ByUser(Refill(t, _)) => User(t)
    case ByUser(RepurposeTake(t, _)) => User(t)
    case ByUser(RepurposeOne(t, _)) => User(t)
    case ByUser(u) => User(u.t)
    case ByTrimmer(_) => Trimmer
    case ByWriter(_) => Writer
    case OnList(_) => Listing
  }

  /** Some run leads from s to r. */
  ghost predicate Leads(s: State, r: State) {
    Inv(s) && exists ls :: IsRun(s, ls) && Final(s, ls) == r
  }

  /** The states seen by a thread on its way from s. */
  ghost predicate AllLed(s: State, seen: seq<State>) {
    forall k :: 0 <= k < |seen| ==> Leads(s, seen[k])
  }

  /** States on the way from s in which the frame's lock was held. */
  ghost predicate AllHeld(s: State, held: seq<State>, f: nat) {
    AllLed(s, held) && forall k :: 0 <= k < |held| ==> f < |held[k].pfnLock| && held[k].pfnLock[f] != Nobody
  }

  lemma HeldMore(s: State, held: seq<State>, f: nat, at: State)
    requires AllHeld(s, held, f) && Leads(s, at) && f < |at.pfnLock| && at.pfnLock[f] != Nobody
    ensures AllHeld(s, held + [at], f)
  {
  }

  lemma LedMore(s: State, seen: seq<State>, at: State)
    requires AllLed(s, seen) && Leads(s, at)
    ensures AllLed(s, seen + [at])
  {
  }

  /** Some run without steps of a leads from s to r. */
  ghost predicate LeadsWithout(a: Holder, s: State, r: State) {
    Inv(s) && exists ls :: IsRun(s, ls) && Final(s, ls) == r && NotBy(a, ls)
  }

  ghost predicate NotBy(a: Holder, ls: seq<Label>) {
    forall i :: 0 <= i < |ls| ==> Actor(ls[i]) != a
  }

  lemma NoSteps(a: Holder, s: State)
    requires Inv(s)
    ensures Leads(s, s) && LeadsWithout(a, s, s)
  {
    assert IsRun(s, []) && Final(s, []) == s && NotBy(a, []);
  }

  lemma {:induction false} RunsJoin(s: State, ls: seq<Label>, more: seq<Label>)
    requires Inv(s) && IsRun(s, ls) && IsRun(Final(s, ls), more)
    ensures IsRun(s, ls + more) && Final(s, ls + more) == Final(Final(s, ls), more)
    decreases |ls|
  {
    if ls == [] {
      assert ls + more == more;
    } else {
      StepKeepsInv(s, ls[0]);
      assert (ls + more)[0] == ls[0] && (ls + more)[1..] == ls[1..] + more;
      RunsJoin(Apply(s, ls[0]), ls[1..], more);
    }
  }

  lemma LeadsOn(s: State, r: State, q: State)
    requires Leads(s, r) && Leads(r, q)
    ensures Leads(s, q)
  {
    var ls :| IsRun(s, ls) && Final(s, ls) == r;
    var more :| IsRun(r, more) && Final(r, more) == q;
    RunsJoin(s, ls, more);
  }

  /** What was proved of reachable states holds after every execution. */
  lemma ReachableOn(s: State, r: State)
    requires Reachable(s) && Leads(s, r)
    ensures Reachable(r)
  {
    var s0, ls :| Init(s0) && Inv(s0) && IsRun(s0, ls) && Final(s0, ls) == s;
    LeadsOn(s0, s, r);
    LedFromStart(s0, r);
  }

  lemma LedFromStart(s0: State, r: State)
    requires Init(s0) && Leads(s0, r)
    ensures Reachable(r)
  {
    var ls :| IsRun(s0, ls) && Final(s0, ls) == r;
  }

  lemma OneStep(s: State, l: Label)
    requires Inv(s) && Enabled(s, l)
    ensures Inv(Apply(s, l)) && Leads(s, Apply(s, l))
  {
    StepKeepsInv(s, l);
    assert [l][1..] == [];
    assert IsRun(Apply(s, l), []) && Final(Apply(s, l), []) == Apply(s, l);
    assert IsRun(s, [l]) && Final(s, [l]) == Apply(s, l);
  }

  /** A thread's program point and private data are the same in both states, and the frames it holds. */
  ghost predicate Kept(a: Holder, s: State, r: State) {
    && SameSize(s, r)
    && match a
       case User(t) => t < |s.thread| ==> r.thread[t] == s.thread[t] && r.cache[t] == s.cache[t]
       case Trimmer =>
         && r.trim == s.trim
         && (forall p :: 0 <= p < |s.pte| && s.pte[p].Valid? ==> r.pte[p] == s.pte[p])
         && forall f :: 0 <= f < |s.place| ==> TrimFrameKept(s, r, f)
       case Writer =>
         && r.writer == s.writer && r.stashed == s.stashed
         && forall f :: 0 <= f < |s.place| ==> WriteFrameKept(s, r, f)
       case Nobody => true
       case Listing => true
  }

  ghost predicate SameSize(s: State, r: State) {
    && Shape(s) && Shape(r) && r.words == s.words
    && |r.pte| == |s.pte| && |r.place| == |s.place| && |r.owner| == |s.owner| && |r.thread| == |s.thread|
  }

  lemma UserStepKeepsSize(s: State, l: FaultLabel)
    requires Inv(s) && UserEnabled(s, l)
    ensures SameSize(s, UserApply(s, l))
  {
    UserKeepsInv(s, l);
  }

  lemma UserStepKeepsThread(s: State, l: FaultLabel, t: nat)
    requires Inv(s) && UserEnabled(s, l) && Actor(ByUser(l)) != User(t) && t < |s.thread|
    ensures SameSize(s, UserApply(s, l)) && UserApply(s, l).thread[t] == s.thread[t]
    ensures UserApply(s, l).cache[t] == s.cache[t]
  {
    UserStepKeepsSize(s, l);
  }

  /** Whether the trimmer holds a frame's lock, and whether the frame is being trimmed. */
  ghost predicate TrimFrameKept(s: State, r: State, f: nat)
    requires SameSize(s, r) && f < |s.place|
  {
    && (r.pfnLock[f] == Trimmer <==> s.pfnLock[f] == Trimmer)
    && (r.place[f].TrimBatch? <==> s.place[f].TrimBatch?)
    && (s.place[f].TrimBatch? ==> r.status[f] == s.status[f])
  }

  /** Whether the writer holds a frame's lock. */
  ghost predicate WriteFrameKept(s: State, r: State, f: nat)
    requires SameSize(s, r) && f < |s.place|
  {
    r.pfnLock[f] == Writer <==> s.pfnLock[f] == Writer
  }

  predicate HandlesFrame(l: FaultLabel) {
    TakesFrame(l) || l.HardLockPte? || l.HardClear? || l.HardFinish? || l.RepurposeOne?
  }

  predicate TakesFrame(l: FaultLabel) {
    l.SoftLockPfn? || l.SoftRecheck? || l.SoftFinish? || l.HardPop?
  }

  lemma QuietStepKeepsFrame(s: State, l: FaultLabel, f: nat)
    requires Inv(s) && UserEnabled(s, l) && SameSize(s, UserApply(s, l)) && f < |s.place| && !HandlesFrame(l)
    ensures TrimFrameKept(s, UserApply(s, l), f) && WriteFrameKept(s, UserApply(s, l), f)
  {
    assert FrameOk(s, f);
  }

  lemma TakeKeepsFrame(s: State, l: FaultLabel, f: nat)
    requires Inv(s) && UserEnabled(s, l) && SameSize(s, UserApply(s, l)) && f < |s.place| && TakesFrame(l)
    ensures TrimFrameKept(s, UserApply(s, l), f) && WriteFrameKept(s, UserApply(s, l), f)
  {
    assert FrameOk(s, f);
    AtThread(s, l.t);
  }

  lemma TryKeepsFrame(s: State, t: nat, f: nat)
    requires Inv(s) && HardLockPteEnabled(s, t) && SameSize(s, HardLockPteStep(s, t)) && f < |s.place|
    ensures TrimFrameKept(s, HardLockPteStep(s, t), f) && WriteFrameKept(s, HardLockPteStep(s, t), f)
  {
    assert FrameOk(s, f);
    AtThread(s, t);
  }

  lemma ClearKeepsFrame(s: State, t: nat, f: nat)
    requires Inv(s) && HardClearEnabled(s, t) && SameSize(s, HardClearStep(s, t)) && f < |s.place|
    ensures TrimFrameKept(s, HardClearStep(s, t), f) && WriteFrameKept(s, HardClearStep(s, t), f)
  {
    AtThread(s, t);
  }

  lemma FinishKeepsFrame(s: State, t: nat, f: nat)
    requires Inv(s) && HardFinishEnabled(s, t) && SameSize(s, HardFinishStep(s, t)) && f < |s.place|
    ensures TrimFrameKept(s, HardFinishStep(s, t), f) && WriteFrameKept(s, HardFinishStep(s, t), f)
  {
    assert FrameOk(s, f);
    AtThread(s, t);
  }

  lemma RepurposeKeepsFrame(s: State, t: nat, g: nat, f: nat)
    requires Inv(s) && RepurposeOneEnabled(s, t, g) && SameSize(s, RepurposeOneStep(s, t, g)) && f < |s.place|
    ensures TrimFrameKept(s, RepurposeOneStep(s, t, g), f) && WriteFrameKept(s, RepurposeOneStep(s, t, g), f)
  {
    assert FrameOk(s, f);
    AtThread(s, t);
  }

  lemma GiveKeepsFrame(s: State, l: FaultLabel, f: nat)
    requires Inv(s) && UserEnabled(s, l) && SameSize(s, UserApply(s, l)) && f < |s.place| && HandlesFrame(l)
    requires !TakesFrame(l)
    ensures TrimFrameKept(s, UserApply(s, l), f) && WriteFrameKept(s, UserApply(s, l), f)
  {
    match l
    case HardLockPte(t) => TryKeepsFrame(s, t, f);
    case HardClear(t) => ClearKeepsFrame(s, t, f);
    case HardFinish(t) => FinishKeepsFrame(s, t, f);
    case RepurposeOne(t, g) => RepurposeKeepsFrame(s, t, g, f);
  }

  /** Only the trimmer makes a valid entry invalid. */
  lemma UserStepKeepsValid(s: State, l: FaultLabel, p: nat)
    requires Inv(s) && UserEnabled(s, l) && SameSize(s, UserApply(s, l)) && p < |s.pte| && s.pte[p].Valid?
    ensures UserApply(s, l).pte[p] == s.pte[p]
  {
    AtPte(s, p);
    if l.SoftFinish? || l.HardFinish? || l.RepurposeOne? { AtThread(s, l.t); }
    if l.RepurposeOne? { assert FrameOk(s, l.f); }
  }

  lemma UserStepKeeps(a: Holder, s: State, l: FaultLabel)
    requires Inv(s) && UserEnabled(s, l) && Actor(ByUser(l)) != a
    ensures Kept(a, s, UserApply(s, l))
  {
    UserStepKeepsSize(s, l);
    if a.User? {
      if a.t < |s.thread| { UserStepKeepsThread(s, l, a.t); }
    } else {
      assert UserApply(s, l).trim == s.trim && UserApply(s, l).writer == s.writer
          && UserApply(s, l).stashed == s.stashed;
      var r := UserApply(s, l);
      forall p | 0 <= p < |s.pte| && s.pte[p].Valid? ensures r.pte[p] == s.pte[p] { UserStepKeepsValid(s, l, p); }
      forall f | 0 <= f < |s.place| ensures TrimFrameKept(s, r, f) && WriteFrameKept(s, r, f) {
        if TakesFrame(l) { TakeKeepsFrame(s, l, f); }
        else if HandlesFrame(l) { GiveKeepsFrame(s, l, f); }
        else { QuietStepKeepsFrame(s, l, f); }
      }
    }
  }

  lemma TrimStepKeeps(a: Holder, s: State, l: TrimLabel)
    requires Inv(s) && TrimEnabled(s, l) && a != Trimmer
    ensures Kept(a, s, TrimApply(s, l))
  {
    TrimKeepsInv(s, l);
  }

  lemma WriteStepKeepsFrame(s: State, l: WriteLabel, f: nat)
    requires Inv(s) && WriteEnabled(s, l) && SameSize(s, WriteApply(s, l)) && f < |s.place|
    ensures TrimFrameKept(s, WriteApply(s, l), f)
  {
    assert FrameOk(s, f);
  }

  lemma WriteStepKeepsSize(s: State, l: WriteLabel)
    requires Inv(s) && WriteEnabled(s, l)
    ensures SameSize(s, WriteApply(s, l)) && WriteApply(s, l).trim == s.trim
    ensures WriteApply(s, l).thread == s.thread && WriteApply(s, l).cache == s.cache && WriteApply(s, l).pte == s.pte
  {
    WriteKeepsInv(s, l);
  }

  lemma WriteStepKeeps(a: Holder, s: State, l: WriteLabel)
    requires Inv(s) && WriteEnabled(s, l) && a != Writer
    ensures Kept(a, s, WriteApply(s, l))
  {
    WriteStepKeepsSize(s, l);
    if a.Trimmer? {
      forall f | 0 <= f < |s.place| ensures TrimFrameKept(s, WriteApply(s, l), f) { WriteStepKeepsFrame(s, l, f); }
    }
  }

  lemma ListStepKeeps(a: Holder, s: State, l: ListLabel)
    requires Inv(s) && ListEnabled(s, l)
    ensures Kept(a, s, ListApply(s, l))
  {
    ListKeepsInv(s, l);
  }

  lemma KeptOn(a: Holder, s: State, r: State, q: State)
    requires Kept(a, s, r) && Kept(a, r, q)
    ensures Kept(a, s, q)
  {
    forall f | 0 <= f < |s.place| && a.Trimmer? ensures TrimFrameKept(s, q, f) {
      assert TrimFrameKept(s, r, f) && TrimFrameKept(r, q, f);
    }
    forall f | 0 <= f < |s.place| && a.Writer? ensures WriteFrameKept(s, q, f) {
      assert WriteFrameKept(s, r, f) && WriteFrameKept(r, q, f);
    }
  }

  lemma StepKeeps(a: Holder, s: State, l: Label)
    requires Inv(s) && Enabled(s, l) && Actor(l) != a
    ensures Kept(a, s, Apply(s, l))
  {
    match l
    case ByUser(u) => UserStepKeeps(a, s, u);
    case ByTrimmer(u) => TrimStepKeeps(a, s, u);
    case ByWriter(u) => WriteStepKeeps(a, s, u);
    case OnList(u) => ListStepKeeps(a, s, u);
  }

  /** The other threads leave a thread's own state and the frames it holds alone. */
  lemma {:induction false} OthersKeep(a: Holder, s: State, ls: seq<Label>)
    requires Inv(s) && IsRun(s, ls) && NotBy(a, ls)
    ensures Kept(a, s, Final(s, ls))
    decreases |ls|
  {
    if ls != [] {
      StepKeeps(a, s, ls[0]);
      StepKeepsInv(s, ls[0]);
      assert NotBy(a, ls[1..]);
      OthersKeep(a, Apply(s, ls[0]), ls[1..]);
      KeptOn(a, s, Apply(s, ls[0]), Final(s, ls));
    }
  }

  /** The other threads run for a while. */
  method OthersRun(vm: Vm, ghost a: Holder)
    requires vm.Valid()
    modifies vm.Repr()
    ensures vm.Valid() && LeadsWithout(a, old(vm.Abs()), vm.Abs())
  {
    // Nothing is done here; what callers may rely on is the contract.
    NoSteps(a, vm.Abs());
  }

  lemma WithoutKeeps(a: Holder, s: State, r: State)
    requires LeadsWithout(a, s, r)
    ensures Leads(s, r) && Kept(a, s, r)
  {
    var ls :| IsRun(s, ls) && Final(s, ls) == r && NotBy(a, ls);
    OthersKeep(a, s, ls);
  }

  /** The other threads run for a while, in the middle of an execution that started in s. */
  method Pause(vm: Vm, ghost a: Holder, ghost s: State)
    requires vm.Valid() && Leads(s, vm.Abs())
    modifies vm.Repr()
    ensures vm.Valid() && Leads(s, vm.Abs()) && Kept(a, old(vm.Abs()), vm.Abs())
  {
    ghost var r := vm.Abs();
    OthersRun(vm, a);
    WithoutKeeps(a, r, vm.Abs());
    LeadsOn(s, r, vm.Abs());
  }

  /** A worker thread holds exactly the pages of the batch from the i-th on, each once. */
  ghost predicate Holds(a: Holder, s: State, batch: seq<nat>, i: nat)
    requires i <= |batch|
  {
    && (forall j, k :: 0 <= j < k < |batch| ==> batch[j] != batch[k])
    && (forall f :: 0 <= f < |s.pfnLock| ==> (s.pfnLock[f] == a <==> f in batch[i..]))
    && (forall f :: f in batch ==> f < |s.pfnLock|)
  }

  lemma HoldsKept(a: Holder, s: State, r: State, batch: seq<nat>, i: nat)
    requires Kept(a, s, r) && (a.Trimmer? || a.Writer?) && i <= |batch| && Holds(a, s, batch, i)
    ensures Holds(a, r, batch, i)
  {
    forall f | 0 <= f < |s.place| ensures r.pfnLock[f] == a <==> f in batch[i..] {
      assert a.Trimmer? ==> TrimFrameKept(s, r, f);
      assert a.Writer? ==> WriteFrameKept(s, r, f);
    }
  }

  /** One page of a batch is unlocked. */
  lemma HoldsOneLess(a: Holder, s: State, r: State, batch: seq<nat>, i: nat)
    requires a != Nobody && i < |batch| && Holds(a, s, batch, i)
    requires batch[i] < |s.pfnLock| && r.pfnLock == s.pfnLock[batch[i] := Nobody]
    ensures Holds(a, r, batch, i + 1)
  {
    assert batch[i..] == [batch[i]] + batch[i + 1..];
  }
}
