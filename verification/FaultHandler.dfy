/** The page fault handler of a user thread, running among the other threads.
    A method for a lock-protected region equates the new state with one step of the protocol. The
    methods that put regions together let the other threads run in between, and keep the fact
    that some run has led here from the state s they started in. */
module FaultHandler {
  import opened Types
  import opened VmState
  import opened Steps
  import opened Preservation
  import opened Runs
  import opened Vm
  import opened Interleaving

  datatype Outcome =
    | Resolved
    | TryAgain
    | NoPage         // no page was found; the code then waits for the writer
    | StillWaiting   // a lock was not free within the given number of spins

  // ---------- Soft faults ----------

  /** resolve_soft_fault, lines 39 to 49: the entry is locked and read. */
  method TakeEntry(vm: Vm, t: nat, p: nat) returns (frame: Option<nat>)
    requires vm.Valid() && t < vm.thread.Length && vm.thread[t] == SoftWantsPte(p)
    requires p < vm.pteLock.Length && vm.pteLock[p] == Nobody
    modifies vm.Repr()
    ensures vm.Valid() && vm.Abs() == SoftLockPteStep(old(vm.Abs()), t)
    ensures Leads(old(vm.Abs()), vm.Abs())
    ensures frame == if vm.pte[p].Transition? then Some(vm.pte[p].frame) else None
    ensures vm.thread[t] == if frame.Some? then SoftWantsPfn(p, frame.value) else Idle
  {
    OneStep(vm.Abs(), ByUser(SoftLockPte(t)));
    frame := ReadEntry(vm, t, p);
  }

  method ReadEntry(vm: Vm, t: nat, p: nat) returns (frame: Option<nat>)
    requires vm.Valid() && t < vm.thread.Length && vm.thread[t] == SoftWantsPte(p)
    requires p < vm.pteLock.Length && vm.pteLock[p] == Nobody
    modifies vm.Repr()
    ensures vm.Abs() == SoftLockPteStep(old(vm.Abs()), t)
    ensures frame == if vm.pte[p].Transition? then Some(vm.pte[p].frame) else None
    ensures vm.thread[t] == if frame.Some? then SoftWantsPfn(p, frame.value) else Idle
  {
    vm.SetPteLock(p, User(t));
    if vm.pte[p].Transition? {
      frame := Some(vm.pte[p].frame);
      vm.SetThread(t, SoftWantsPfn(p, vm.pte[p].frame));
    } else {
      vm.SetPteLock(p, Nobody);
      frame := None;
      vm.SetThread(t, Idle);
    }
  }

  /** Line 60: the page's lock is taken. Whose page it is now is not known yet. */
  method LockPage(vm: Vm, t: nat, p: nat, f: nat)
    requires vm.Valid() && t < vm.thread.Length && vm.thread[t] == SoftWantsPfn(p, f)
    requires f < vm.pfnLock.Length && vm.pfnLock[f] == Nobody
    modifies vm.Repr()
    ensures vm.Valid() && Leads(old(vm.Abs()), vm.Abs()) && vm.Abs() == SoftLockPfnStep(old(vm.Abs()), t)
  {
    OneStep(vm.Abs(), ByUser(SoftLockPfn(t)));
    vm.SetPfnLock(f, User(t));
    vm.SetThread(t, SoftLocked(p, f));
  }

  /** Lines 69 to 74: the page was given away while the thread waited, and both locks are released. */
  method GiveUpPage(vm: Vm, t: nat, p: nat, f: nat)
    requires vm.Valid() && t < vm.thread.Length && vm.thread[t] == SoftLocked(p, f) && LostPage(vm.Abs(), t)
    modifies vm.Repr()
    ensures vm.Abs() == SoftYieldStep(old(vm.Abs()), t)
  {
    AtThread(vm.Abs(), t);
    vm.SetPfnLock(f, Nobody);
    vm.SetPteLock(p, Nobody);
    vm.SetThread(t, Idle);
  }

  /** Lines 93 to 129: the page is taken off its list, if it is on one; a standby page gives up its slot. */
  method TakeOffList(vm: Vm, t: nat, p: nat, f: nat)
    requires vm.Valid() && t < vm.thread.Length && vm.thread[t] == SoftLocked(p, f) && !LostPage(vm.Abs(), t)
    modifies vm.Repr()
    ensures vm.Abs() == SoftRescueStep(old(vm.Abs()), t)
  {
    RescueInBounds(vm.Abs(), t);
    if vm.status[f].Standby? {
      vm.ClearDiskSlot(vm.status[f].slot);
    }
    vm.SetPlace(f, Rescued(t));
    vm.SetThread(t, SoftHeld(p, f));
  }

  lemma RescueInBounds(s: State, t: nat)
    requires Inv(s) && SoftRecheckEnabled(s, t) && !LostPage(s, t)
    ensures var f := s.thread[t].f;
            && f < |s.status| && f < |s.place|
            && (s.status[f].Standby? ==> s.status[f].slot < |s.bit| && s.status[f].slot < |s.owner|)
  {
    AtThread(s, t);
  }

  lemma OwnOrLost(s: State, t: nat)
    requires Inv(s) && SoftRecheckEnabled(s, t)
    ensures var p, f := s.thread[t].p, s.thread[t].f;
            p < |s.pte| && f < |s.pfnLock| && (LostPage(s, t) <==> s.pte[p] != Types.Transition(f))
  {
    AtThread(s, t);
  }

  /** Lines 66 to 129: with the page locked the entry is read again. */
  method Recheck(vm: Vm, t: nat, p: nat, f: nat) returns (ours: bool)
    requires vm.Valid() && t < vm.thread.Length && vm.thread[t] == SoftLocked(p, f)
    modifies vm.Repr()
    ensures vm.Valid() && Leads(old(vm.Abs()), vm.Abs()) && vm.Abs() == SoftRecheckStep(old(vm.Abs()), t)
    ensures vm.thread[t] == if ours then SoftHeld(p, f) else Idle
    ensures p < vm.pte.Length && (ours <==> old(vm.pte[p]) == Types.Transition(f))
  {
    ghost var s := vm.Abs();
    OwnOrLost(s, t);
    OneStep(s, ByUser(SoftRecheck(t)));
    ours := !vm.pte[p].OnDisk?;
    if ours {
      TakeOffList(vm, t, p, f);
    } else {
      GiveUpPage(vm, t, p, f);
    }
  }

  /** Lines 133 to 139. */
  method MapRescued(vm: Vm, t: nat, p: nat, f: nat)
    requires vm.Valid() && t < vm.thread.Length && vm.thread[t] == SoftHeld(p, f)
    modifies vm.Repr()
    ensures vm.Valid() && vm.Abs() == SoftMapStep(old(vm.Abs()), t) && Leads(old(vm.Abs()), vm.Abs())
  {
    AtThread(vm.Abs(), t);
    OneStep(vm.Abs(), ByUser(SoftMap(t)));
    vm.SetMapping(p, Some(vm.pte[p].frame));
    vm.SetThread(t, SoftMapped(p, f));
  }

  method FinishSoftFault(vm: Vm, t: nat, p: nat, f: nat)
    requires vm.Valid() && t < vm.thread.Length && vm.thread[t] == SoftMapped(p, f)
    modifies vm.Repr()
    ensures vm.Valid() && vm.Abs() == SoftFinishStep(old(vm.Abs()), t) && Leads(old(vm.Abs()), vm.Abs())
  {
    AtThread(vm.Abs(), t);
    OneStep(vm.Abs(), ByUser(SoftFinish(t)));
    MakeResidentInPlace(vm, t, p, f);
  }

  /** set_PFN_active, set_PTE_to_valid and the two unlocks. */
  method MakeResidentInPlace(vm: Vm, t: nat, p: nat, f: nat)
    requires vm.Apart() && p < vm.pte.Length && p < vm.pteLock.Length && t < vm.thread.Length
    requires f < vm.status.Length && f < vm.back.Length && f < vm.pfnLock.Length && f < vm.place.Length
    modifies vm.pte, vm.pteLock, vm.status, vm.back, vm.pfnLock, vm.place, vm.thread
    ensures vm.Abs() == MakeResident(old(vm.Abs()), t, p, f)
  {
    vm.SetPfnActive(f, p);
    vm.SetPte(p, Types.Valid(f));
    vm.SetPfnLock(f, Nobody);
    vm.SetPteLock(p, Nobody);
    vm.SetPlace(f, Resident);
    vm.SetThread(t, Idle);
  }

  ghost predicate AllEntryHeld(s: State, held: seq<State>, p: nat) {
    AllLed(s, held) && forall k :: 0 <= k < |held| ==> p < |held[k].pteLock| && held[k].pteLock[p] != Nobody
  }

  /** The thread waits for the entry's lock, for a bounded time, and gives up only after so many looks. */
  method AwaitEntry(vm: Vm, t: nat, p: nat, spins: nat, ghost s: State) returns (free: bool, ghost held: seq<State>)
    requires vm.Valid() && t < vm.thread.Length && p < vm.pteLock.Length && Leads(s, vm.Abs())
    modifies vm.Repr()
    ensures vm.Valid() && Leads(s, vm.Abs()) && vm.thread[t] == old(vm.thread[t])
    ensures free <==> vm.pteLock[p] == Nobody
    ensures !free ==> |held| == spins && AllEntryHeld(s, held, p)
  {
    var i := 0;
    held := [];
    while i < spins && vm.pteLock[p] != Nobody
      invariant vm.Valid() && Leads(s, vm.Abs()) && vm.thread[t] == old(vm.thread[t])
      invariant i == |held| <= spins && AllEntryHeld(s, held, p)
    {
      held := held + [vm.Abs()];
      Pause(vm, User(t), s);
      i := i + 1;
    }
    free := vm.pteLock[p] == Nobody;
  }

  /** The thread waits for the lock of a page, for a bounded time. */
  method AwaitPage(vm: Vm, t: nat, f: nat, spins: nat, ghost s: State) returns (free: bool, ghost held: seq<State>)
    requires vm.Valid() && t < vm.thread.Length && f < vm.pfnLock.Length && Leads(s, vm.Abs())
    modifies vm.Repr()
    ensures vm.Valid() && Leads(s, vm.Abs()) && vm.thread[t] == old(vm.thread[t])
    ensures free <==> vm.pfnLock[f] == Nobody
    ensures !free ==> |held| == spins && AllHeld(s, held, f)
  {
    var i := 0;
    held := [];
    while i < spins && vm.pfnLock[f] != Nobody
      invariant vm.Valid() && Leads(s, vm.Abs()) && vm.thread[t] == old(vm.thread[t])
      invariant i == |held| <= spins && AllHeld(s, held, f)
    {
      held := held + [vm.Abs()];
      Pause(vm, User(t), s);
      i := i + 1;
    }
    free := vm.pfnLock[f] == Nobody;
  }

  /** What a soft fault's outcome says of the state it ends in. */
  ghost predicate SoftOutcome(s: State, t: nat, p: nat, outcome: Outcome) {
    && t < |s.thread| && p < |s.pte| && p < |s.mapped| && p < |s.pteLock|
    && match outcome
       case Resolved => s.thread[t] == Idle && s.pte[p].Valid? && s.mapped[p] == Some(s.pte[p].frame)
       case TryAgain => s.thread[t] == Idle && !s.pte[p].Transition?
       case NoPage => false
       case StillWaiting =>
         || (s.thread[t] == SoftWantsPte(p) && s.pteLock[p] != Nobody)
         || (s.thread[t].SoftWantsPfn? && s.thread[t].p == p && s.thread[t].f < |s.pfnLock|
             && s.pfnLock[s.thread[t].f] != Nobody)
  }

  /** resolve_soft_fault, among the other threads: an execution is a run of the protocol. */
  method ResolveSoftFault(vm: Vm, t: nat, p: nat, spins: nat) returns (outcome: Outcome)
    requires vm.Valid() && t < vm.thread.Length && p < vm.pte.Length && vm.thread[t] == Idle
    modifies vm.Repr()
    ensures vm.Valid() && Leads(old(vm.Abs()), vm.Abs()) && SoftOutcome(vm.Abs(), t, p, outcome)
  {
    ghost var s := vm.Abs();
    GoForEntry(vm, t, p);
    var free;
    ghost var held;
    free, held := AwaitEntry(vm, t, p, spins, s);
    outcome := StillWaiting;
    if free {
      outcome := LockAndRescue(vm, t, p, spins, s);
    }
  }

  /** The part of resolve_soft_fault after the entry's lock was found free. */
  method LockAndRescue(vm: Vm, t: nat, p: nat, spins: nat, ghost s: State) returns (outcome: Outcome)
    requires vm.Valid() && t < vm.thread.Length && vm.thread[t] == SoftWantsPte(p) && Leads(s, vm.Abs())
    requires p < vm.pteLock.Length && vm.pteLock[p] == Nobody
    modifies vm.Repr()
    ensures vm.Valid() && Leads(s, vm.Abs()) && SoftOutcome(vm.Abs(), t, p, outcome)
  {
    ghost var r := vm.Abs();
    var frame := TakeEntry(vm, t, p);
    LeadsOn(s, r, vm.Abs());
    outcome := TryAgain;
    if frame.Some? {
      outcome := RescuePage(vm, t, p, frame.value, spins, s);
    }
  }

  method GoForEntry(vm: Vm, t: nat, p: nat)
    requires vm.Valid() && t < vm.thread.Length && p < vm.pte.Length && vm.thread[t] == Idle
    modifies vm.Repr()
    ensures vm.Valid() && Leads(old(vm.Abs()), vm.Abs()) && vm.thread[t] == SoftWantsPte(p) && p < vm.pteLock.Length
  {
    ghost var s := vm.Abs();
    NoSteps(User(t), s);
    Pause(vm, User(t), s);
    ghost var r := vm.Abs();
    OneStep(r, ByUser(SoftStart(t, p)));
    vm.SetThread(t, SoftWantsPte(p));
    LeadsOn(s, r, vm.Abs());
  }

  /** The part of resolve_soft_fault after the entry is locked. */
  method RescuePage(vm: Vm, t: nat, p: nat, f: nat, spins: nat, ghost s: State) returns (outcome: Outcome)
    requires vm.Valid() && t < vm.thread.Length && vm.thread[t] == SoftWantsPfn(p, f) && Leads(s, vm.Abs())
    modifies vm.Repr()
    ensures vm.Valid() && Leads(s, vm.Abs()) && SoftOutcome(vm.Abs(), t, p, outcome)
  {
    AtThread(vm.Abs(), t);
    var free;
    ghost var held;
    free, held := AwaitPage(vm, t, f, spins, s);
    if free {
      outcome := TakeAndFinish(vm, t, p, f, s);
    } else {
      outcome := StillWaiting;
      WaitsForPage(vm.Abs(), t, p, f);
    }
  }

  lemma WaitsForPage(s: State, t: nat, p: nat, f: nat)
    requires Inv(s) && t < |s.thread| && s.thread[t] == SoftWantsPfn(p, f) && f < |s.pfnLock| && s.pfnLock[f] != Nobody
    ensures SoftOutcome(s, t, p, StillWaiting)
  {
    AtThread(s, t);
  }

  method TakeAndFinish(vm: Vm, t: nat, p: nat, f: nat, ghost s: State) returns (outcome: Outcome)
    requires vm.Valid() && t < vm.thread.Length && vm.thread[t] == SoftWantsPfn(p, f) && Leads(s, vm.Abs())
    requires f < vm.pfnLock.Length && vm.pfnLock[f] == Nobody
    modifies vm.Repr()
    ensures vm.Valid() && Leads(s, vm.Abs()) && SoftOutcome(vm.Abs(), t, p, outcome)
  {
    ghost var r := vm.Abs();
    LockPage(vm, t, p, f);
    LeadsOn(s, r, vm.Abs());
    outcome := RecheckAndFinish(vm, t, p, f, s);
  }

  method RecheckAndFinish(vm: Vm, t: nat, p: nat, f: nat, ghost s: State) returns (outcome: Outcome)
    requires vm.Valid() && t < vm.thread.Length && vm.thread[t] == SoftLocked(p, f) && Leads(s, vm.Abs())
    modifies vm.Repr()
    ensures vm.Valid() && Leads(s, vm.Abs()) && SoftOutcome(vm.Abs(), t, p, outcome)
  {
    Pause(vm, User(t), s);
    ghost var r := vm.Abs();
    var ours := Recheck(vm, t, p, f);
    LeadsOn(s, r, vm.Abs());
    if ours {
      FinishRescue(vm, t, p, f, s);
      outcome := Resolved;
    } else {
      LosesPage(r, t);
      outcome := TryAgain;
    }
  }

  /** A thread that gives up its page leaves an entry that is not in transition. */
  lemma LosesPage(s: State, t: nat)
    requires Inv(s) && SoftRecheckEnabled(s, t) && SoftRecheckStep(s, t).thread[t] == Idle
    ensures SoftOutcome(SoftRecheckStep(s, t), t, s.thread[t].p, TryAgain)
  {
    AtThread(s, t);
  }

  method FinishRescue(vm: Vm, t: nat, p: nat, f: nat, ghost s: State)
    requires vm.Valid() && t < vm.thread.Length && vm.thread[t] == SoftHeld(p, f) && Leads(s, vm.Abs())
    modifies vm.Repr()
    ensures vm.Valid() && Leads(s, vm.Abs()) && p < vm.pte.Length
    ensures vm.pte[p].Valid? && vm.mapped[p] == Some(vm.pte[p].frame) && vm.thread[t] == Idle
  {
    Pause(vm, User(t), s);
    ghost var r := vm.Abs();
    MapRescued(vm, t, p, f);
    LeadsOn(s, r, vm.Abs());
    FinishMapped(vm, t, p, f, s);
  }

  method FinishMapped(vm: Vm, t: nat, p: nat, f: nat, ghost s: State)
    requires vm.Valid() && t < vm.thread.Length && vm.thread[t] == SoftMapped(p, f) && Leads(s, vm.Abs())
    modifies vm.Repr()
    ensures vm.Valid() && Leads(s, vm.Abs()) && p < vm.pte.Length
    ensures vm.pte[p].Valid? && vm.mapped[p] == Some(vm.pte[p].frame) && vm.thread[t] == Idle
  {
    Pause(vm, User(t), s);
    ghost var r := vm.Abs();
    AtThread(r, t);
    FinishSoftFault(vm, t, p, f);
    LeadsOn(s, r, vm.Abs());
    AtPte(vm.Abs(), p);
  }

  // ---------- Free pages ----------

  /** Which tries of one hard fault are lost to other threads, for the free lists and for the standby list, and
      how many pages are on the first free list that has any and can be locked. */
  datatype Losses = Losses(refill: bool, list: nat, batch: bool)

  /** A refill takes all pages of one free list, up to a full cache. */
  function RefillSize(list: nat): nat {
    if list == 0 then 1 else if list < FREE_PAGE_CACHE_SIZE then list else FREE_PAGE_CACHE_SIZE
  }

  ghost predicate NoneFree(s: State) {
    forall f :: 0 <= f < |s.place| ==> s.place[f] != FreeList
  }

  /** try_get_free_pages: an empty cache is filled from the free lists, unless they are empty or a try is lost. */
  method RefillCache(vm: Vm, t: nat, lost: bool, list: nat) returns (filled: bool)
    requires vm.Valid() && t < vm.thread.Length && vm.thread[t] == Idle && vm.cache[t] == {}
    modifies vm.Repr()
    ensures vm.Valid() && Leads(old(vm.Abs()), vm.Abs()) && vm.thread[t] == Idle
    ensures filled <==> vm.cache[t] != {}
    ensures filled ==> RefillEnabled(old(vm.Abs()), t, vm.cache[t])
    ensures vm.Abs() == if filled then RefillStep(old(vm.Abs()), t, vm.cache[t]) else old(vm.Abs())
    ensures !filled ==> lost || NoneFree(vm.Abs())
    ensures filled && !lost && |vm.cache[t]| < list && |vm.cache[t]| < FREE_PAGE_CACHE_SIZE ==> NoneFree(vm.Abs())
  {
    ghost var s := vm.Abs();
    HasCache(s, t);
    NoSteps(User(t), s);
    var pages := CollectFree(vm, t, lost, list);
    filled := pages != {};
    if filled {
      PutInCache(vm, t, pages, s);
    }
  }

  method CollectFree(vm: Vm, t: nat, lost: bool, list: nat) returns (pages: set<nat>)
    requires vm.Valid() && t < vm.thread.Length && t < vm.cache.Length && vm.thread[t] == Idle && vm.cache[t] == {}
    modifies vm.place, vm.pfnLock
    ensures vm.Abs() == old(vm.Abs()).(place := SetAll(old(vm.Abs()).place, pages, Cache(t)))
    ensures pages == {} ==> vm.Abs() == old(vm.Abs()) && (lost || NoneFree(vm.Abs()))
    ensures pages != {} ==> RefillEnabled(old(vm.Abs()), t, pages)
    ensures !lost && |pages| < list && |pages| < FREE_PAGE_CACHE_SIZE ==> NoneFree(vm.Abs())
  {
    FreeAreUnlocked(vm.Abs());
    var n := Attempted(RefillSize(list), lost);
    pages := vm.Collect(FreeList, Cache(t), Nobody, n);
  }

  lemma FreeAreUnlocked(s: State)
    requires Inv(s)
    ensures forall f :: 0 <= f < |s.place| && s.place[f] == FreeList ==> s.pfnLock[f] == Nobody
  {
    forall f | 0 <= f < |s.place| && s.place[f] == FreeList ensures s.pfnLock[f] == Nobody { assert FrameOk(s, f); }
  }

  method PutInCache(vm: Vm, t: nat, pages: set<nat>, ghost s: State)
    requires Inv(s) && RefillEnabled(s, t, pages) && vm.Apart() && t < vm.cache.Length
    requires vm.Abs() == s.(place := SetAll(s.place, pages, Cache(t)))
    modifies vm.cache
    ensures vm.Valid() && Leads(s, vm.Abs()) && vm.Abs() == RefillStep(s, t, pages)
  {
    OneStep(s, ByUser(Refill(t, pages)));
    vm.SetCache(t, pages);
  }

  /** move_batch_from_standby_to_cache, first part. It fails only if a try is lost or every standby page is locked. */
  method TakeStandbyBatch(vm: Vm, t: nat, lost: bool) returns (pages: set<nat>)
    requires vm.Valid() && t < vm.thread.Length && vm.thread[t] == Idle && vm.cache[t] == {}
    modifies vm.Repr()
    ensures vm.Valid() && Leads(old(vm.Abs()), vm.Abs())
    ensures vm.cache[t] == {} && vm.thread[t] == if pages == {} then Idle else Repurposing(pages)
    ensures pages != {} ==> RepurposeTakeEnabled(old(vm.Abs()), t, pages)
    ensures vm.Abs() == if pages == {} then old(vm.Abs()) else RepurposeTakeStep(old(vm.Abs()), t, pages)
    ensures !lost && |pages| < STANDBY_BATCH_SIZE ==> NoneUnlocked(vm.Abs(), StandbyList)
  {
    ghost var s := vm.Abs();
    NoSteps(User(t), s);
    HasCache(s, t);
    pages := CollectStandby(vm, t, lost);
    if pages != {} {
      BeginRepurposing(vm, t, pages, s);
    }
  }

  method CollectStandby(vm: Vm, t: nat, lost: bool) returns (pages: set<nat>)
    requires vm.Valid() && t < vm.thread.Length && t < vm.cache.Length && vm.thread[t] == Idle && vm.cache[t] == {}
    modifies vm.place, vm.pfnLock
    ensures pages == {} ==> vm.Abs() == old(vm.Abs())
    ensures pages != {} ==> RepurposeTakeEnabled(old(vm.Abs()), t, pages)
    ensures vm.Abs() == old(vm.Abs()).(place := SetAll(old(vm.Abs()).place, pages, Repurposed(t)),
                                       pfnLock := SetAll(old(vm.Abs()).pfnLock, pages, User(t)))
    ensures !lost && |pages| < STANDBY_BATCH_SIZE ==> NoneUnlocked(vm.Abs(), StandbyList)
  {
    var n := Attempted(STANDBY_BATCH_SIZE, lost);
    pages := vm.Collect(StandbyList, Repurposed(t), User(t), n);
  }

  method BeginRepurposing(vm: Vm, t: nat, pages: set<nat>, ghost s: State)
    requires Inv(s) && RepurposeTakeEnabled(s, t, pages) && vm.Apart() && t < vm.thread.Length
    requires vm.Abs() == s.(place := SetAll(s.place, pages, Repurposed(t)),
               pfnLock := SetAll(s.pfnLock, pages, User(t)))
    modifies vm.thread
    ensures vm.Valid() && Leads(s, vm.Abs()) && vm.Abs() == RepurposeTakeStep(s, t, pages)
  {
    OneStep(s, ByUser(RepurposeTake(t, pages)));
    vm.SetThread(t, Repurposing(pages));
  }

  lemma HasCache(s: State, t: nat)
    requires Inv(s) && t < |s.thread|
    ensures t < |s.cache|
  {
  }

  /** One turn of the loop at lines 190 to 209: the old owner's entry is rewritten without its lock. */
  method GiveToCache(vm: Vm, t: nat, f: nat)
    requires vm.Valid() && t < vm.thread.Length && vm.thread[t].Repurposing? && f in vm.thread[t].batch
    modifies vm.Repr()
    ensures vm.Valid() && Leads(old(vm.Abs()), vm.Abs()) && vm.Abs() == RepurposeOneStep(old(vm.Abs()), t, f)
  {
    ghost var s := vm.Abs();
    AtThread(s, t);
    assert FrameOk(s, f);
    OneStep(s, ByUser(RepurposeOne(t, f)));
    var rest := vm.thread[t].batch - {f};
    MoveToCache(vm, t, f, vm.back[f].value, vm.status[f].slot, rest);
  }

  method MoveToCache(vm: Vm, t: nat, f: nat, p: nat, d: nat, rest: set<nat>)
    requires vm.Apart() && t < vm.thread.Length && t < vm.cache.Length && p < vm.pte.Length && d < vm.owner.Length
    requires f < vm.place.Length && f < vm.status.Length && f < vm.back.Length && f < vm.pfnLock.Length
    modifies vm.pte, vm.owner, vm.cache, vm.place, vm.status, vm.back, vm.pfnLock, vm.thread
    ensures var s := old(vm.Abs());
            vm.Abs() == s.(pte := s.pte[p := OnDisk(d)], owner := s.owner[d := OfPte(p)],
                           cache := s.cache[t := s.cache[t] + {f}], place := s.place[f := Cache(t)],
                           status := s.status[f := Free], back := s.back[f := None], pfnLock := s.pfnLock[f := Nobody],
                           thread := s.thread[t := if rest == {} then Idle else Repurposing(rest)])
  {
    vm.SetPte(p, OnDisk(d));
    vm.SetOwner(d, OfPte(p));
    vm.SetCache(t, vm.cache[t] + {f});
    vm.SetPlace(f, Cache(t));
    vm.SetPfnFree(f);
    vm.SetPfnLock(f, Nobody);
    vm.SetThread(t, if rest == {} then Idle else Repurposing(rest));
  }

  /** move_batch_from_standby_to_cache, among the other threads. */
  method MoveBatch(vm: Vm, t: nat, lost: bool) returns (moved: bool)
    requires vm.Valid() && t < vm.thread.Length && vm.thread[t] == Idle && vm.cache[t] == {}
    modifies vm.Repr()
    ensures vm.Valid() && Leads(old(vm.Abs()), vm.Abs()) && vm.thread[t] == Idle
    ensures moved <==> vm.cache[t] != {}
    ensures !moved ==> vm.Abs() == old(vm.Abs()) && (lost || NoneUnlocked(vm.Abs(), StandbyList))
  {
    ghost var s := vm.Abs();
    var pages := TakeStandbyBatch(vm, t, lost);
    moved := pages != {};
    if moved { GiveAll(vm, t, s); }
  }

  /** Lines 190 to 213. */
  method GiveAll(vm: Vm, t: nat, ghost s: State)
    requires vm.Valid() && t < vm.thread.Length && vm.thread[t].Repurposing? && Leads(s, vm.Abs())
    modifies vm.Repr()
    ensures vm.Valid() && Leads(s, vm.Abs()) && vm.thread[t] == Idle && vm.cache[t] != {}
  {
    AtThread(vm.Abs(), t);
    while vm.thread[t].Repurposing?
      invariant vm.Valid() && Leads(s, vm.Abs())
      invariant vm.thread[t] == Idle || vm.thread[t].Repurposing?
      invariant vm.thread[t].Repurposing? || vm.cache[t] != {}
      decreases if vm.thread[t].Repurposing? then |vm.thread[t].batch| else 0
    {
      GiveNext(vm, t, s);
    }
  }

  method GiveNext(vm: Vm, t: nat, ghost s: State)
    requires vm.Valid() && t < vm.thread.Length && vm.thread[t].Repurposing? && Leads(s, vm.Abs())
    modifies vm.Repr()
    ensures vm.Valid() && Leads(s, vm.Abs()) && vm.cache[t] != {}
    ensures vm.thread[t] == Idle || (vm.thread[t].Repurposing? && |vm.thread[t].batch| < |old(vm.thread[t]).batch|)
    ensures old(|vm.thread[t].batch|) > 0
  {
    AtThread(vm.Abs(), t);
    Pause(vm, User(t), s);
    AtThread(vm.Abs(), t);
    ghost var r := vm.Abs();
    var f :| f in vm.thread[t].batch;
    GiveToCache(vm, t, f);
    LeadsOn(s, r, vm.Abs());
    MoveOne({}, r.thread[t].batch, f);
  }

  // ---------- Hard faults ----------

  /** acquire_free_page: a page is popped off the thread's cache. */
  method PopPage(vm: Vm, t: nat, p: nat) returns (f: nat)
    requires vm.Valid() && t < vm.thread.Length && p < vm.pte.Length && vm.thread[t] == Idle && vm.cache[t] != {}
    modifies vm.Repr()
    ensures vm.Valid() && Leads(old(vm.Abs()), vm.Abs())
    ensures f in old(vm.cache[t]) && vm.Abs() == HardPopStep(old(vm.Abs()), t, p, f)
    ensures f < vm.pfnLock.Length
  {
    AtThread(vm.Abs(), t);
    f :| f in vm.cache[t];
    OneStep(vm.Abs(), ByUser(HardPop(t, p, f)));
    vm.SetCache(t, vm.cache[t] - {f});
    vm.SetPlace(f, Hand(t));
    vm.SetThread(t, HardWantsPfn(p, f));
  }

  method LockPopped(vm: Vm, t: nat, p: nat, f: nat)
    requires vm.Valid() && t < vm.thread.Length && vm.thread[t] == HardWantsPfn(p, f)
    requires f < vm.pfnLock.Length && vm.pfnLock[f] == Nobody
    modifies vm.Repr()
    ensures vm.Valid() && Leads(old(vm.Abs()), vm.Abs()) && vm.Abs() == HardLockPfnStep(old(vm.Abs()), t)
  {
    OneStep(vm.Abs(), ByUser(HardLockPfn(t)));
    vm.SetPfnLock(f, User(t));
    vm.SetThread(t, HardLocked(p, f));
  }

  /** Lines 299 to 311. The cache has room. */
  method GiveBack(vm: Vm, t: nat, f: nat)
    requires vm.Apart() && t < vm.thread.Length && t < vm.cache.Length && f < vm.place.Length
    requires f < vm.status.Length && f < vm.back.Length && f < vm.pfnLock.Length
    modifies vm.cache, vm.place, vm.status, vm.back, vm.pfnLock, vm.thread
    ensures var s := old(vm.Abs());
            vm.Abs() == s.(cache := s.cache[t := s.cache[t] + {f}], place := s.place[f := Cache(t)],
                           status := s.status[f := Free], back := s.back[f := None],
                           pfnLock := s.pfnLock[f := Nobody], thread := s.thread[t := Idle])
  {
    vm.SetCache(t, vm.cache[t] + {f});
    vm.SetPlace(f, Cache(t));
    vm.SetPfnFree(f);
    vm.SetPfnLock(f, Nobody);
    vm.SetThread(t, Idle);
  }

  /** What becomes of an entry that a hard fault tries, in the tables. */
  lemma EntryTried(s: State, t: nat)
    requires Inv(s) && HardLockPteEnabled(s, t)
    ensures var p, f, r := s.thread[t].p, s.thread[t].f, HardLockPteStep(s, t);
            && p < |s.pte| == |r.pte| && p < |s.pteLock| == |r.pteLock| && p < |r.mapped| && t < |r.cache| == |r.thread|
            && if s.pteLock[p] == Nobody && (s.pte[p].OnDisk? || s.pte[p].Zeroed?) then
                 r.mapped[p] == Some(f) && r.pteLock[p] == User(t) && r.thread[t] == HardMapped(p, f, 0)
               else r.pte[p] == s.pte[p] && f in r.cache[t] && r.thread[t] == Idle
  {
    AtThread(s, t);
  }

  /** Lines 296 to 316: the entry's lock is tried for; the page is mapped or given back. */
  method TryEntry(vm: Vm, t: nat, p: nat, f: nat) returns (mapped: bool)
    requires vm.Valid() && t < vm.thread.Length && vm.thread[t] == HardLocked(p, f)
    requires p < vm.pte.Length && p < vm.pteLock.Length && p < vm.mapped.Length && t < vm.cache.Length
    modifies vm.Repr()
    ensures vm.Valid() && Leads(old(vm.Abs()), vm.Abs()) && vm.Abs() == HardLockPteStep(old(vm.Abs()), t)
    ensures mapped <==> old(vm.pteLock[p]) == Nobody && (old(vm.pte[p]).OnDisk? || old(vm.pte[p]).Zeroed?)
    ensures mapped ==> vm.mapped[p] == Some(f) && vm.pteLock[p] == User(t) && vm.thread[t] == HardMapped(p, f, 0)
    ensures !mapped ==> vm.pte[p] == old(vm.pte[p]) && f in vm.cache[t] && vm.thread[t] == Idle
  {
    EntryTried(vm.Abs(), t);
    OneStep(vm.Abs(), ByUser(HardLockPte(t)));
    mapped := Try(vm, t, p, f);
  }

  method Try(vm: Vm, t: nat, p: nat, f: nat) returns (mapped: bool)
    requires vm.Valid() && t < vm.thread.Length && vm.thread[t] == HardLocked(p, f)
    requires p < vm.pte.Length && p < vm.pteLock.Length
    modifies vm.Repr()
    ensures vm.Abs() == HardLockPteStep(old(vm.Abs()), t)
    ensures mapped <==> old(vm.pteLock[p]) == Nobody && (old(vm.pte[p]).OnDisk? || old(vm.pte[p]).Zeroed?)
  {
    AtThread(vm.Abs(), t);
    mapped := vm.pteLock[p] == Nobody && !vm.pte[p].Valid? && !vm.pte[p].Transition?;
    if mapped {
      MapPage(vm, t, p, f);
    } else {
      GiveBack(vm, t, f);
    }
  }

  /** Line 316. */
  method MapPage(vm: Vm, t: nat, p: nat, f: nat)
    requires vm.Apart() && t < vm.thread.Length && p < vm.pteLock.Length && p < vm.mapped.Length
    modifies vm.pteLock, vm.mapped, vm.thread
    ensures var s := old(vm.Abs());
            vm.Abs() == s.(pteLock := s.pteLock[p := User(t)], mapped := s.mapped[p := Some(f)],
                           thread := s.thread[t := HardMapped(p, f, 0)])
  {
    vm.SetPteLock(p, User(t));
    vm.SetMapping(p, Some(f));
    vm.SetThread(t, HardMapped(p, f, 0));
  }

  /** One word of lines 321 to 342. */
  method FillWord(vm: Vm, t: nat, p: nat, f: nat, k: nat)
    requires vm.Valid() && t < vm.thread.Length && vm.thread[t] == HardMapped(p, f, k) && k < vm.words
    modifies vm.Repr()
    ensures vm.Valid() && Leads(old(vm.Abs()), vm.Abs()) && vm.Abs() == HardFillStep(old(vm.Abs()), t)
  {
    ghost var s := vm.Abs();
    AtThread(s, t);
    OneStep(s, ByUser(HardFill(t)));
    var w := 0;
    if vm.pte[p].OnDisk? {
      w := vm.disk[vm.pte[p].slot][k];
    }
    assert HardFillStep(s, t)
        == s.(mem := s.mem[f := s.mem[f][k := w]], thread := s.thread[t := HardMapped(p, f, k + 1)]);
    StoreFilled(vm, t, p, f, k, w);
  }

  method StoreFilled(vm: Vm, t: nat, p: nat, f: nat, k: nat, w: bv64)
    requires vm.Apart() && t < vm.thread.Length && f < vm.mem.Length && k < |vm.mem[f]|
    modifies vm.mem, vm.thread
    ensures var s := old(vm.Abs());
            vm.Abs() == s.(mem := s.mem[f := s.mem[f][k := w]], thread := s.thread[t := HardMapped(p, f, k + 1)])
  {
    vm.StoreWord(f, k, w);
    vm.SetThread(t, HardMapped(p, f, k + 1));
  }

  /** Line 333: the slot of a page that was read back is freed. */
  method FreeSlot(vm: Vm, t: nat, p: nat, f: nat)
    requires vm.Valid() && t < vm.thread.Length && vm.thread[t] == HardMapped(p, f, vm.words)
    modifies vm.Repr()
    ensures vm.Valid() && Leads(old(vm.Abs()), vm.Abs()) && vm.Abs() == HardClearStep(old(vm.Abs()), t)
    ensures vm.thread[t] == HardFilled(p, f)
  {
    OneStep(vm.Abs(), ByUser(HardClear(t)));
    FreeInPlace(vm, t, p, f);
  }

  method FreeInPlace(vm: Vm, t: nat, p: nat, f: nat)
    requires vm.Valid() && t < vm.thread.Length && vm.thread[t] == HardMapped(p, f, vm.words)
    modifies vm.Repr()
    ensures vm.Abs() == HardClearStep(old(vm.Abs()), t) && vm.thread[t] == HardFilled(p, f)
  {
    AtThread(vm.Abs(), t);
    if vm.pte[p].OnDisk? {
      vm.ClearDiskSlot(vm.pte[p].slot);
    }
    vm.SetThread(t, HardFilled(p, f));
  }

  /** Lines 349 to 354. */
  method FinishHardFault(vm: Vm, t: nat, p: nat, f: nat)
    requires vm.Valid() && t < vm.thread.Length && vm.thread[t] == HardFilled(p, f)
    modifies vm.Repr()
    ensures vm.Valid() && Leads(old(vm.Abs()), vm.Abs()) && vm.Abs() == HardFinishStep(old(vm.Abs()), t)
    ensures p < vm.pte.Length && vm.pte[p] == Types.Valid(f) && vm.mapped[p] == Some(f) && vm.thread[t] == Idle
  {
    OneStep(vm.Abs(), ByUser(HardFinish(t)));
    AtThread(vm.Abs(), t);
    MakeResidentInPlace(vm, t, p, f);
  }

  /** The states at which a hard fault looked for free frames, for standby pages, and at the entry. */
  datatype Seen = Seen(refill: State, standby: State, try: State)

  /** The fault passed through these states on the way from s to r. */
  ghost predicate Passed(s: State, seen: Seen, r: State) {
    && Leads(s, seen.refill) && Leads(s, seen.standby) && Leads(s, seen.try)
    && Leads(seen.refill, r) && Leads(seen.standby, r) && Leads(seen.try, r)
  }

  /** The entry was locked, or did not fault any more, when the page was there for it. */
  ghost predicate FoundTooLate(s: State, t: nat, p: nat) {
    && t < |s.thread| && s.thread[t].HardLocked? && s.thread[t].p == p && p < |s.pteLock| && p < |s.pte|
    && (s.pteLock[p] != Nobody || s.pte[p].Valid? || s.pte[p].Transition?)
  }

  /** Neither the free lists nor the standby list had a page that could be had. */
  ghost predicate FoundNoPage(seen: Seen, lost: Losses) {
    (lost.refill || NoneFree(seen.refill)) && (lost.batch || NoneUnlocked(seen.standby, StandbyList))
  }

  /** What a hard fault's outcome says of the state it ends in, and of the states it went through. */
  ghost predicate HardOutcome(s: State, seen: Seen, lost: Losses, t: nat, p: nat, outcome: Outcome) {
    && t < |s.thread| && t < |s.cache| && p < |s.pte| && p < |s.mapped|
    && match outcome
       case Resolved => s.thread[t] == Idle && s.pte[p].Valid? && s.mapped[p] == Some(s.pte[p].frame)
       case TryAgain => s.thread[t] == Idle && FoundTooLate(seen.try, t, p) && seen.try.thread[t].f in s.cache[t]
       case NoPage => s.thread[t] == Idle && s.cache[t] == {} && FoundNoPage(seen, lost)
       case StillWaiting =>
         s.thread[t].HardWantsPfn? && s.thread[t].p == p && s.thread[t].f < |s.pfnLock|
             && s.pfnLock[s.thread[t].f] != Nobody
  }

  /** resolve_hard_fault, among the other threads: an execution is a run of the protocol. */
  method ResolveHardFault(vm: Vm, t: nat, p: nat, spins: nat, lost: Losses) returns (outcome: Outcome, ghost seen: Seen)
    requires vm.Valid() && t < vm.thread.Length && p < vm.pte.Length && vm.thread[t] == Idle
    modifies vm.Repr()
    ensures vm.Valid() && Leads(old(vm.Abs()), vm.Abs()) && HardOutcome(vm.Abs(), seen, lost, t, p, outcome)
    ensures Passed(old(vm.Abs()), seen, vm.Abs())
  {
    ghost var s := vm.Abs();
    NoSteps(User(t), s);
    Pause(vm, User(t), s);
    var acquired;
    ghost var refill, standby;
    acquired, refill, standby := FindPages(vm, t, lost, s);
    ghost var r := vm.Abs();
    if acquired {
      ghost var at;
      outcome, at := PopAndUse(vm, t, p, spins, s);
      seen := Seen(refill, standby, at);
      LeadsOn(refill, r, vm.Abs());
      LeadsOn(standby, r, vm.Abs());
    } else {
      outcome, seen := NoPage, Seen(refill, standby, r);
      NoSteps(User(t), r);
      AtThread(r, t);
    }
  }

  /** Lines 252 to 266: the cache is refilled if it is empty, from the free lists or else from standby. */
  method FindPages(vm: Vm, t: nat, lost: Losses, ghost s: State)
    returns (found: bool, ghost refill: State, ghost standby: State)
    requires vm.Valid() && t < vm.thread.Length && vm.thread[t] == Idle && Leads(s, vm.Abs())
    modifies vm.Repr()
    ensures vm.Valid() && Leads(s, vm.Abs()) && vm.thread[t] == Idle
    ensures found <==> vm.cache[t] != {}
    ensures !found ==> FoundNoPage(Seen(refill, standby, standby), lost)
    ensures Leads(s, refill) && Leads(s, standby) && Leads(refill, vm.Abs()) && Leads(standby, vm.Abs())
  {
    AtThread(vm.Abs(), t);
    refill, standby := vm.Abs(), vm.Abs();
    NoSteps(User(t), vm.Abs());
    found := vm.cache[t] != {};
    if !found {
      found := RefillCache(vm, t, lost.refill, lost.list);
      LeadsOn(s, refill, vm.Abs());
    }
    standby := vm.Abs();
    NoSteps(User(t), standby);
    if !found {
      found, standby := TryStandby(vm, t, lost.batch, refill);
      LeadsOn(s, refill, standby);
      LeadsOn(s, refill, vm.Abs());
    }
  }

  /** Line 257, some time after the free lists were tried. */
  method TryStandby(vm: Vm, t: nat, lost: bool, ghost s: State) returns (found: bool, ghost standby: State)
    requires vm.Valid() && t < vm.thread.Length && vm.thread[t] == Idle && vm.cache[t] == {} && Leads(s, vm.Abs())
    modifies vm.Repr()
    ensures vm.Valid() && vm.thread[t] == Idle && (found <==> vm.cache[t] != {})
    ensures Leads(s, standby) && Leads(standby, vm.Abs()) && Leads(s, vm.Abs())
    ensures !found ==> lost || NoneUnlocked(standby, StandbyList)
  {
    Pause(vm, User(t), s);
    standby := vm.Abs();
    found := MoveBatch(vm, t, lost);
    LeadsOn(s, standby, vm.Abs());
  }

  /** The part of resolve_hard_fault after pages were found. */
  method PopAndUse(vm: Vm, t: nat, p: nat, spins: nat, ghost s: State) returns (outcome: Outcome, ghost at: State)
    requires vm.Valid() && t < vm.thread.Length && p < vm.pte.Length && vm.thread[t] == Idle && vm.cache[t] != {}
    requires Leads(s, vm.Abs())
    modifies vm.Repr()
    ensures vm.Valid() && Leads(s, at) && Leads(at, vm.Abs()) && Leads(s, vm.Abs())
    ensures Leads(old(vm.Abs()), vm.Abs())
    ensures Used(vm.Abs(), at, t, p, outcome)
  {
    ghost var r := vm.Abs();
    var f := PopPage(vm, t, p);
    outcome, at := UsePage(vm, t, p, f, spins, r);
    LeadsOn(s, r, at);
    LeadsOn(s, r, vm.Abs());
  }

  /** The outcome of a hard fault that has got a page. */
  ghost predicate Used(s: State, at: State, t: nat, p: nat, outcome: Outcome) {
    outcome != NoPage && HardOutcome(s, Seen(at, at, at), Losses(false, 0, false), t, p, outcome)
  }

  /** The part of resolve_hard_fault after a page is popped. */
  method UsePage(vm: Vm, t: nat, p: nat, f: nat, spins: nat, ghost s: State) returns (outcome: Outcome, ghost at: State)
    requires vm.Valid() && t < vm.thread.Length && vm.thread[t] == HardWantsPfn(p, f) && Leads(s, vm.Abs())
    modifies vm.Repr()
    ensures vm.Valid() && Leads(s, at) && Leads(at, vm.Abs()) && Leads(s, vm.Abs())
    ensures Used(vm.Abs(), at, t, p, outcome)
  {
    AtThread(vm.Abs(), t);
    var free;
    ghost var held;
    free, held := AwaitPage(vm, t, f, spins, s);
    at := vm.Abs();
    if !free {
      NoSteps(User(t), at);
      AtThread(at, t);
      return StillWaiting, at;
    }
    outcome, at := LockAndUse(vm, t, p, f, s);
  }

  method LockAndUse(vm: Vm, t: nat, p: nat, f: nat, ghost s: State) returns (outcome: Outcome, ghost at: State)
    requires vm.Valid() && t < vm.thread.Length && vm.thread[t] == HardWantsPfn(p, f) && Leads(s, vm.Abs())
    requires f < vm.pfnLock.Length && vm.pfnLock[f] == Nobody
    modifies vm.Repr()
    ensures vm.Valid() && Leads(s, at) && Leads(at, vm.Abs()) && Leads(s, vm.Abs())
    ensures Used(vm.Abs(), at, t, p, outcome)
  {
    ghost var r := vm.Abs();
    LockPopped(vm, t, p, f);
    LeadsOn(s, r, vm.Abs());
    outcome, at := UseLockedPage(vm, t, p, f, s);
  }

  method UseLockedPage(vm: Vm, t: nat, p: nat, f: nat, ghost s: State) returns (outcome: Outcome, ghost at: State)
    requires vm.Valid() && t < vm.thread.Length && vm.thread[t] == HardLocked(p, f) && Leads(s, vm.Abs())
    modifies vm.Repr()
    ensures vm.Valid() && Leads(s, at) && Leads(at, vm.Abs()) && Leads(s, vm.Abs())
    ensures Used(vm.Abs(), at, t, p, outcome)
  {
    Pause(vm, User(t), s);
    at := vm.Abs();
    AtThread(at, t);
    outcome := TryAndFill(vm, t, p, f);
    LeadsOn(s, at, vm.Abs());
  }

  method TryAndFill(vm: Vm, t: nat, p: nat, f: nat) returns (outcome: Outcome)
    requires vm.Valid() && t < vm.thread.Length && vm.thread[t] == HardLocked(p, f)
    requires p < vm.pte.Length && p < vm.pteLock.Length && p < vm.mapped.Length && t < vm.cache.Length
    modifies vm.Repr()
    ensures vm.Valid() && Leads(old(vm.Abs()), vm.Abs()) && Used(vm.Abs(), old(vm.Abs()), t, p, outcome)
  {
    ghost var at := vm.Abs();
    var mapped := TryEntry(vm, t, p, f);
    if mapped {
      FillPage(vm, t, p, f, at);
      outcome := Resolved;
    } else {
      outcome := TryAgain;
    }
  }

  /** Lines 321 to 354. Other threads may store to the page while it is filled. */
  method FillPage(vm: Vm, t: nat, p: nat, f: nat, ghost s: State)
    requires vm.Valid() && t < vm.thread.Length && vm.thread[t] == HardMapped(p, f, 0) && Leads(s, vm.Abs())
    modifies vm.Repr()
    ensures vm.Valid() && Leads(s, vm.Abs()) && p < vm.pte.Length
    ensures vm.pte[p].Valid? && vm.mapped[p] == Some(vm.pte[p].frame) && vm.thread[t] == Idle
  {
    var k := 0;
    while k < vm.words
      invariant k <= vm.words && vm.Valid() && Leads(s, vm.Abs()) && vm.thread[t] == HardMapped(p, f, k)
    {
      FillNext(vm, t, p, f, k, s);
      k := k + 1;
    }
    SettlePage(vm, t, p, f, s);
  }

  method FillNext(vm: Vm, t: nat, p: nat, f: nat, k: nat, ghost s: State)
    requires vm.Valid() && t < vm.thread.Length && vm.thread[t] == HardMapped(p, f, k) && k < vm.words
    requires Leads(s, vm.Abs())
    modifies vm.Repr()
    ensures vm.Valid() && Leads(s, vm.Abs()) && vm.thread[t] == HardMapped(p, f, k + 1)
  {
    Pause(vm, User(t), s);
    ghost var r := vm.Abs();
    FillWord(vm, t, p, f, k);
    LeadsOn(s, r, vm.Abs());
  }

  /** Between lines 333 and 349 the slot may already be in use for another page. */
  method SettlePage(vm: Vm, t: nat, p: nat, f: nat, ghost s: State)
    requires vm.Valid() && t < vm.thread.Length && vm.thread[t] == HardMapped(p, f, vm.words) && Leads(s, vm.Abs())
    modifies vm.Repr()
    ensures vm.Valid() && Leads(s, vm.Abs()) && p < vm.pte.Length
    ensures vm.pte[p].Valid? && vm.mapped[p] == Some(vm.pte[p].frame) && vm.thread[t] == Idle
  {
    Pause(vm, User(t), s);
    ghost var r := vm.Abs();
    FreeSlot(vm, t, p, f);
    LeadsOn(s, r, vm.Abs());
    Pause(vm, User(t), s);
    r := vm.Abs();
    FinishHardFault(vm, t, p, f);
    LeadsOn(s, r, vm.Abs());
  }

  // ---------- page_fault_handler ----------

  /** One turn of the handler's loop: the states at which the entry was looked at, what a hard fault saw, the
      state in which the turn ended, and its outcome. */
  datatype Turn = Turn(start: State, check: State, seen: Seen, end: State, outcome: Outcome)

  predicate Faults(s: State, p: nat) {
    p < |s.pte| && (s.pte[p].OnDisk? || s.pte[p].Zeroed?)
  }

  /** The turn was a soft fault exactly if the entry was in transition, and a hard fault exactly if it was not,
      and was on disk or zeroed when looked at again. */
  ghost predicate TurnOk(turn: Turn, t: nat, p: nat, lost: Losses) {
    && p < |turn.start.pte|
    && if turn.start.pte[p].Transition? then SoftOutcome(turn.end, t, p, turn.outcome)
       else
         && Leads(turn.start, turn.check)
         && if Faults(turn.check, p) then
              Passed(turn.check, turn.seen, turn.end) && HardOutcome(turn.end, turn.seen, lost, t, p, turn.outcome)
            else turn.outcome == TryAgain && turn.end == turn.check
  }

  predicate Missed(outcome: Outcome) {
    outcome.TryAgain? || outcome.NoPage?
  }

  /** The turns one after the other, each missed, except for the last. */
  ghost predicate Turns(s: State, made: seq<Turn>, t: nat, p: nat, lost: nat -> Losses) {
    && (forall i :: 0 <= i < |made| ==> TurnOk(made[i], t, p, lost(i)))
    && Linked(s, made)
  }

  ghost predicate Linked(s: State, made: seq<Turn>) {
    && (forall i :: 0 <= i < |made| ==> Leads(made[i].start, made[i].end))
    && (forall i :: 0 <= i < |made| - 1 ==> Missed(made[i].outcome) && Leads(made[i].end, made[i + 1].start))
    && (made != [] ==> Leads(s, made[0].start))
  }

  lemma OneMoreLink(s: State, made: seq<Turn>, turn: Turn)
    requires Linked(s, made) && AllMissed(made) && Leads(turn.start, turn.end)
    requires if made == [] then Leads(s, turn.start) else Leads(made[|made| - 1].end, turn.start)
    ensures Linked(s, made + [turn])
  {
    var more := made + [turn];
    forall i | 0 <= i < |more| ensures Leads(more[i].start, more[i].end) { assert i < |made| ==> more[i] == made[i]; }
    forall i | 0 <= i < |more| - 1 ensures Missed(more[i].outcome) && Leads(more[i].end, more[i + 1].start) {
      assert more[i] == made[i] && (i + 1 < |made| ==> more[i + 1] == made[i + 1]);
    }
  }

  lemma OneMoreTurn(s: State, made: seq<Turn>, turn: Turn, t: nat, p: nat, lost: nat -> Losses)
    requires Went(s, turn.start, made, t, p, lost) && AllMissed(made)
    requires TurnOk(turn, t, p, lost(|made|)) && Leads(turn.start, turn.end)
    ensures Turns(s, made + [turn], t, p, lost)
  {
    OneMoreLink(s, made, turn);
    var more := made + [turn];
    forall i | 0 <= i < |more| ensures TurnOk(more[i], t, p, lost(i)) { assert i < |made| ==> more[i] == made[i]; }
  }

  ghost predicate AllMissed(made: seq<Turn>) {
    forall i :: 0 <= i < |made| ==> Missed(made[i].outcome)
  }

  /** The turns lead from s to r. */
  ghost predicate Went(s: State, r: State, made: seq<Turn>, t: nat, p: nat, lost: nat -> Losses) {
    Turns(s, made, t, p, lost) && Leads(s, r) && (made != [] ==> Leads(made[|made| - 1].end, r))
  }

  lemma WentOn(s: State, r: State, q: State, made: seq<Turn>, t: nat, p: nat, lost: nat -> Losses)
    requires Went(s, r, made, t, p, lost) && Leads(r, q)
    ensures Went(s, q, made, t, p, lost)
  {
    LeadsOn(s, r, q);
    if made != [] { LeadsOn(made[|made| - 1].end, r, q); }
  }

  /** The handler's loop, for a bounded number of turns. It tries again only after that many turns that missed,
      each with what it missed; a turn that waits is the last. */
  method HandleFault(vm: Vm, t: nat, p: nat, turns: nat, spins: nat, lost: nat -> Losses)
    returns (outcome: Outcome, ghost made: seq<Turn>)
    requires vm.Valid() && t < vm.thread.Length && p < vm.pte.Length && vm.thread[t] == Idle
    modifies vm.Repr()
    ensures vm.Valid() && Went(old(vm.Abs()), vm.Abs(), made, t, p, lost) && |made| <= turns
    ensures outcome.Resolved? <==> vm.pte[p].Valid? && vm.thread[t] == Idle
    ensures outcome.StillWaiting? <==> vm.thread[t] != Idle
    ensures match outcome
            case Resolved => true
            case TryAgain => |made| == turns && AllMissed(made)
            case NoPage => false
            case StillWaiting => made != [] && made[|made| - 1].outcome == outcome && made[|made| - 1].end == vm.Abs()
  {
    ghost var s := vm.Abs();
    NoSteps(User(t), s);
    made := [];
    outcome := TryAgain;
    var i := 0;
    while i < turns && !vm.pte[p].Valid?
      invariant vm.Valid() && vm.thread[t] == Idle
      invariant i == |made| <= turns && Went(s, vm.Abs(), made, t, p, lost) && AllMissed(made)
    {
      outcome, made := NextTurn(vm, t, p, spins, i, lost, made, s);
      if outcome.Resolved? || outcome.StillWaiting? { return; }
      PauseAfter(vm, t, p, made, lost, s);
      i := i + 1;
    }
    outcome := if vm.pte[p].Valid? then Resolved else TryAgain;
  }

  /** The other threads run after a turn. */
  method PauseAfter(vm: Vm, t: nat, p: nat, ghost made: seq<Turn>, ghost lost: nat -> Losses, ghost s: State)
    requires vm.Valid() && t < vm.thread.Length && vm.thread[t] == Idle && Went(s, vm.Abs(), made, t, p, lost)
    modifies vm.Repr()
    ensures vm.Valid() && vm.thread[t] == Idle && Went(s, vm.Abs(), made, t, p, lost)
  {
    ghost var r := vm.Abs();
    NoSteps(User(t), r);
    Pause(vm, User(t), r);
    WentOn(s, r, vm.Abs(), made, t, p, lost);
  }

  method NextTurn(vm: Vm, t: nat, p: nat, spins: nat, i: nat, lost: nat -> Losses, ghost made: seq<Turn>,
      ghost s: State)
    returns (outcome: Outcome, ghost more: seq<Turn>)
    requires vm.Valid() && t < vm.thread.Length && p < vm.pte.Length && vm.thread[t] == Idle
    requires i == |made| && Went(s, vm.Abs(), made, t, p, lost) && AllMissed(made)
    modifies vm.Repr()
    ensures vm.Valid() && Went(s, vm.Abs(), more, t, p, lost) && |more| == i + 1
    ensures more[i].end == vm.Abs() && more[i].outcome == outcome
    ensures !outcome.Resolved? && !outcome.StillWaiting? ==> AllMissed(more)
    ensures outcome.StillWaiting? <==> vm.thread[t] != Idle
    ensures outcome.Resolved? ==> vm.pte[p].Valid?
  {
    ghost var r := vm.Abs();
    ghost var turn;
    outcome, turn := FaultOnce(vm, t, p, spins, lost(i));
    NoSteps(User(t), vm.Abs());
    OneMoreTurn(s, made, turn, t, p, lost);
    more := made + [turn];
    LeadsOn(s, r, vm.Abs());
  }

  /** One turn: lines 389 to 407. The entry is looked at more than once, without its lock. */
  method FaultOnce(vm: Vm, t: nat, p: nat, spins: nat, lost: Losses) returns (outcome: Outcome, ghost turn: Turn)
    requires vm.Valid() && t < vm.thread.Length && p < vm.pte.Length && vm.thread[t] == Idle
    modifies vm.Repr()
    ensures vm.Valid() && Leads(old(vm.Abs()), vm.Abs())
    ensures TurnOk(turn, t, p, lost) && turn.start == old(vm.Abs()) && turn.end == vm.Abs() && turn.outcome == outcome
    ensures outcome.StillWaiting? <==> vm.thread[t] != Idle
    ensures outcome.Resolved? ==> vm.pte[p].Valid? && vm.mapped[p] == Some(vm.pte[p].frame)
  {
    ghost var r := vm.Abs();
    if vm.pte[p].Transition? {
      outcome := ResolveSoftFault(vm, t, p, spins);
      turn := Turn(r, r, Seen(r, r, r), vm.Abs(), outcome);
    } else {
      ghost var check, seen;
      outcome, check, seen := FaultHard(vm, t, p, spins, lost);
      turn := Turn(r, check, seen, vm.Abs(), outcome);
    }
  }

  /** Lines 399 to 407: the entry was not in transition. */
  method FaultHard(vm: Vm, t: nat, p: nat, spins: nat, lost: Losses)
    returns (outcome: Outcome, ghost check: State, ghost seen: Seen)
    requires vm.Valid() && t < vm.thread.Length && p < vm.pte.Length && vm.thread[t] == Idle
    modifies vm.Repr()
    ensures vm.Valid() && Leads(old(vm.Abs()), check) && Leads(old(vm.Abs()), vm.Abs())
    ensures if Faults(check, p) then
              Passed(check, seen, vm.Abs()) && HardOutcome(vm.Abs(), seen, lost, t, p, outcome)
            else outcome == TryAgain && vm.Abs() == check && vm.thread[t] == Idle
  {
    ghost var r := vm.Abs();
    NoSteps(User(t), r);
    Pause(vm, User(t), r);
    check, outcome, seen := vm.Abs(), TryAgain, Seen(r, r, r);
    if vm.pte[p].OnDisk? || vm.pte[p].Zeroed? {
      outcome, seen := ResolveHardFault(vm, t, p, spins, lost);
      LeadsOn(r, check, vm.Abs());
    }
  }
}
