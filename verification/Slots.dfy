/** Who owns the disk slots, and how many there must be. */
module Slots {
  import opened Types
  import opened VmState
  import opened Steps
  import opened Preservation
  import opened Runs

  /** A frame's copy is in the slot. */
  predicate FrameOwns(s: State, f: nat, d: nat) {
    f < |s.place| && f < |s.status| && HasCopy(s.place[f]) && s.status[f] == Standby(d)
  }

  /** The slot holds the contents of an entry: not any more, if a hard fault has read it back and freed it. */
  ghost predicate PteOwns(s: State, p: nat, d: nat)
    requires Shape(s)
  {
    p < |s.pte| && s.pte[p] == OnDisk(d) && !SlotFreed(s, p)
  }

  predicate WriterOwns(s: State, d: nat) {
    s.writer.Copying? && s.writer.slot == Some(d)
  }

  predicate StashOwns(s: State, d: nat) {
    d < |s.owner| && s.owner[d] == Stashed
  }

  /** A set bit other than slot zero has an owner. */
  lemma SetBitHasOwner(s: State, d: nat)
    requires Reachable(s) && 0 < d < |s.bit|
    ensures Shape(s)
    ensures s.bit[d] <==>
              StashOwns(s, d) || WriterOwns(s, d) || (exists f :: FrameOwns(s, f, d)) || (exists p :: PteOwns(s, p, d))
  {
    ReachableHasInv(s);
    AtSlot(s, d);
    if s.owner[d].OfFrame? {
      assert FrameOwns(s, s.owner[d].f, d);
    }
    if s.owner[d].OfPte? {
      assert PteOwns(s, s.owner[d].p, d);
    }
    forall f | FrameOwns(s, f, d) ensures s.bit[d] { assert FrameOk(s, f); }
    forall p | PteOwns(s, p, d) ensures s.bit[d] { assert PteOk(s, p); }
  }

  /** And only one: no slot is shared, and slot zero is never handed out. */
  lemma SlotHasOneOwner(s: State, d: nat)
    requires Reachable(s)
    ensures Shape(s)
    ensures forall f, g :: FrameOwns(s, f, d) && FrameOwns(s, g, d) ==> f == g
    ensures forall p, q :: PteOwns(s, p, d) && PteOwns(s, q, d) ==> p == q
    ensures forall f, p :: !(FrameOwns(s, f, d) && PteOwns(s, p, d))
    ensures StashOwns(s, d) || WriterOwns(s, d) ==> forall f :: !FrameOwns(s, f, d) && !PteOwns(s, f, d)
    ensures !(StashOwns(s, d) && WriterOwns(s, d))
    ensures d == 0 ==> !StashOwns(s, d) && !WriterOwns(s, d) && forall f :: !FrameOwns(s, f, d) && !PteOwns(s, f, d)
  {
    ReachableHasInv(s);
    if d < |s.owner| {
      AtSlot(s, d);
    }
    forall f | FrameOwns(s, f, d) ensures d < |s.owner| && s.owner[d] == OfFrame(f) { assert FrameOk(s, f); }
    forall p | PteOwns(s, p, d) ensures d < |s.owner| && s.owner[d] == OfPte(p) { assert PteOk(s, p); }
  }

  /** The slot the label clears, if it clears one. */
  ghost function Cleared(s: State, l: Label): Option<nat>
    requires Inv(s) && Enabled(s, l)
  {
    match l
    case ByUser(SoftRecheck(t)) =>
      AtThread(s, t);
      if !LostPage(s, t) && s.status[s.thread[t].f].Standby? then Some(s.status[s.thread[t].f].slot) else None
    case ByUser(HardClear(t)) =>
      AtThread(s, t);
      if FaultsOnDisk(s, t) then Some(s.pte[s.thread[t].p].slot) else None
    case ByWriter(WriteSettle) => if StillMidWrite(s) then None else s.writer.slot
    case _ => None
  }

  /** clear_disk_slot always finds its bit set, and the bitmap changes nowhere else. */
  lemma ClearFindsBitSet(s: State, l: Label)
    requires Reachable(s) && Inv(s) && Enabled(s, l) && Cleared(s, l).Some?
    ensures ClearsBit(s, Apply(s, l), Cleared(s, l).value)
  {
    match l
    case ByUser(SoftRecheck(t)) => AtThread(s, t); RescueClearsBit(s, t);
    case ByUser(HardClear(t)) => AtThread(s, t); AtSlot(s, Cleared(s, l).value);
    case ByWriter(WriteSettle) => AtSlot(s, Cleared(s, l).value);
  }

  /** A step that clears no slot leaves every set bit set. */
  lemma NothingElseClears(s: State, l: Label, d: nat)
    requires Inv(s) && Enabled(s, l) && d < |s.bit| && s.bit[d] && Cleared(s, l) != Some(d)
    ensures d < |Apply(s, l).bit| && Apply(s, l).bit[d]
  {
    match l
    case ByUser(u) => UserClearsNothingElse(s, u, d);
    case ByTrimmer(u) =>
    case ByWriter(u) =>
    case OnList(u) =>
  }

  lemma UserClearsNothingElse(s: State, l: FaultLabel, d: nat)
    requires Inv(s) && UserEnabled(s, l) && d < |s.bit| && s.bit[d] && Cleared(s, ByUser(l)) != Some(d)
    ensures d < |UserApply(s, l).bit| && UserApply(s, l).bit[d]
  {
    if l.SoftRecheck? || l.HardClear? { AtThread(s, l.t); } else { assert UserApply(s, l).bit == s.bit; }
  }

  ghost predicate ClearsBit(s: State, r: State, d: nat) {
    0 < d < |s.bit| && s.bit[d] && r.bit == s.bit[d := false] && r.emptySlots == s.emptySlots + 1
  }

  lemma RescueClearsBit(s: State, t: nat)
    requires Inv(s) && SoftRecheckEnabled(s, t) && !LostPage(s, t)
    requires s.thread[t].f < |s.status| && s.status[s.thread[t].f].Standby?
    ensures ClearsBit(s, SoftRescueStep(s, t), s.status[s.thread[t].f].slot)
  {
    AtThread(s, t);
    AtSlot(s, s.status[s.thread[t].f].slot);
  }

  // ---------- Counting ----------

  /** A one-to-one map makes its range at least as large as its domain. */
  lemma {:induction false} InjectionBounds(a: set<nat>, b: set<nat>, g: nat -> nat)
    requires forall x :: x in a ==> g(x) in b
    requires forall x, y :: x in a && y in a && g(x) == g(y) ==> x == y
    ensures |a| <= |b|
  {
    if a != {} {
      var x :| x in a;
      InjectionBounds(a - {x}, b - {g(x)}, g);
    }
  }

  function FrameSlots(xs: seq<SlotOwner>): set<nat> {
    set d: nat | d < |xs| && xs[d].OfFrame?
  }

  function PteSlots(xs: seq<SlotOwner>): set<nat> {
    set d: nat | d < |xs| && xs[d].OfPte?
  }

  /** Every slot has exactly one kind of owner. */
  lemma {:induction false} OwnersPartition(xs: seq<SlotOwner>)
    ensures |xs| == Singles(xs) + |FrameSlots(xs)| + |PteSlots(xs)|
  {
    if xs != [] {
      var n := |xs| - 1;
      OwnersPartition(xs[..n]);
      OneMoreOwner(xs[..n], xs[n]);
      assert xs == xs[..n] + [xs[n]];
    }
  }

  /** The slots without an owner of their own. */
  function Singles(xs: seq<SlotOwner>): nat {
    multiset(xs)[Unused] + multiset(xs)[Reserved] + multiset(xs)[Stashed] + multiset(xs)[InFlight]
  }

  lemma OneMoreOwner(xs: seq<SlotOwner>, x: SlotOwner)
    ensures Singles(xs + [x]) == Singles(xs) + if x.OfFrame? || x.OfPte? then 0 else 1
    ensures |FrameSlots(xs + [x])| == |FrameSlots(xs)| + if x.OfFrame? then 1 else 0
    ensures |PteSlots(xs + [x])| == |PteSlots(xs)| + if x.OfPte? then 1 else 0
  {
    OneMoreCounted(xs, x, Unused);
    OneMoreCounted(xs, x, Reserved);
    OneMoreCounted(xs, x, Stashed);
    OneMoreCounted(xs, x, InFlight);
    OneMoreFrameSlot(xs, x);
    OneMorePteSlot(xs, x);
  }

  lemma OneMoreCounted(xs: seq<SlotOwner>, x: SlotOwner, y: SlotOwner)
    ensures multiset(xs + [x])[y] == multiset(xs)[y] + if x == y then 1 else 0
  {
  }

  lemma OneMoreFrameSlot(xs: seq<SlotOwner>, x: SlotOwner)
    ensures |FrameSlots(xs + [x])| == |FrameSlots(xs)| + if x.OfFrame? then 1 else 0
  {
    assert FrameSlots(xs + [x]) == FrameSlots(xs) + if x.OfFrame? then {|xs|} else {};
  }

  lemma OneMorePteSlot(xs: seq<SlotOwner>, x: SlotOwner)
    ensures |PteSlots(xs + [x])| == |PteSlots(xs)| + if x.OfPte? then 1 else 0
  {
    assert PteSlots(xs + [x]) == PteSlots(xs) + if x.OfPte? then {|xs|} else {};
  }

  lemma {:induction false} CountAtMostOne(xs: seq<SlotOwner>, x: SlotOwner, d: nat)
    requires forall e :: 0 <= e < |xs| && xs[e] == x ==> e == d
    ensures multiset(xs)[x] == if d < |xs| && xs[d] == x then 1 else 0
  {
    if xs != [] {
      var n := |xs| - 1;
      CountAtMostOne(xs[..n], x, d);
      assert xs == xs[..n] + [xs[n]];
    }
  }

  function CopiedFrames(s: State): set<nat> {
    set f: nat | f < |s.place| && HasCopy(s.place[f])
  }

  ghost function PagedOut(s: State): set<nat>
    requires Shape(s)
  {
    set p: nat | p < |s.pte| && s.pte[p].OnDisk? && !SlotFreed(s, p)
  }

  lemma FrameSlotsMatch(s: State)
    requires Inv(s)
    ensures |FrameSlots(s.owner)| == |CopiedFrames(s)|
  {
    forall d | d in FrameSlots(s.owner)
      ensures s.owner[d].f in CopiedFrames(s) && s.status[s.owner[d].f] == Standby(d) { AtSlot(s, d); }
    forall f | f in CopiedFrames(s)
      ensures s.status[f].Standby? && s.status[f].slot < |s.owner|
      ensures s.owner[s.status[f].slot] == OfFrame(f) { assert FrameOk(s, f); }
    InjectionBounds(FrameSlots(s.owner), CopiedFrames(s), (d: nat) => if d < |s.owner| && s.owner[d].OfFrame?
        then s.owner[d].f else 0);
    InjectionBounds(CopiedFrames(s), FrameSlots(s.owner), (f: nat) => if f < |s.status| && s.status[f].Standby?
        then s.status[f].slot else 0);
  }

  lemma PteSlotsMatch(s: State)
    requires Inv(s)
    ensures |PteSlots(s.owner)| == |PagedOut(s)|
  {
    forall d | d in PteSlots(s.owner) ensures s.owner[d].p in PagedOut(s) && s.pte[s.owner[d].p] == OnDisk(d)
      { AtSlot(s, d); }
    forall p | p in PagedOut(s)
      ensures s.pte[p].OnDisk? && s.pte[p].slot < |s.owner|
      ensures s.owner[s.pte[p].slot] == OfPte(p) { assert PteOk(s, p); }
    InjectionBounds(PteSlots(s.owner), PagedOut(s), (d: nat) => if d < |s.owner| && s.owner[d].OfPte?
        then s.owner[d].p else 0);
    InjectionBounds(PagedOut(s), PteSlots(s.owner), (p: nat) => if p < |s.pte| && s.pte[p].OnDisk? then s.pte[p].slot
        else 0);
  }

  function InFlightCount(s: State): nat {
    if s.writer.Copying? && s.writer.slot.Some? then 1 else 0
  }

  /** The page file is never short of a slot: empty slots, the stash, the writer's slot, the
      copies of standby pages and the pages on disk add up to all slots but slot zero. */
  lemma SlotConservation(s: State)
    requires Reachable(s) && 0 < |s.owner|
    ensures Shape(s)
    ensures |s.owner| - 1 == s.emptySlots + s.stashed + InFlightCount(s) + |CopiedFrames(s)| + |PagedOut(s)|
  {
    ReachableHasInv(s);
    var cur := if s.writer.Copying? && s.writer.slot.Some? then s.writer.slot.value else |s.owner|;
    forall d | 0 <= d < |s.owner|
      ensures (s.owner[d] == Reserved <==> d == 0) && (s.owner[d] == InFlight ==> d == cur) { assert SlotOk(s, d); }
    OwnersPartition(s.owner);
    CountAtMostOne(s.owner, Reserved, 0);
    CountAtMostOne(s.owner, InFlight, cur);
    FrameSlotsMatch(s);
    PteSlotsMatch(s);
  }

  /** The atomic counter agrees with the bitmap. */
  lemma CounterIsExact(s: State)
    requires Reachable(s)
    ensures Shape(s) && s.emptySlots == |set d: nat | d < |s.bit| && !s.bit[d]|
  {
    ReachableHasInv(s);
    forall d | 0 <= d < |s.owner| ensures s.bit[d] <==> s.owner[d] != Unused { assert SlotOk(s, d); }
    CountIsCardinality(s.owner, Unused);
    assert (set d: nat | d < |s.bit| && !s.bit[d]) == set d: nat | d < |s.owner| && s.owner[d] == Unused;
  }

  lemma {:induction false} CountIsCardinality(xs: seq<SlotOwner>, x: SlotOwner)
    ensures multiset(xs)[x] == |set d: nat | d < |xs| && xs[d] == x|
  {
    if xs != [] {
      var n := |xs| - 1;
      CountIsCardinality(xs[..n], x);
      assert xs == xs[..n] + [xs[n]];
      assert (set d: nat | d < |xs| && xs[d] == x) == (set d: nat | d < |xs[..n]| && xs[..n][d] == x) + if xs[n] == x
          then {n} else {};
    }
  }

  // ---------- Capacity ----------

  function Numbers(n: nat): (r: set<nat>)
    ensures |r| == n && forall i :: i in r <==> 0 <= i < n
  {
    if n == 0 then {} else Numbers(n - 1) + {n - 1}
  }

  /** The frames that are free, cached or in a faulting thread's hand. */
  function Pageless(s: State): set<nat> {
    set f: nat | f < |s.place| && !HoldsPage(s.place[f])
  }

  /** The entry of the page a frame holds. */
  function Home(s: State, f: nat): nat {
    if f < |s.back| && s.back[f].Some? then s.back[f].value else 0
  }

  lemma HomeIsResident(s: State, f: nat)
    requires Inv(s) && f < |s.place| && HoldsPage(s.place[f])
    ensures Home(s, f) < |s.pte| && (s.pte[Home(s, f)] == Valid(f) || s.pte[Home(s, f)] == Transition(f))
  {
    assert FrameOk(s, f);
  }

  /** There are entries for the pages in frames and for the pages on disk. */
  lemma PagesNeedRoom(s: State)
    requires Inv(s)
    ensures |s.place| - |Pageless(s)| + |PagedOut(s)| <= |s.pte|
  {
    var frames, ptes := Numbers(|s.place|), Numbers(|s.pte|);
    forall f | f in frames - Pageless(s)
      ensures Home(s, f) in ptes - PagedOut(s)
      ensures s.pte[Home(s, f)] == Valid(f) || s.pte[Home(s, f)] == Transition(f)
    {
      HomeIsResident(s, f);
    }
    InjectionBounds(frames - Pageless(s), ptes - PagedOut(s), (f: nat) => Home(s, f));
    Difference(frames, Pageless(s));
    Difference(ptes, PagedOut(s));
  }

  lemma Difference(a: set<nat>, b: set<nat>)
    requires b <= a
    ensures |a - b| == |a| - |b|
  {
  }

  /** Capacity, in any state: the empty slots make up for all that entries, frames and slots leave over. */
  lemma EmptySlotsLeft(s: State)
    requires Reachable(s) && 0 < |s.owner|
    ensures |s.place| + |s.owner| - 1
            <= s.emptySlots + s.stashed + InFlightCount(s) + |s.pte| + |Pageless(s)| + |CopiedFrames(s)|
  {
    ReachableHasInv(s);
    SlotConservation(s);
    PagesNeedRoom(s);
  }

  /** The writer's early return cannot fire when it is needed: at rest it finds an empty slot, provided the
      address space leaves room for the stash and for the frames that hold no page or one with a copy.
      When memory is exhausted these are the few frames in the hands of faulting threads. */
  lemma WriterFindsSlot(s: State)
    requires Reachable(s) && s.writer.Resting? && 0 < |s.owner|
    requires |s.pte| + s.stashed + 2 + |Pageless(s)| + |CopiedFrames(s)| <= |s.place| + |s.owner|
    ensures s.emptySlots >= 1
  {
    EmptySlotsLeft(s);
  }
}
