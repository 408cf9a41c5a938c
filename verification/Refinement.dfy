/** The page list and the slot allocator refine the protocol: each edit of the ring, and each stretch of slots
    taken, is a run of it. A list is seen by the protocol as the set of its pages, and a lock as taken or not. */
module Refinement {
  import opened Sequences
  import opened Types
  import opened VmState
  import opened Steps
  import opened Preservation
  import opened Runs
  import opened Interleaving
  import Ring = RingProtocol
  import Routines = ListRoutines
  import SlotAllocator

  // ---------- Lists ----------

  /** The ring has the frames that the protocol has at a place, behind a head that is no frame, and the
      same frames are locked. */
  ghost predicate Shows(s: State, pl: Place, l: Ring.List) {
    && Shape(s) && Ring.Inv(l) && |s.place| <= l.ring[0]
    && SameMembers(s.place, pl, l.ring) && SameLocks(s.pfnLock, l.lock)
  }

  ghost predicate SameMembers(place: seq<Place>, pl: Place, ring: seq<nat>) {
    forall f: nat :: f < |place| ==> (f in ring <==> place[f] == pl)
  }

  ghost predicate SameLocks(pfnLock: seq<Holder>, lock: seq<Option<nat>>) {
    && |pfnLock| <= |lock|
    && forall f: nat :: f < |pfnLock| ==> (lock[f] == None <==> pfnLock[f] == Nobody)
  }

  lemma EditedMembers(ring: seq<nat>, i: nat, j: nat, xs: seq<nat>, f: nat)
    requires Distinct(ring) && i < j <= |ring|
    ensures f in Ring.Edited(ring, i, j, xs) <==> f in xs || (f in ring && f !in Routines.Between(ring, i, j))
  {
    assert ring == ring[..i + 1] + Routines.Between(ring, i, j) + ring[j..];
  }

  /** An edit of the ring, and what becomes of the places. */
  lemma EditIsShown(place: seq<Place>, now: seq<Place>, pl: Place, ring: seq<nat>, i: nat, j: nat, xs: seq<nat>)
    requires SameMembers(place, pl, ring) && Distinct(ring) && i < j <= |ring| && |now| == |place|
    requires forall f: nat :: f < |place| ==>
               (now[f] == pl <==> f in xs || (place[f] == pl && f !in Routines.Between(ring, i, j)))
    ensures SameMembers(now, pl, Ring.Edited(ring, i, j, xs))
  {
    forall f: nat | f < |now| ensures f in Ring.Edited(ring, i, j, xs) <==> now[f] == pl {
      EditedMembers(ring, i, j, xs, f);
    }
  }

  lemma ShownAfter(s: State, r: State, pl: Place, l: Ring.List, o: nat, i: nat, j: nat, xs: seq<nat>)
    requires Shows(s, pl, l) && Ring.Enabled(l, Ring.Decide(o, i, j, xs)) && Shape(r) && |r.place| == |s.place|
    requires SameMembers(r.place, pl, Ring.Edited(l.ring, i, j, xs)) && SameLocks(r.pfnLock, l.lock)
    ensures Shows(r, pl, Ring.Apply(l, Ring.Decide(o, i, j, xs)))
  {
    Ring.StepKeepsInv(l, Ring.Decide(o, i, j, xs));
  }

  /** A page's lock, or the head's, taken for a list operation. */
  lemma LockRefines(s: State, pl: Place, l: Ring.List, o: nat, n: nat)
    requires Inv(s) && Shows(s, pl, l) && (pl.ModifiedList? || pl.StandbyList?)
    requires Ring.Enabled(l, Ring.Acquire(o, n)) && n in l.ring
    ensures var l' := Ring.Apply(l, Ring.Acquire(o, n));
            if n < |s.place| then BorrowEnabled(s, n) && Leads(s, BorrowStep(s, n)) && Shows(BorrowStep(s, n), pl, l')
            else Shows(s, pl, l')
  {
    Ring.StepKeepsInv(l, Ring.Acquire(o, n));
    if n < |s.place| { OneStep(s, OnList(Borrow(n))); }
  }

  lemma UnlockRefines(s: State, pl: Place, l: Ring.List, o: nat, n: nat)
    requires Inv(s) && Shows(s, pl, l) && Ring.Enabled(l, Ring.Release(o, n))
    requires n < |s.place| ==> s.pfnLock[n] == Listing
    ensures var l' := Ring.Apply(l, Ring.Release(o, n));
            if n < |s.place| then Leads(s, ReturnStep(s, n)) && Shows(ReturnStep(s, n), pl, l') else Shows(s, pl, l')
  {
    Ring.StepKeepsInv(l, Ring.Release(o, n));
    if n < |s.place| { OneStep(s, OnList(Return(n))); }
  }

  /** Pointer writes and counting are not seen. */
  lemma WritesAreUnseen(s: State, pl: Place, l: Ring.List, w: Ring.Step)
    requires Shows(s, pl, l) && Ring.Enabled(l, w)
    requires w.Store? || w.Relink? || w.CountInserted? || w.CountRemoved?
    ensures Shows(s, pl, Ring.Apply(l, w))
  {
    Ring.StepKeepsInv(l, w);
  }

  function Returned(s: State, pages: set<nat>): State {
    s.(pfnLock := SetAll(s.pfnLock, pages, Nobody))
  }

  lemma LedHasInv(s: State, r: State)
    requires Leads(s, r)
    ensures Inv(r)
  {
  }

  lemma {:induction false} ReturnAll(s: State, xs: seq<nat>)
    requires Inv(s) && Distinct(xs)
    requires forall k :: 0 <= k < |xs| ==> xs[k] < |s.pfnLock| && s.pfnLock[xs[k]] == Listing
    ensures Leads(s, Returned(s, SetOf(xs)))
  {
    if xs == [] {
      assert Returned(s, SetOf(xs)).pfnLock == s.pfnLock;
      NoSteps(Nobody, s);
    } else {
      var n := |xs| - 1;
      var r := Returned(s, SetOf(xs[..n]));
      ReturnAll(s, xs[..n]);
      LedHasInv(s, r);
      OneStep(r, OnList(Return(xs[n])));
      assert SetOf(xs) == SetOf(xs[..n]) + {xs[n]};
      assert ReturnStep(r, xs[n]).pfnLock == Returned(s, SetOf(xs)).pfnLock;
      LeadsOn(s, r, Returned(s, SetOf(xs)));
    }
  }

  /** The pages that a list operation removes, as it holds them. */
  ghost predicate Batch(s: State, pl: Place, l: Ring.List, o: nat, n: nat, xs: seq<nat>) {
    && Inv(s) && Shows(s, pl, l) && 0 < n && Ring.Enabled(l, Ring.Decide(o, 0, n + 1, []))
    && xs == Routines.Between(l.ring, 0, n + 1)
    && forall k :: 0 <= k < |xs| ==> xs[k] < |s.place| && s.pfnLock[xs[k]] == Listing
  }

  lemma BatchIsReturned(s: State, pl: Place, l: Ring.List, o: nat, n: nat, xs: seq<nat>)
    requires Batch(s, pl, l, o, n, xs)
    ensures Leads(s, Returned(s, SetOf(xs))) && Inv(Returned(s, SetOf(xs))) && |SetOf(xs)| == n
    ensures forall f :: f in SetOf(xs) ==> f < |s.place| && s.place[f] == pl
  {
    ReturnAll(s, xs);
    LedHasInv(s, Returned(s, SetOf(xs)));
    SetOfCounts(xs);
    assert forall k :: 0 <= k < |xs| ==> xs[k] == l.ring[k + 1];
  }

  lemma RemovalIsShown(s: State, r: State, pl: Place, l: Ring.List, o: nat, n: nat, xs: seq<nat>, to: Place, h: Holder)
    requires Batch(s, pl, l, o, n, xs) && Shape(r) && to != pl && h != Nobody
    requires r.place == SetAll(s.place, SetOf(xs), to) && r.pfnLock == SetAll(s.pfnLock, SetOf(xs), h)
    ensures Shows(r, pl, Ring.Apply(l, Ring.Decide(o, 0, n + 1, [])))
  {
    assert Routines.Between(l.ring, 0, n + 1) == xs;
    EditIsShown(s.place, SetAll(s.place, SetOf(xs), to), pl, l.ring, 0, n + 1, []);
    TakenAreLocked(s.pfnLock, l.lock, xs, h);
    ShownAfter(s, r, pl, l, o, 0, n + 1, []);
  }

  lemma TakenAreLocked(pfnLock: seq<Holder>, lock: seq<Option<nat>>, xs: seq<nat>, h: Holder)
    requires SameLocks(pfnLock, lock) && h != Nobody
    requires forall k :: 0 <= k < |xs| ==> xs[k] < |pfnLock| && pfnLock[xs[k]] == Listing
    ensures SameLocks(SetAll(pfnLock, SetOf(xs), h), lock)
  {
  }

  /** Removing the first n pages of the modified list, in order, is taking them for the writer's batch. */
  lemma GatheringRefines(s: State, l: Ring.List, o: nat, n: nat, xs: seq<nat>)
    requires Batch(s, ModifiedList, l, o, n, xs)
    requires s.writer.Gathering? && s.writer.gathered == {} && |s.writer.batch| + n <= s.writer.target
    ensures var r := Returned(s, SetOf(xs));
            && Inv(r) && GatherTakeEnabled(r, SetOf(xs)) && Leads(s, GatherTakeStep(r, SetOf(xs)))
            && Shows(GatherTakeStep(r, SetOf(xs)), ModifiedList, Ring.Apply(l, Ring.Decide(o, 0, n + 1, [])))
  {
    var r := Returned(s, SetOf(xs));
    BatchIsReturned(s, ModifiedList, l, o, n, xs);
    OneStep(r, ByWriter(GatherTake(SetOf(xs))));
    var q := GatherTakeStep(r, SetOf(xs));
    LeadsOn(s, r, q);
    RemovalIsShown(s, q, ModifiedList, l, o, n, xs, Gathered, Writer);
  }

  /** And of the standby list, to give them away. */
  lemma RepurposingRefines(s: State, l: Ring.List, o: nat, n: nat, xs: seq<nat>, t: nat)
    requires Batch(s, StandbyList, l, o, n, xs) && n <= STANDBY_BATCH_SIZE
    requires t < |s.thread| && t < |s.cache| && s.thread[t] == Idle && s.cache[t] == {}
    ensures var r := Returned(s, SetOf(xs));
            && Inv(r) && RepurposeTakeEnabled(r, t, SetOf(xs)) && Leads(s, RepurposeTakeStep(r, t, SetOf(xs)))
            && Shows(RepurposeTakeStep(r, t, SetOf(xs)), StandbyList, Ring.Apply(l, Ring.Decide(o, 0, n + 1, [])))
  {
    var r := Returned(s, SetOf(xs));
    BatchIsReturned(s, StandbyList, l, o, n, xs);
    OneStep(r, ByUser(RepurposeTake(t, SetOf(xs))));
    var q := RepurposeTakeStep(r, t, SetOf(xs));
    LeadsOn(s, r, q);
    RemovalIsShown(s, q, StandbyList, l, o, n, xs, Repurposed(t), User(t));
  }

  /** Putting the trimmer's batch behind the last page, in any order, is its splice. */
  lemma TrimSpliceRefines(s: State, l: Ring.List, o: nat, xs: seq<nat>)
    requires Inv(s) && Shows(s, ModifiedList, l) && TrimSpliceEnabled(s)
    requires Ring.Enabled(l, Ring.Decide(o, |l.ring| - 1, |l.ring|, xs))
    requires forall f: nat :: f in xs <==> f < |s.place| && s.place[f] == TrimBatch
    ensures Leads(s, TrimSpliceStep(s))
    ensures Shows(TrimSpliceStep(s), ModifiedList, Ring.Apply(l, Ring.Decide(o, |l.ring| - 1, |l.ring|, xs)))
  {
    OneStep(s, ByTrimmer(TrimSplice));
    SpliceIsShown(s, TrimSpliceStep(s), ModifiedList, l, o, xs, TrimBatch);
  }

  lemma WriteSpliceRefines(s: State, l: Ring.List, o: nat, xs: seq<nat>)
    requires Inv(s) && Shows(s, StandbyList, l) && WriteSpliceEnabled(s)
    requires Ring.Enabled(l, Ring.Decide(o, |l.ring| - 1, |l.ring|, xs))
    requires forall f: nat :: f in xs <==> f < |s.place| && s.place[f] == Written
    ensures Leads(s, WriteSpliceStep(s))
    ensures Shows(WriteSpliceStep(s), StandbyList, Ring.Apply(l, Ring.Decide(o, |l.ring| - 1, |l.ring|, xs)))
  {
    OneStep(s, ByWriter(WriteSplice));
    SpliceIsShown(s, WriteSpliceStep(s), StandbyList, l, o, xs, Written);
  }

  lemma SpliceIsShown(s: State, r: State, pl: Place, l: Ring.List, o: nat, xs: seq<nat>, from: Place)
    requires Shows(s, pl, l) && Shape(r) && Ring.Enabled(l, Ring.Decide(o, |l.ring| - 1, |l.ring|, xs))
    requires |r.place| == |s.place| && r.pfnLock == s.pfnLock
    requires forall f: nat :: f in xs <==> f < |s.place| && s.place[f] == from
    requires forall f :: 0 <= f < |s.place| ==> r.place[f] == if s.place[f] == from then pl else s.place[f]
    ensures Shows(r, pl, Ring.Apply(l, Ring.Decide(o, |l.ring| - 1, |l.ring|, xs)))
  {
    EditIsShown(s.place, r.place, pl, l.ring, |l.ring| - 1, |l.ring|, xs);
    ShownAfter(s, r, pl, l, o, |l.ring| - 1, |l.ring|, xs);
  }

  /** Removing the one page that a soft fault has locked is its rescue. */
  lemma RescueRefines(s: State, pl: Place, l: Ring.List, o: nat, i: nat, t: nat)
    requires Inv(s) && Shows(s, pl, l) && SoftRecheckEnabled(s, t) && !LostPage(s, t)
    requires 0 < i < |l.ring| && l.ring[i] == s.thread[t].f && Ring.Enabled(l, Ring.Decide(o, i - 1, i + 1, []))
    requires pl.ModifiedList? || pl.StandbyList?
    ensures Leads(s, SoftRecheckStep(s, t))
    ensures Shows(SoftRecheckStep(s, t), pl, Ring.Apply(l, Ring.Decide(o, i - 1, i + 1, [])))
  {
    OneStep(s, ByUser(SoftRecheck(t)));
    RescueIsShown(s, pl, l, o, i, t);
  }

  lemma RescuedFrame(s: State, t: nat)
    requires Inv(s) && SoftRecheckEnabled(s, t) && !LostPage(s, t)
    ensures s.thread[t].f < |s.place| && SoftRecheckStep(s, t).place == s.place[s.thread[t].f := Rescued(t)]
    ensures SoftRecheckStep(s, t).pfnLock == s.pfnLock
  {
    AtThread(s, t);
  }

  lemma RescueIsShown(s: State, pl: Place, l: Ring.List, o: nat, i: nat, t: nat)
    requires Inv(s) && Shows(s, pl, l) && SoftRecheckEnabled(s, t) && !LostPage(s, t) && !pl.Rescued?
    requires Inv(SoftRecheckStep(s, t))
    requires 0 < i < |l.ring| && l.ring[i] == s.thread[t].f && Ring.Enabled(l, Ring.Decide(o, i - 1, i + 1, []))
    ensures Shows(SoftRecheckStep(s, t), pl, Ring.Apply(l, Ring.Decide(o, i - 1, i + 1, [])))
  {
    RescuedFrame(s, t);
    assert Routines.Between(l.ring, i - 1, i + 1) == [s.thread[t].f];
    EditIsShown(s.place, s.place[s.thread[t].f := Rescued(t)], pl, l.ring, i - 1, i + 1, []);
    ShownAfter(s, SoftRecheckStep(s, t), pl, l, o, i - 1, i + 1, []);
  }

  // ---------- Slots ----------

  /** The state with some slots more in the stash. */
  ghost function Stocked(s: State, slots: set<nat>): State {
    s.(bit := SetAll(s.bit, slots, true), owner := SetAll(s.owner, slots, Stashed),
       emptySlots := s.emptySlots - |slots|, stashed := s.stashed + |slots|)
  }

  /** Slots with clear bits, taken one after the other, each with its own step. */
  lemma {:induction false} StockingIsRun(s: State, ds: seq<nat>)
    requires Inv(s) && s.writer.Resting? && Distinct(ds)
    requires forall k :: 0 <= k < |ds| ==> ds[k] < |s.bit| && !s.bit[ds[k]]
    ensures Leads(s, Stocked(s, SetOf(ds)))
  {
    if ds == [] {
      assert SetOf(ds) == {};
      assert Stocked(s, {}) == s;
      NoSteps(Nobody, s);
    } else {
      var n := |ds| - 1;
      StockingIsRun(s, ds[..n]);
      assert ds == ds[..n] + [ds[n]];
      StockOneMore(s, ds[..n], ds[n]);
    }
  }

  lemma StockOneMore(s: State, ds: seq<nat>, d: nat)
    requires Inv(s) && s.writer.Resting? && Leads(s, Stocked(s, SetOf(ds))) && d < |s.bit| && !s.bit[d] && d !in ds
    ensures Leads(s, Stocked(s, SetOf(ds + [d])))
  {
    var r := Stocked(s, SetOf(ds));
    LedHasInv(s, r);
    assert SetOf(ds + [d]) == SetOf(ds) + {d};
    OneStep(r, ByWriter(WriteAlloc(d)));
    OneMoreSlot(s, SetOf(ds), d);
    LeadsOn(s, r, WriteAllocStep(r, d));
  }

  lemma OneMoreSlot(s: State, slots: set<nat>, d: nat)
    requires Inv(Stocked(s, slots)) && s.writer.Resting? && d < |s.bit| == |s.owner| && !s.bit[d] && d !in slots
    ensures WriteAllocStep(Stocked(s, slots), d) == Stocked(s, slots + {d})
  {
    assert |slots + {d}| == |slots| + 1;
  }

  /** What the allocator gets from a row, bit by bit or by one exchange, is what the protocol's steps get. */
  lemma RowRefines(s: State, row: nat)
    requires Inv(s) && s.writer.Resting? && 64 * row + 64 <= |s.bit|
    ensures var ds := SlotAllocator.ClearIn(s.bit[64 * row..64 * row + 64], 64 * row);
            && Leads(s, Stocked(s, SetOf(ds)))
            && |Stocked(s, SetOf(ds)).bit| == |s.bit| && Stocked(s, SetOf(ds)).stashed == s.stashed + |ds|
            && forall d :: 0 <= d < |s.bit| ==>
                 (Stocked(s, SetOf(ds)).bit[d] <==> s.bit[d] || 64 * row <= d < 64 * row + 64)
  {
    var ds := SlotAllocator.ClearIn(s.bit[64 * row..64 * row + 64], 64 * row);
    RowsSlots(s.bit, row);
    forall k | 0 <= k < |ds| ensures ds[k] < |s.bit| && !s.bit[ds[k]] { assert ds[k] in ds; }
    StockingIsRun(s, ds);
    SetOfCounts(ds);
  }

  lemma RowsSlots(bit: seq<bool>, row: nat)
    requires 64 * row + 64 <= |bit|
    ensures var ds := SlotAllocator.ClearIn(bit[64 * row..64 * row + 64], 64 * row);
            && Distinct(ds) && (forall d :: d in ds ==> d < |bit| && !bit[d])
            && forall d :: 0 <= d < |bit| ==> (d in ds <==> 64 * row <= d < 64 * row + 64 && !bit[d])
  {
    SlotAllocator.ClearInIsExact(bit[64 * row..64 * row + 64], 64 * row);
  }
}
