/** The memory manager's tables, updated in place.
    Each setter says which table changes where, and with the abstraction function that nothing
    else does. */
module Vm {
  import opened Types
  import opened VmState
  import opened Steps

  class Vm {
    const words: nat
    // The page table, and the processor's mapping of each address.
    const pte: array<Pte>
    const pteLock: array<Holder>
    const mapped: array<Option<nat>>
    // The page frames.
    const status: array<Status>
    const back: array<Option<nat>>
    const pfnLock: array<Holder>
    const mem: array<Page>
    // The page file.
    const disk: array<Page>
    const bit: array<bool>
    var emptySlots: int
    var stashed: int
    // The user threads' caches, and the program points of all threads.
    const cache: array<set<nat>>
    const thread: array<Thread>
    var trim: Trimming
    var writer: Writing
    // Auxiliary: where frames are and who owns slots.
    const place: array<Place>
    const owner: array<SlotOwner>

    ghost function Repr(): set<object> {
      {this, pte, pteLock, mapped, status, back, pfnLock, mem, disk, bit, cache, thread, place, owner}
    }

    /** The state of the protocol that the tables represent. */
    ghost function Abs(): State
      reads Repr()
    {
      State(words, pte[..], pteLock[..], mapped[..], status[..], back[..], pfnLock[..], mem[..], place[..],
            disk[..], bit[..], owner[..], emptySlots, stashed, cache[..], thread[..], trim, writer)
    }

    /** Tables of one type are different tables. */
    ghost predicate Apart() {
      pteLock != pfnLock && mapped != back && mem != disk
    }

    ghost predicate Valid()
      reads Repr()
    {
      Apart() && Inv(Abs())
    }

    // ---------- pte.c ----------

    method SetPte(p: nat, e: Pte)
      requires p < pte.Length
      modifies pte
      ensures Abs() == old(Abs()).(pte := old(Abs()).pte[p := e])
    {
      pte[p] := e;
    }

    method SetPteLock(p: nat, h: Holder)
      requires Apart() && p < pteLock.Length
      modifies pteLock
      ensures Abs() == old(Abs()).(pteLock := old(Abs()).pteLock[p := h])
    {
      pteLock[p] := h;
    }

    method SetMapping(p: nat, m: Option<nat>)
      requires Apart() && p < mapped.Length
      modifies mapped
      ensures Abs() == old(Abs()).(mapped := old(Abs()).mapped[p := m])
    {
      mapped[p] := m;
    }

    // ---------- pfn.c ----------

    method SetPfnLock(f: nat, h: Holder)
      requires Apart() && f < pfnLock.Length
      modifies pfnLock
      ensures Abs() == old(Abs()).(pfnLock := old(Abs()).pfnLock[f := h])
    {
      pfnLock[f] := h;
    }

    method SetPfnStatus(f: nat, st: Status)
      requires f < status.Length
      modifies status
      ensures Abs() == old(Abs()).(status := old(Abs()).status[f := st])
    {
      status[f] := st;
    }

    method SetPfnActive(f: nat, p: nat)
      requires Apart() && f < status.Length && f < back.Length
      modifies status, back
      ensures Abs() == old(Abs()).(status := old(Abs()).status[f := Active], back := old(Abs()).back[f := Some(p)])
    {
      status[f] := Active;
      back[f] := Some(p);
    }

    method SetPfnFree(f: nat)
      requires Apart() && f < status.Length && f < back.Length
      modifies status, back
      ensures Abs() == old(Abs()).(status := old(Abs()).status[f := Free], back := old(Abs()).back[f := None])
    {
      status[f] := Free;
      back[f] := None;
    }

    // ---------- Memory, page file and bookkeeping ----------

    method StoreWord(f: nat, k: nat, w: bv64)
      requires Apart() && f < mem.Length && k < |mem[f]|
      modifies mem
      ensures Abs() == old(Abs()).(mem := old(Abs()).mem[f := old(mem[f])[k := w]])
    {
      mem[f] := mem[f][k := w];
    }

    method StoreDiskWord(d: nat, k: nat, w: bv64)
      requires Apart() && d < disk.Length && k < |disk[d]|
      modifies disk
      ensures Abs() == old(Abs()).(disk := old(Abs()).disk[d := old(disk[d])[k := w]])
    {
      disk[d] := disk[d][k := w];
    }

    /** clear_disk_slot. */
    method ClearDiskSlot(d: nat)
      requires d < bit.Length && d < owner.Length
      modifies bit, owner, this`emptySlots
      ensures Abs() == old(Abs()).(bit := old(Abs()).bit[d := false], owner := old(Abs()).owner[d := Unused],
                                   emptySlots := old(emptySlots) + 1)
    {
      bit[d] := false;
      owner[d] := Unused;
      emptySlots := emptySlots + 1;
    }

    /** set_disk_slot and push_slot. */
    method StashDiskSlot(d: nat)
      requires d < bit.Length && d < owner.Length
      modifies bit, owner, this`emptySlots, this`stashed
      ensures Abs() == old(Abs()).(bit := old(Abs()).bit[d := true], owner := old(Abs()).owner[d := Stashed],
                                   emptySlots := old(emptySlots) - 1, stashed := old(stashed) + 1)
    {
      bit[d] := true;
      owner[d] := Stashed;
      emptySlots, stashed := emptySlots - 1, stashed + 1;
    }

    method SetOwner(d: nat, o: SlotOwner)
      requires d < owner.Length
      modifies owner
      ensures Abs() == old(Abs()).(owner := old(Abs()).owner[d := o])
    {
      owner[d] := o;
    }

    method SetPlace(f: nat, pl: Place)
      requires f < place.Length
      modifies place
      ensures Abs() == old(Abs()).(place := old(Abs()).place[f := pl])
    {
      place[f] := pl;
    }

    method SetThread(t: nat, at: Thread)
      requires t < thread.Length
      modifies thread
      ensures Abs() == old(Abs()).(thread := old(Abs()).thread[t := at])
    {
      thread[t] := at;
    }

    method SetCache(t: nat, pages: set<nat>)
      requires t < cache.Length
      modifies cache
      ensures Abs() == old(Abs()).(cache := old(Abs()).cache[t := pages])
    {
      cache[t] := pages;
    }

    /** Up to limit unlocked frames at one place are locked for h and moved to another. */
    method Collect(from: Place, to: Place, h: Holder, limit: nat) returns (pages: set<nat>)
      requires Apart() && pfnLock.Length == place.Length && from != to
      modifies place, pfnLock
      ensures |pages| <= limit
      ensures forall f :: f in pages ==> f < place.Length && old(place[f]) == from && old(pfnLock[f]) == Nobody
      ensures |pages| < limit ==>
                forall f :: 0 <= f < place.Length && old(place[f]) == from && old(pfnLock[f]) == Nobody ==> f in pages
      ensures pages == {} ==> Abs() == old(Abs())
      ensures Abs() == old(Abs()).(place := SetAll(old(Abs()).place, pages, to),
                                   pfnLock := if h == Nobody then old(Abs()).pfnLock
                                       else SetAll(old(Abs()).pfnLock, pages, h))
    {
      ghost var was, locks := place[..], pfnLock[..];
      pages := {};
      var i := 0;
      SetAllOfNone(was, to);
      SetAllOfNone(locks, h);
      while i < place.Length && |pages| < limit
        invariant i <= place.Length && |pages| <= limit
        invariant forall f :: f in pages ==> f < i && was[f] == from && locks[f] == Nobody
        invariant forall f :: 0 <= f < i && was[f] == from && locks[f] == Nobody ==> f in pages
        invariant place[..] == SetAll(was, pages, to) && pfnLock[..] == SetAll(locks, pages, h)
      {
        assert place[..][i] == was[i] && pfnLock[..][i] == locks[i];
        if place[i] == from && pfnLock[i] == Nobody {
          SetAllOneMore(was, pages, i, to);
          SetAllOneMore(locks, pages, i, h);
          place[i], pfnLock[i] := to, h;
          pages := pages + {i};
        }
        i := i + 1;
      }
      assert h == Nobody ==> SetAll(locks, pages, h) == locks;
    }
  }

  /** How many pages a removal from a list goes for: if a try-lock is lost to another thread it may stop early, or
      fail. Which tries are lost is given from outside. */
  method Attempted(capacity: nat, lost: bool) returns (n: nat)
    ensures n <= capacity && (!lost ==> n == capacity)
  {
    n := capacity;
    if lost {
      n := *;
      if n > capacity { n := capacity; }
    }
  }

  /** Every frame at this place is locked. */
  ghost predicate NoneUnlocked(s: State, pl: Place) {
    forall f :: 0 <= f < |s.place| && f < |s.pfnLock| && s.place[f] == pl ==> s.pfnLock[f] != Nobody
  }

  lemma SetAllOfNone<T>(table: seq<T>, x: T)
    ensures SetAll(table, {}, x) == table
  {
  }

  lemma SetAllOneMore<T>(table: seq<T>, pages: set<nat>, f: nat, x: T)
    requires f < |table| && f !in pages
    ensures SetAll(table, pages, x)[f := x] == SetAll(table, pages + {f}, x)
    ensures |pages + {f}| == |pages| + 1
  {
  }
}
