/** The state of the memory manager between two atomic steps, and the invariant every
    step keeps. */
module VmState {
  import opened Types

  const FREE_PAGE_CACHE_SIZE: nat := 64
  const STANDBY_BATCH_SIZE: nat := 16
  const MAX_WRITE_BATCH_SIZE: nat := 4096

  datatype State = State(
    words: nat,
    pte: seq<Pte>,
    pteLock: seq<Holder>,
    mapped: seq<Option<nat>>,
    status: seq<Status>,
    back: seq<Option<nat>>,
    pfnLock: seq<Holder>,
    mem: seq<Page>,
    place: seq<Place>,
    disk: seq<Page>,
    bit: seq<bool>,
    owner: seq<SlotOwner>,
    emptySlots: int,
    stashed: int,
    cache: seq<set<nat>>,
    thread: seq<Thread>,
    trim: Trimming,
    writer: Writing)

  // ---------- Invariant ----------

  /** The page of a virtual address is in this frame. */
  predicate HoldsPage(pl: Place) {
    !pl.FreeList? && !pl.Cache? && !pl.Hand?
  }

  /** The frame's contents are also in the disk slot its status names. */
  predicate HasCopy(pl: Place) {
    pl.Written? || pl.StandbyList? || pl.Repurposed?
  }

  ghost predicate Shape(s: State) {
    && |s.pteLock| == |s.mapped| == |s.pte|
    && |s.back| == |s.pfnLock| == |s.mem| == |s.place| == |s.status|
    && |s.bit| == |s.owner| == |s.disk|
    && |s.cache| == |s.thread|
    && (forall f :: 0 <= f < |s.mem| ==> |s.mem[f]| == s.words)
    && (forall d :: 0 <= d < |s.disk| ==> |s.disk[d]| == s.words)
  }

  /** The frame's lock is held in passing: by a soft fault that has not read its entry again yet, and
      may find that the frame is not its page any more, or by the writer about to look at the status. */
  ghost predicate Passing(s: State, f: nat)
    requires Shape(s) && f < |s.place|
  {
    match s.pfnLock[f]
    case User(t) => t < |s.thread| && s.thread[t].SoftLocked? && s.thread[t].f == f
    case Writer =>
      && s.writer.Copying? && s.writer.locked && s.writer.next < |s.writer.batch|
      && s.writer.batch[s.writer.next] == f
    case _ => false
  }

  /** A frame that holds a page and its entry point at each other; one that has a copy owns its slot. */
  ghost predicate PageOk(s: State, f: nat)
    requires Shape(s) && f < |s.place|
  {
    var pl, st := s.place[f], s.status[f];
    && (if HoldsPage(pl) then
          && s.back[f].Some? && s.back[f].value < |s.pte|
          && s.pte[s.back[f].value] == if pl.Resident? then Valid(f) else Transition(f)
        else
          st == Free && s.back[f] == None)
    && (HasCopy(pl) ==> st.Standby? && st.slot < |s.owner| && s.owner[st.slot] == OfFrame(f))
  }

  /** The lock, status and back-pointer of a frame agree with where it is. */
  ghost predicate FrameOk(s: State, f: nat)
    requires Shape(s) && f < |s.place|
  {
    PageOk(s, f) && PlaceOk(s, f)
  }

  ghost predicate PlaceOk(s: State, f: nat)
    requires Shape(s) && f < |s.place|
  {
    var pl, st, lk := s.place[f], s.status[f], s.pfnLock[f];
    match pl
    case FreeList => lk == Nobody
    case Cache(t) => (lk == Nobody || Passing(s, f)) && t < |s.cache| && f in s.cache[t]
    case Hand(t) =>
      && t < |s.thread|
      && match s.thread[t] {
           case HardWantsPfn(_, g) => g == f && (lk == Nobody || Passing(s, f))
           case HardLocked(_, g) => g == f && lk == User(t)
           case HardMapped(_, g, _) => g == f && lk == User(t)
           case HardFilled(_, g) => g == f && lk == User(t)
           case _ => false
         }
    case Resident => st == Active && (lk == Nobody || Passing(s, f))
    case TrimBatch =>
      lk == Trimmer && (if s.trim.Marking? then st == Active || st == Modified else s.trim.Scanning? && st == Active)
    case ModifiedList =>
      st == Modified && (lk == Nobody || lk == Listing || (lk == Trimmer && s.trim.Releasing?) || Passing(s, f))
    case Gathered => st == Modified && lk == Writer && s.writer.Gathering? && f in s.writer.gathered
    case WriteBatch =>
      && st == MidWrite && (lk == Nobody || Passing(s, f))
      && match s.writer {
           case Gathering(_, _, batch) => f in batch
           case Copying(batch, next, _, _, _) => next <= |batch| && f in batch[next..]
           case _ => false
         }
    case Written =>
      && lk == Writer && s.writer.Copying? && s.writer.next <= |s.writer.batch|
      && f in s.writer.batch[..s.writer.next]
    case StandbyList => lk == Nobody || lk == Listing || (lk == Writer && s.writer.Publishing?) || Passing(s, f)
    case Repurposed(t) => lk == User(t) && t < |s.thread| && s.thread[t].Repurposing? && f in s.thread[t].batch
    case Rescued(t) =>
      && lk == User(t) && st != Free && st != Active && t < |s.thread| && s.back[f].Some?
      && (s.thread[t] == SoftHeld(s.back[f].value, f) || s.thread[t] == SoftMapped(s.back[f].value, f))
  }

  /** A hard fault has mapped its address to its frame. */
  predicate MapsPage(at: Thread) {
    at.HardMapped? || at.HardFilled?
  }

  /** The frame an address is mapped to, given the entry and the thread working on it. */
  ghost function Mapping(s: State, p: nat): Option<nat>
    requires Shape(s) && p < |s.pte|
  {
    match s.pte[p]
    case Valid(f) => Some(f)
    case Transition(f) =>
      if f < |s.place| && ((s.place[f].TrimBatch? && s.trim.Scanning?)
        || (s.place[f].Rescued? && s.place[f].t < |s.thread| && s.thread[s.place[f].t].SoftMapped?))
      then Some(f) else None
    case _ =>
      if s.pteLock[p].User? && s.pteLock[p].t < |s.thread| && MapsPage(s.thread[s.pteLock[p].t])
      then Some(s.thread[s.pteLock[p].t].f) else None
  }

  /** The thread has its entry's lock. */
  predicate HoldsEntry(at: Thread) {
    at.SoftWantsPfn? || at.SoftLocked? || at.SoftHeld? || at.SoftMapped? || MapsPage(at)
  }

  /** A hard fault has read the page back and freed its slot, and not yet rewritten the entry. */
  ghost predicate SlotFreed(s: State, p: nat)
    requires Shape(s) && p < |s.pte|
  {
    s.pteLock[p].User? && s.pteLock[p].t < |s.thread| && s.thread[s.pteLock[p].t].HardFilled?
  }

  ghost predicate PteOk(s: State, p: nat)
    requires Shape(s) && p < |s.pte|
  {
    && match s.pte[p] {
         case Zeroed => true
         case Valid(f) => f < |s.back| && s.back[f] == Some(p)
         case Transition(f) => f < |s.back| && s.back[f] == Some(p)
         case OnDisk(d) => d < |s.owner| && (s.owner[d] == OfPte(p) || SlotFreed(s, p))
       }
    && s.mapped[p] == Mapping(s, p)
    && match s.pteLock[p]
       case Nobody => true
       case Trimmer => s.trim == Scanning(Some(p))
       case Writer => false
       case Listing => false
       case User(t) => t < |s.thread| && HoldsEntry(s.thread[t]) && s.thread[t].p == p
  }

  ghost predicate SlotOk(s: State, d: nat)
    requires Shape(s) && d < |s.owner|
  {
    && (s.bit[d] <==> s.owner[d] != Unused)
    && (s.owner[d] == Reserved <==> d == 0)
    && match s.owner[d]
       case InFlight => s.writer.Copying? && s.writer.slot == Some(d)
       case OfFrame(f) => f < |s.place| && HasCopy(s.place[f]) && s.status[f] == Standby(d)
       case OfPte(p) => p < |s.pte| && s.pte[p] == OnDisk(d) && !SlotFreed(s, p)
       case _ => true
  }

  ghost predicate CacheOk(s: State, t: nat)
    requires Shape(s) && t < |s.thread|
  {
    && |s.cache[t]| <= FREE_PAGE_CACHE_SIZE
    && forall f :: f in s.cache[t] ==> f < |s.place| && s.place[f] == Cache(t)
  }

  ghost predicate ThreadOk(s: State, t: nat)
    requires Shape(s) && t < |s.thread|
  {
    CacheOk(s, t) && ProgramOk(s, t)
  }

  /** What a thread's program point says. */
  ghost predicate ProgramOk(s: State, t: nat)
    requires Shape(s) && t < |s.thread|
  {
    match s.thread[t]
    case Idle => true
    case SoftWantsPte(p) => p < |s.pte|
    case SoftWantsPfn(p, f) =>
      && p < |s.pte| && f < |s.place| && s.pteLock[p] == User(t) && s.place[f] != FreeList
      && (s.pte[p] == Transition(f) || s.pte[p].OnDisk?)
    case SoftLocked(p, f) =>
      && p < |s.pte| && f < |s.place| && s.pteLock[p] == User(t) && s.place[f] != FreeList
      && s.pfnLock[f] == User(t) && (s.pte[p] == Transition(f) || s.pte[p].OnDisk?)
    case SoftHeld(p, f) =>
      && p < |s.pte| && f < |s.place| && s.pteLock[p] == User(t)
      && s.pte[p] == Transition(f) && s.place[f] == Rescued(t)
    case SoftMapped(p, f) =>
      && p < |s.pte| && f < |s.place| && s.pteLock[p] == User(t)
      && s.pte[p] == Transition(f) && s.place[f] == Rescued(t)
    case HardWantsPfn(p, f) =>
      p < |s.pte| && f < |s.place| && s.place[f] == Hand(t) && |s.cache[t]| < FREE_PAGE_CACHE_SIZE
    case HardLocked(p, f) =>
      p < |s.pte| && f < |s.place| && s.place[f] == Hand(t) && |s.cache[t]| < FREE_PAGE_CACHE_SIZE
    case HardMapped(p, f, filled) =>
      && p < |s.pte| && f < |s.place| && s.place[f] == Hand(t) && filled <= s.words
      && s.pteLock[p] == User(t) && (s.pte[p].OnDisk? || s.pte[p].Zeroed?)
    case HardFilled(p, f) =>
      && p < |s.pte| && f < |s.place| && s.place[f] == Hand(t)
      && s.pteLock[p] == User(t) && (s.pte[p].OnDisk? || s.pte[p].Zeroed?)
    case Repurposing(batch) =>
      && batch != {} && |s.cache[t]| + |batch| <= STANDBY_BATCH_SIZE
      && forall f :: f in batch ==> f < |s.place| && s.place[f] == Repurposed(t)
  }

  ghost predicate TrimOk(s: State)
    requires Shape(s)
  {
    s.trim.Scanning? && s.trim.cur.Some? ==>
      var p := s.trim.cur.value;
      p < |s.pte| && s.pteLock[p] == Trimmer && s.pte[p].Valid?
  }

  ghost predicate WriterOk(s: State)
    requires Shape(s)
  {
    match s.writer
    case Gathering(target, gathered, batch) =>
      && |batch| + |gathered| <= target <= s.stashed
      && (forall f :: f in gathered ==> f < |s.place| && s.place[f] == Gathered)
      && (forall i :: 0 <= i < |batch| ==> batch[i] < |s.place| && s.place[batch[i]] != FreeList)
    case Copying(batch, next, slot, copied, locked) =>
      && next <= |batch|
      && (forall i :: 0 <= i < |batch| ==> batch[i] < |s.place| && s.place[batch[i]] != FreeList)
      && (locked ==> slot.Some? && next < |batch| && copied == s.words && s.pfnLock[batch[next]] == Writer
                     && s.place[batch[next]] != Written)
      && |batch| - next - (if slot.Some? then 1 else 0) <= s.stashed
      && (slot.Some? ==>
            next < |batch| && slot.value < |s.owner| && s.owner[slot.value] == InFlight && copied <= s.words)
    case _ => true
  }

  /** Copies on disk are exact, as far as they have been made. */
  ghost predicate DataOk(s: State)
    requires Shape(s)
  {
    && (forall f :: 0 <= f < |s.place| && HasCopy(s.place[f]) ==>
          s.status[f].Standby? && s.status[f].slot < |s.disk| && s.disk[s.status[f].slot] == s.mem[f])
    && (s.writer.Copying? && s.writer.slot.Some? ==>
          var Copying(batch, next, slot, copied, _) := s.writer;
          && next < |batch| && batch[next] < |s.place| && slot.value < |s.disk| && copied <= s.words
          && (s.place[batch[next]].WriteBatch? ==>
                forall j :: 0 <= j < copied ==> s.disk[slot.value][j] == s.mem[batch[next]][j]))
  }

  ghost predicate CountersOk(s: State) {
    && s.emptySlots == multiset(s.owner)[Unused]
    && s.stashed == multiset(s.owner)[Stashed]
  }

  ghost predicate FramesOk(s: State)
    requires Shape(s)
  {
    forall f :: 0 <= f < |s.place| ==> FrameOk(s, f)
  }

  ghost predicate PtesOk(s: State)
    requires Shape(s)
  {
    forall p :: 0 <= p < |s.pte| ==> PteOk(s, p)
  }

  ghost predicate SlotsOk(s: State)
    requires Shape(s)
  {
    forall d :: 0 <= d < |s.owner| ==> SlotOk(s, d)
  }

  ghost predicate ThreadsOk(s: State)
    requires Shape(s)
  {
    forall t :: 0 <= t < |s.thread| ==> ThreadOk(s, t)
  }

  /** What every step keeps. */
  ghost predicate Inv(s: State) {
    && Shape(s)
    && FramesOk(s)
    && PtesOk(s)
    && SlotsOk(s)
    && ThreadsOk(s)
    && TrimOk(s)
    && WriterOk(s)
    && DataOk(s)
    && CountersOk(s)
  }
}
