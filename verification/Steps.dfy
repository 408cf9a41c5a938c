/** The atomic steps of the protocol: one per lock-protected region of the fault
    handler, the trimmer and the writer. A run is any interleaving of steps. */
module Steps {
  import opened Types
  import opened VmState

  /** Steps of the user threads: accesses and fault handling. */
  datatype FaultLabel =
    | UserWrite(p: nat, off: nat, v: bv64)
    | SoftStart(t: nat, p: nat)
    | SoftLockPte(t: nat)
    | SoftLockPfn(t: nat)
    | SoftRecheck(t: nat)
    | SoftMap(t: nat)
    | SoftFinish(t: nat)
    | HardPop(t: nat, p: nat, f: nat)
    | HardLockPfn(t: nat)
    | HardLockPte(t: nat)
    | HardFill(t: nat)
    | HardClear(t: nat)
    | HardFinish(t: nat)
    | Refill(t: nat, pages: set<nat>)
    | RepurposeTake(t: nat, pages: set<nat>)
    | RepurposeOne(t: nat, f: nat)

  /** Steps of the one trimming thread. */
  datatype TrimLabel =
    | TrimLockPte(p: nat)
    | TrimLockPfn
    | TrimUnmap
    | TrimMark(f: nat)
    | TrimSplice
    | TrimUnlock(f: nat)
    | TrimEnd

  /** Steps of the one writing thread. */
  datatype WriteLabel =
    | WriteAlloc(d: nat)
    | WriteStart(target: nat)
    | GatherTake(pages: set<nat>)
    | GatherMark(f: nat)
    | WriteBegin
    | PopSlot(d: nat)
    | CopyWord
    | WriteLock
    | WriteSettle
    | WriteSplice
    | WriteUnlock(f: nat)
    | WriteEnd

  /** Steps of list operations on pages other than their own, by any thread. */
  datatype ListLabel =
    | Borrow(f: nat)
    | Return(f: nat)

  datatype Label =
    | ByUser(user: FaultLabel)
    | ByTrimmer(trim: TrimLabel)
    | ByWriter(write: WriteLabel)
    | OnList(list: ListLabel)

  // ---------- User accesses ----------

  predicate UserWriteEnabled(s: State, p: nat, off: nat) {
    p < |s.mapped| && s.mapped[p].Some? && off < s.words
  }

  /** A store through the mapping the processor has for the address. */
  ghost function UserWriteStep(s: State, p: nat, off: nat, v: bv64): State
    requires Inv(s) && UserWriteEnabled(s, p, off)
  {
    MappedInRange(s, p);
    var f := s.mapped[p].value;
    s.(mem := s.mem[f := s.mem[f][off := v]])
  }

  lemma MappedInRange(s: State, p: nat)
    requires Inv(s) && p < |s.mapped| && s.mapped[p].Some?
    ensures s.mapped[p].value < |s.mem|
  {
    assert PteOk(s, p);
    if s.pte[p].OnDisk? || s.pte[p].Zeroed? {
      assert ThreadOk(s, s.pteLock[p].t);
    }
  }

  // ---------- Soft faults ----------

  predicate SoftStartEnabled(s: State, t: nat, p: nat) {
    t < |s.thread| && p < |s.pte| && s.thread[t].Idle?
  }

  ghost function SoftStartStep(s: State, t: nat, p: nat): State
    requires Inv(s) && SoftStartEnabled(s, t, p)
  {
    s.(thread := s.thread[t := SoftWantsPte(p)])
  }

  predicate SoftLockPteEnabled(s: State, t: nat) {
    && t < |s.thread| && s.thread[t].SoftWantsPte?
    && s.thread[t].p < |s.pteLock| && s.pteLock[s.thread[t].p] == Nobody
  }

  /** The entry is in transition: keep its lock and go on to lock the page it names. */
  ghost function SoftSnapshotStep(s: State, t: nat): State
    requires Inv(s) && SoftLockPteEnabled(s, t) && s.pte[s.thread[t].p].Transition?
  {
    var p := s.thread[t].p;
    s.(pteLock := s.pteLock[p := User(t)], thread := s.thread[t := SoftWantsPfn(p, s.pte[p].frame)])
  }

  /** Somebody else changed the entry: release it and try again. */
  ghost function SoftMissStep(s: State, t: nat): State
    requires Inv(s) && SoftLockPteEnabled(s, t) && !s.pte[s.thread[t].p].Transition?
  {
    s.(thread := s.thread[t := Idle])
  }

  ghost function SoftLockPteStep(s: State, t: nat): State
    requires Inv(s) && SoftLockPteEnabled(s, t)
  {
    if s.pte[s.thread[t].p].Transition? then SoftSnapshotStep(s, t) else SoftMissStep(s, t)
  }

  predicate SoftLockPfnEnabled(s: State, t: nat) {
    && t < |s.thread| && s.thread[t].SoftWantsPfn?
    && s.thread[t].f < |s.pfnLock| && s.pfnLock[s.thread[t].f] == Nobody
  }

  /** The page is locked. Until the entry is read again it may be somebody else's page. */
  ghost function SoftLockPfnStep(s: State, t: nat): State
    requires Inv(s) && SoftLockPfnEnabled(s, t)
  {
    var SoftWantsPfn(p, f) := s.thread[t];
    s.(pfnLock := s.pfnLock[f := User(t)], thread := s.thread[t := SoftLocked(p, f)])
  }

  predicate SoftRecheckEnabled(s: State, t: nat) {
    t < |s.thread| && s.thread[t].SoftLocked?
  }

  /** The page was given away while the thread waited for it: release both locks. */
  ghost function SoftYieldStep(s: State, t: nat): State
    requires Inv(s) && SoftRecheckEnabled(s, t) && LostPage(s, t)
  {
    assert ThreadOk(s, t);
    var SoftLocked(p, f) := s.thread[t];
    s.(pfnLock := s.pfnLock[f := Nobody], pteLock := s.pteLock[p := Nobody], thread := s.thread[t := Idle])
  }

  predicate LostPage(s: State, t: nat) {
    t < |s.thread| && s.thread[t].SoftLocked? && s.thread[t].p < |s.pte| && s.pte[s.thread[t].p].OnDisk?
  }

  /** Take the page off whatever list it is on; a standby page gives up its disk copy. */
  ghost function SoftRescueStep(s: State, t: nat): State
    requires Inv(s) && SoftRecheckEnabled(s, t) && !LostPage(s, t)
  {
    assert ThreadOk(s, t);
    var SoftLocked(p, f) := s.thread[t];
    var s1 := if s.status[f].Standby? then ClearSlot(s, s.status[f].slot) else s;
    s1.(place := s.place[f := Rescued(t)], thread := s.thread[t := SoftHeld(p, f)])
  }

  /** With the page lock held the entry is read again. */
  ghost function SoftRecheckStep(s: State, t: nat): State
    requires Inv(s) && SoftRecheckEnabled(s, t)
  {
    if LostPage(s, t) then SoftYieldStep(s, t) else SoftRescueStep(s, t)
  }

  /** clear_disk_slot, with the slot's owner forgotten. */
  function ClearSlot(s: State, d: nat): State {
    if d < |s.bit| && d < |s.owner| then
      s.(bit := s.bit[d := false], owner := s.owner[d := Unused], emptySlots := s.emptySlots + 1)
    else s
  }

  predicate SoftMapEnabled(s: State, t: nat) {
    t < |s.thread| && s.thread[t].SoftHeld?
  }

  ghost function SoftMapStep(s: State, t: nat): State
    requires Inv(s) && SoftMapEnabled(s, t)
  {
    assert ThreadOk(s, t);
    var SoftHeld(p, f) := s.thread[t];
    s.(mapped := s.mapped[p := Some(s.pte[p].frame)], thread := s.thread[t := SoftMapped(p, f)])
  }

  predicate SoftFinishEnabled(s: State, t: nat) {
    t < |s.thread| && s.thread[t].SoftMapped?
  }

  ghost function SoftFinishStep(s: State, t: nat): State
    requires Inv(s) && SoftFinishEnabled(s, t)
  {
    assert ThreadOk(s, t);
    var SoftMapped(p, f) := s.thread[t];
    s.(status := s.status[f := Active], back := s.back[f := Some(p)],
       pte := s.pte[p := Valid(s.pte[p].frame)],
       pfnLock := s.pfnLock[f := Nobody], pteLock := s.pteLock[p := Nobody],
       place := s.place[f := Resident], thread := s.thread[t := Idle])
  }

  // ---------- Hard faults ----------

  predicate HardPopEnabled(s: State, t: nat, p: nat, f: nat) {
    t < |s.thread| && t < |s.cache| && p < |s.pte| && s.thread[t].Idle? && f in s.cache[t]
  }

  ghost function HardPopStep(s: State, t: nat, p: nat, f: nat): State
    requires Inv(s) && HardPopEnabled(s, t, p, f)
  {
    assert ThreadOk(s, t);
    s.(cache := s.cache[t := s.cache[t] - {f}], place := s.place[f := Hand(t)],
        thread := s.thread[t := HardWantsPfn(p, f)])
  }

  predicate HardLockPfnEnabled(s: State, t: nat) {
    && t < |s.thread| && s.thread[t].HardWantsPfn?
    && s.thread[t].f < |s.pfnLock| && s.pfnLock[s.thread[t].f] == Nobody
  }

  ghost function HardLockPfnStep(s: State, t: nat): State
    requires Inv(s) && HardLockPfnEnabled(s, t)
  {
    var HardWantsPfn(p, f) := s.thread[t];
    s.(pfnLock := s.pfnLock[f := User(t)], thread := s.thread[t := HardLocked(p, f)])
  }

  predicate HardLockPteEnabled(s: State, t: nat) {
    t < |s.thread| && s.thread[t].HardLocked?
  }

  /** The entry is locked, or no longer faults. */
  predicate HardTooLate(s: State, t: nat) {
    && t < |s.thread| && s.thread[t].HardLocked? && s.thread[t].p < |s.pte| && s.thread[t].p < |s.pteLock|
    && (s.pteLock[s.thread[t].p] != Nobody || s.pte[s.thread[t].p].Valid? || s.pte[s.thread[t].p].Transition?)
  }

  /** The page goes back to the thread's own cache. */
  ghost function HardGiveBackStep(s: State, t: nat): State
    requires Inv(s) && HardLockPteEnabled(s, t) && HardTooLate(s, t)
  {
    assert ThreadOk(s, t);
    var f := s.thread[t].f;
    s.(cache := s.cache[t := s.cache[t] + {f}], place := s.place[f := Cache(t)],
       status := s.status[f := Free], back := s.back[f := None],
       pfnLock := s.pfnLock[f := Nobody], thread := s.thread[t := Idle])
  }

  /** Both the kernel's and the user's address are mapped to the page, before it is filled. */
  ghost function HardMapStep(s: State, t: nat): State
    requires Inv(s) && HardLockPteEnabled(s, t) && !HardTooLate(s, t)
  {
    assert ThreadOk(s, t);
    var HardLocked(p, f) := s.thread[t];
    s.(pteLock := s.pteLock[p := User(t)], mapped := s.mapped[p := Some(f)],
        thread := s.thread[t := HardMapped(p, f, 0)])
  }

  /** The entry lock is only tried for. */
  ghost function HardLockPteStep(s: State, t: nat): State
    requires Inv(s) && HardLockPteEnabled(s, t)
  {
    assert ThreadOk(s, t);
    if HardTooLate(s, t) then HardGiveBackStep(s, t) else HardMapStep(s, t)
  }

  predicate HardFillEnabled(s: State, t: nat) {
    t < |s.thread| && s.thread[t].HardMapped? && s.thread[t].filled < s.words
  }

  /** One word of the page is read back from its slot, or zeroed. */
  ghost function HardFillStep(s: State, t: nat): State
    requires Inv(s) && HardFillEnabled(s, t)
  {
    assert ThreadOk(s, t);
    var HardMapped(p, f, k) := s.thread[t];
    assert PteOk(s, p);
    var w := if s.pte[p].OnDisk? then s.disk[s.pte[p].slot][k] else 0;
    s.(mem := s.mem[f := s.mem[f][k := w]], thread := s.thread[t := HardMapped(p, f, k + 1)])
  }

  predicate HardClearEnabled(s: State, t: nat) {
    t < |s.thread| && s.thread[t].HardMapped? && s.thread[t].filled == s.words
  }

  /** The fault is on a page that was written out. */
  predicate FaultsOnDisk(s: State, t: nat) {
    t < |s.thread| && s.thread[t].HardMapped? && s.thread[t].p < |s.pte| && s.pte[s.thread[t].p].OnDisk?
  }

  /** The slot of a page that was read back is freed. Its entry still names it. */
  ghost function HardClearStep(s: State, t: nat): State
    requires Inv(s) && HardClearEnabled(s, t)
  {
    assert ThreadOk(s, t);
    var HardMapped(p, f, _) := s.thread[t];
    var s1 := if FaultsOnDisk(s, t) then ClearSlot(s, s.pte[p].slot) else s;
    s1.(thread := s.thread[t := HardFilled(p, f)])
  }

  predicate HardFinishEnabled(s: State, t: nat) {
    t < |s.thread| && s.thread[t].HardFilled?
  }

  /** A page becomes resident and both locks are released. */
  function MakeResident(s: State, t: nat, p: nat, f: nat): State {
    if p < |s.pte| && p < |s.pteLock| && f < |s.status| && f < |s.back| && f < |s.pfnLock| && f < |s.place|
        && t < |s.thread| then
      s.(pte := s.pte[p := Valid(f)], status := s.status[f := Active], back := s.back[f := Some(p)],
         pfnLock := s.pfnLock[f := Nobody], pteLock := s.pteLock[p := Nobody],
         place := s.place[f := Resident], thread := s.thread[t := Idle])
    else s
  }

  /** The filled page becomes the entry's. */
  ghost function HardFinishStep(s: State, t: nat): State
    requires Inv(s) && HardFinishEnabled(s, t)
  {
    assert ThreadOk(s, t);
    MakeResident(s, t, s.thread[t].p, s.thread[t].f)
  }

  /** The entries of a table for the frames in pages, all set to x. */
  function SetAll<T>(table: seq<T>, pages: set<nat>, x: T): (r: seq<T>)
    ensures |r| == |table| && forall f :: 0 <= f < |table| ==> r[f] == if f in pages then x else table[f]
  {
    seq(|table|, f requires 0 <= f < |table| => if f in pages then x else table[f])
  }

  predicate RefillEnabled(s: State, t: nat, pages: set<nat>) {
    && t < |s.thread| && t < |s.cache| && s.thread[t].Idle? && s.cache[t] == {}
    && 0 < |pages| <= FREE_PAGE_CACHE_SIZE
    && forall f :: f in pages ==> f < |s.place| && s.place[f].FreeList?
  }

  ghost function RefillStep(s: State, t: nat, pages: set<nat>): State
    requires Inv(s) && RefillEnabled(s, t, pages)
  {
    s.(cache := s.cache[t := pages], place := SetAll(s.place, pages, Cache(t)))
  }

  predicate RepurposeTakeEnabled(s: State, t: nat, pages: set<nat>) {
    && t < |s.thread| && t < |s.cache| && s.thread[t].Idle? && s.cache[t] == {}
    && 0 < |pages| <= STANDBY_BATCH_SIZE
    && forall f :: f in pages ==> f < |s.place| && f < |s.pfnLock| && s.place[f].StandbyList? && s.pfnLock[f] == Nobody
  }

  ghost function RepurposeTakeStep(s: State, t: nat, pages: set<nat>): State
    requires Inv(s) && RepurposeTakeEnabled(s, t, pages)
  {
    s.(place := SetAll(s.place, pages, Repurposed(t)), pfnLock := SetAll(s.pfnLock, pages, User(t)),
       thread := s.thread[t := Repurposing(pages)])
  }

  predicate RepurposeOneEnabled(s: State, t: nat, f: nat) {
    t < |s.thread| && s.thread[t].Repurposing? && f in s.thread[t].batch
  }

  /** The old owner's entry is rewritten without its lock. */
  ghost function RepurposeOneStep(s: State, t: nat, f: nat): State
    requires Inv(s) && RepurposeOneEnabled(s, t, f)
  {
    assert ThreadOk(s, t);
    assert FrameOk(s, f);
    var p := s.back[f].value;
    var d := s.status[f].slot;
    var rest := s.thread[t].batch - {f};
    s.(pte := s.pte[p := OnDisk(d)], owner := s.owner[d := OfPte(p)],
       cache := s.cache[t := s.cache[t] + {f}], place := s.place[f := Cache(t)],
       status := s.status[f := Free], back := s.back[f := None], pfnLock := s.pfnLock[f := Nobody],
       thread := s.thread[t := if rest == {} then Idle else Repurposing(rest)])
  }

  // ---------- Trimmer ----------

  predicate TrimLockPteEnabled(s: State, p: nat) {
    && s.trim == Scanning(None)
    && p < |s.pte| && p < |s.pteLock| && s.pte[p].Valid? && s.pteLock[p] == Nobody
  }

  ghost function TrimLockPteStep(s: State, p: nat): State
    requires Inv(s) && TrimLockPteEnabled(s, p)
  {
    s.(pteLock := s.pteLock[p := Trimmer], trim := Scanning(Some(p)))
  }

  predicate TrimLockPfnEnabled(s: State) {
    && s.trim.Scanning? && s.trim.cur.Some?
    && s.trim.cur.value < |s.pte| && s.pte[s.trim.cur.value].Valid?
    && s.pte[s.trim.cur.value].frame < |s.pfnLock| && s.pfnLock[s.pte[s.trim.cur.value].frame] == Nobody
  }

  ghost function TrimLockPfnStep(s: State): State
    requires Inv(s) && TrimLockPfnEnabled(s)
  {
    var p := s.trim.cur.value;
    var f := s.pte[p].frame;
    s.(pfnLock := s.pfnLock[f := Trimmer], pte := s.pte[p := Transition(f)],
       pteLock := s.pteLock[p := Nobody], place := s.place[f := TrimBatch], trim := Scanning(None))
  }

  predicate TrimUnmapEnabled(s: State) {
    s.trim == Scanning(None)
  }

  ghost predicate InTrimBatch(s: State, p: nat)
    requires Shape(s) && p < |s.pte|
  {
    s.pte[p].Transition? && s.pte[p].frame < |s.place| && s.place[s.pte[p].frame].TrimBatch?
  }

  ghost function TrimUnmapStep(s: State): State
    requires Inv(s) && TrimUnmapEnabled(s)
  {
    s.(mapped := seq(|s.pte|, p requires 0 <= p < |s.pte| => if InTrimBatch(s, p) then None else s.mapped[p]),
       trim := Marking)
  }

  predicate TrimMarkEnabled(s: State, f: nat) {
    s.trim.Marking? && f < |s.place| && f < |s.status| && s.place[f].TrimBatch?
  }

  ghost function TrimMarkStep(s: State, f: nat): State
    requires Inv(s) && TrimMarkEnabled(s, f)
  {
    s.(status := s.status[f := Modified])
  }

  predicate TrimSpliceEnabled(s: State) {
    && s.trim.Marking? && |s.status| == |s.place|
    && forall f :: 0 <= f < |s.place| && s.place[f].TrimBatch? ==> s.status[f] == Modified
  }

  ghost function TrimSpliceStep(s: State): State
    requires Inv(s) && TrimSpliceEnabled(s)
  {
    s.(place := SetAll(s.place, (set f | 0 <= f < |s.place| && s.place[f].TrimBatch?), ModifiedList), trim := Releasing)
  }

  predicate TrimUnlockEnabled(s: State, f: nat) {
    s.trim.Releasing? && f < |s.pfnLock| && s.pfnLock[f] == Trimmer
  }

  ghost function TrimUnlockStep(s: State, f: nat): State
    requires Inv(s) && TrimUnlockEnabled(s, f)
  {
    s.(pfnLock := s.pfnLock[f := Nobody])
  }

  predicate TrimEndEnabled(s: State) {
    s.trim.Releasing? && forall f :: 0 <= f < |s.pfnLock| ==> s.pfnLock[f] != Trimmer
  }

  ghost function TrimEndStep(s: State): State
    requires Inv(s) && TrimEndEnabled(s)
  {
    s.(trim := Scanning(None))
  }

  // ---------- Writer ----------

  predicate WriteAllocEnabled(s: State, d: nat) {
    s.writer.Resting? && d < |s.bit| && d < |s.owner| && !s.bit[d]
  }

  /** set_disk_slot and push_slot. */
  ghost function WriteAllocStep(s: State, d: nat): State
    requires Inv(s) && WriteAllocEnabled(s, d)
  {
    s.(bit := s.bit[d := true], owner := s.owner[d := Stashed], emptySlots := s.emptySlots - 1,
        stashed := s.stashed + 1)
  }

  predicate WriteStartEnabled(s: State, target: nat) {
    s.writer.Resting? && 0 < target <= MAX_WRITE_BATCH_SIZE && target <= s.stashed
  }

  ghost function WriteStartStep(s: State, target: nat): State
    requires Inv(s) && WriteStartEnabled(s, target)
  {
    s.(writer := Gathering(target, {}, []))
  }

  predicate GatherTakeEnabled(s: State, pages: set<nat>) {
    && s.writer.Gathering? && s.writer.gathered == {}
    && 0 < |pages| && |s.writer.batch| + |pages| <= s.writer.target
    && forall f :: f in pages ==> f < |s.place| && f < |s.pfnLock| && s.place[f].ModifiedList? && s.pfnLock[f] == Nobody
  }

  ghost function GatherTakeStep(s: State, pages: set<nat>): State
    requires Inv(s) && GatherTakeEnabled(s, pages)
  {
    s.(place := SetAll(s.place, pages, Gathered), pfnLock := SetAll(s.pfnLock, pages, Writer),
       writer := s.writer.(gathered := pages))
  }

  predicate GatherMarkEnabled(s: State, f: nat) {
    s.writer.Gathering? && f in s.writer.gathered
  }

  ghost function GatherMarkStep(s: State, f: nat): State
    requires Inv(s) && GatherMarkEnabled(s, f)
  {
    s.(status := s.status[f := MidWrite], place := s.place[f := WriteBatch], pfnLock := s.pfnLock[f := Nobody],
       writer := s.writer.(gathered := s.writer.gathered - {f}, batch := s.writer.batch + [f]))
  }

  predicate WriteBeginEnabled(s: State) {
    s.writer.Gathering? && s.writer.gathered == {}
  }

  ghost function WriteBeginStep(s: State): State
    requires Inv(s) && WriteBeginEnabled(s)
  {
    s.(writer := if s.writer.batch == [] then Resting else Copying(s.writer.batch, 0, None, 0, false))
  }

  predicate PopSlotEnabled(s: State, d: nat) {
    && s.writer.Copying? && s.writer.slot == None && s.writer.next < |s.writer.batch|
    && d < |s.owner| && s.owner[d].Stashed?
  }

  ghost function PopSlotStep(s: State, d: nat): State
    requires Inv(s) && PopSlotEnabled(s, d)
  {
    s.(owner := s.owner[d := InFlight], stashed := s.stashed - 1, writer := s.writer.(slot := Some(d), copied := 0))
  }

  predicate CopyWordEnabled(s: State) {
    s.writer.Copying? && s.writer.slot.Some? && s.writer.copied < s.words
  }

  /** One word of the writer's copy, made without the page lock. */
  ghost function CopyWordStep(s: State): State
    requires Inv(s) && CopyWordEnabled(s)
  {
    var Copying(batch, next, slot, copied, _) := s.writer;
    var d := slot.value;
    s.(disk := s.disk[d := s.disk[d][copied := s.mem[batch[next]][copied]]], writer := s.writer.(copied := copied + 1))
  }

  predicate WriteLockEnabled(s: State) {
    && s.writer.Copying? && s.writer.slot.Some? && s.writer.copied == s.words && !s.writer.locked
    && s.writer.next < |s.writer.batch| && s.writer.batch[s.writer.next] < |s.pfnLock|
    && s.pfnLock[s.writer.batch[s.writer.next]] == Nobody
  }

  /** The page is locked again, whoever has it by now. */
  ghost function WriteLockStep(s: State): State
    requires Inv(s) && WriteLockEnabled(s)
  {
    s.(pfnLock := s.pfnLock[s.writer.batch[s.writer.next] := Writer], writer := s.writer.(locked := true))
  }

  predicate WriteSettleEnabled(s: State) {
    s.writer.Copying? && s.writer.locked
  }

  /** Nobody took the page since it was gathered. */
  predicate StillMidWrite(s: State) {
    && s.writer.Copying? && s.writer.next < |s.writer.batch|
    && s.writer.batch[s.writer.next] < |s.status| && s.status[s.writer.batch[s.writer.next]].MidWrite?
  }

  /** The copy counts: the page keeps its lock and goes on the writer's temporary list. */
  ghost function WriteCommitStep(s: State): State
    requires Inv(s) && WriteSettleEnabled(s) && StillMidWrite(s)
  {
    var Copying(batch, next, slot, _, _) := s.writer;
    var f, d := batch[next], slot.value;
    s.(status := s.status[f := Standby(d)], owner := s.owner[d := OfFrame(f)], place := s.place[f := Written],
       writer := Copying(batch, next + 1, None, 0, false))
  }

  /** A soft fault took the page: its lock and the slot are given back and the page is left alone. */
  ghost function WriteUndoStep(s: State): State
    requires Inv(s) && WriteSettleEnabled(s) && !StillMidWrite(s)
  {
    var Copying(batch, next, slot, _, _) := s.writer;
    ClearSlot(s, slot.value).(pfnLock := s.pfnLock[batch[next] := Nobody],
                              writer := Copying(batch, next + 1, None, 0, false))
  }

  /** The locked page's status decides whether the copy counts. */
  ghost function WriteSettleStep(s: State): State
    requires Inv(s) && WriteSettleEnabled(s)
  {
    if StillMidWrite(s) then WriteCommitStep(s) else WriteUndoStep(s)
  }

  predicate WriteSpliceEnabled(s: State) {
    s.writer.Copying? && s.writer.slot == None && s.writer.next == |s.writer.batch|
  }

  ghost function WriteSpliceStep(s: State): State
    requires Inv(s) && WriteSpliceEnabled(s)
  {
    s.(place := SetAll(s.place, (set f | 0 <= f < |s.place| && s.place[f].Written?), StandbyList), writer := Publishing)
  }

  predicate WriteUnlockEnabled(s: State, f: nat) {
    s.writer.Publishing? && f < |s.pfnLock| && s.pfnLock[f] == Writer
  }

  ghost function WriteUnlockStep(s: State, f: nat): State
    requires Inv(s) && WriteUnlockEnabled(s, f)
  {
    s.(pfnLock := s.pfnLock[f := Nobody])
  }

  predicate WriteEndEnabled(s: State) {
    s.writer.Publishing? && forall f :: 0 <= f < |s.pfnLock| ==> s.pfnLock[f] != Writer
  }

  ghost function WriteEndStep(s: State): State
    requires Inv(s) && WriteEndEnabled(s)
  {
    s.(writer := Resting)
  }

  // ---------- Neighbours in list operations ----------

  predicate BorrowEnabled(s: State, f: nat) {
    && f < |s.place| && f < |s.pfnLock|
    && (s.place[f].ModifiedList? || s.place[f].StandbyList?) && s.pfnLock[f] == Nobody
  }

  /** A try-lock on a page of a list, next to the pages that the operation is about. The thread that
      makes it only tries for locks until it has returned this one. */
  ghost function BorrowStep(s: State, f: nat): State
    requires Inv(s) && BorrowEnabled(s, f)
  {
    s.(pfnLock := s.pfnLock[f := Listing])
  }

  predicate ReturnEnabled(s: State, f: nat) {
    f < |s.pfnLock| && s.pfnLock[f] == Listing
  }

  ghost function ReturnStep(s: State, f: nat): State
    requires Inv(s) && ReturnEnabled(s, f)
  {
    s.(pfnLock := s.pfnLock[f := Nobody])
  }

  // ---------- Runs ----------

  ghost predicate UserEnabled(s: State, l: FaultLabel) {
    match l
    case UserWrite(p, off, _) => UserWriteEnabled(s, p, off)
    case SoftStart(t, p) => SoftStartEnabled(s, t, p)
    case SoftLockPte(t) => SoftLockPteEnabled(s, t)
    case SoftLockPfn(t) => SoftLockPfnEnabled(s, t)
    case SoftRecheck(t) => SoftRecheckEnabled(s, t)
    case SoftMap(t) => SoftMapEnabled(s, t)
    case SoftFinish(t) => SoftFinishEnabled(s, t)
    case HardPop(t, p, f) => HardPopEnabled(s, t, p, f)
    case HardLockPfn(t) => HardLockPfnEnabled(s, t)
    case HardLockPte(t) => HardLockPteEnabled(s, t)
    case HardFill(t) => HardFillEnabled(s, t)
    case HardClear(t) => HardClearEnabled(s, t)
    case HardFinish(t) => HardFinishEnabled(s, t)
    case Refill(t, pages) => RefillEnabled(s, t, pages)
    case RepurposeTake(t, pages) => RepurposeTakeEnabled(s, t, pages)
    case RepurposeOne(t, f) => RepurposeOneEnabled(s, t, f)
  }

  ghost function UserApply(s: State, l: FaultLabel): State
    requires Inv(s) && UserEnabled(s, l)
  {
    match l
    case UserWrite(p, off, v) => UserWriteStep(s, p, off, v)
    case SoftStart(t, p) => SoftStartStep(s, t, p)
    case SoftLockPte(t) => SoftLockPteStep(s, t)
    case SoftLockPfn(t) => SoftLockPfnStep(s, t)
    case SoftRecheck(t) => SoftRecheckStep(s, t)
    case SoftMap(t) => SoftMapStep(s, t)
    case SoftFinish(t) => SoftFinishStep(s, t)
    case HardPop(t, p, f) => HardPopStep(s, t, p, f)
    case HardLockPfn(t) => HardLockPfnStep(s, t)
    case HardLockPte(t) => HardLockPteStep(s, t)
    case HardFill(t) => HardFillStep(s, t)
    case HardClear(t) => HardClearStep(s, t)
    case HardFinish(t) => HardFinishStep(s, t)
    case Refill(t, pages) => RefillStep(s, t, pages)
    case RepurposeTake(t, pages) => RepurposeTakeStep(s, t, pages)
    case RepurposeOne(t, f) => RepurposeOneStep(s, t, f)
  }

  ghost predicate TrimEnabled(s: State, l: TrimLabel) {
    match l
    case TrimLockPte(p) => TrimLockPteEnabled(s, p)
    case TrimLockPfn => TrimLockPfnEnabled(s)
    case TrimUnmap => TrimUnmapEnabled(s)
    case TrimMark(f) => TrimMarkEnabled(s, f)
    case TrimSplice => TrimSpliceEnabled(s)
    case TrimUnlock(f) => TrimUnlockEnabled(s, f)
    case TrimEnd => TrimEndEnabled(s)
  }

  ghost function TrimApply(s: State, l: TrimLabel): State
    requires Inv(s) && TrimEnabled(s, l)
  {
    match l
    case TrimLockPte(p) => TrimLockPteStep(s, p)
    case TrimLockPfn => TrimLockPfnStep(s)
    case TrimUnmap => TrimUnmapStep(s)
    case TrimMark(f) => TrimMarkStep(s, f)
    case TrimSplice => TrimSpliceStep(s)
    case TrimUnlock(f) => TrimUnlockStep(s, f)
    case TrimEnd => TrimEndStep(s)
  }

  ghost predicate WriteEnabled(s: State, l: WriteLabel) {
    match l
    case WriteAlloc(d) => WriteAllocEnabled(s, d)
    case WriteStart(target) => WriteStartEnabled(s, target)
    case GatherTake(pages) => GatherTakeEnabled(s, pages)
    case GatherMark(f) => GatherMarkEnabled(s, f)
    case WriteBegin => WriteBeginEnabled(s)
    case PopSlot(d) => PopSlotEnabled(s, d)
    case CopyWord => CopyWordEnabled(s)
    case WriteLock => WriteLockEnabled(s)
    case WriteSettle => WriteSettleEnabled(s)
    case WriteSplice => WriteSpliceEnabled(s)
    case WriteUnlock(f) => WriteUnlockEnabled(s, f)
    case WriteEnd => WriteEndEnabled(s)
  }

  ghost function WriteApply(s: State, l: WriteLabel): State
    requires Inv(s) && WriteEnabled(s, l)
  {
    match l
    case WriteAlloc(d) => WriteAllocStep(s, d)
    case WriteStart(target) => WriteStartStep(s, target)
    case GatherTake(pages) => GatherTakeStep(s, pages)
    case GatherMark(f) => GatherMarkStep(s, f)
    case WriteBegin => WriteBeginStep(s)
    case PopSlot(d) => PopSlotStep(s, d)
    case CopyWord => CopyWordStep(s)
    case WriteLock => WriteLockStep(s)
    case WriteSettle => WriteSettleStep(s)
    case WriteSplice => WriteSpliceStep(s)
    case WriteUnlock(f) => WriteUnlockStep(s, f)
    case WriteEnd => WriteEndStep(s)
  }

  predicate ListEnabled(s: State, l: ListLabel) {
    match l
    case Borrow(f) => BorrowEnabled(s, f)
    case Return(f) => ReturnEnabled(s, f)
  }

  ghost function ListApply(s: State, l: ListLabel): State
    requires Inv(s) && ListEnabled(s, l)
  {
    match l
    case Borrow(f) => BorrowStep(s, f)
    case Return(f) => ReturnStep(s, f)
  }

  ghost predicate Enabled(s: State, l: Label) {
    match l
    case ByUser(u) => UserEnabled(s, u)
    case ByTrimmer(u) => TrimEnabled(s, u)
    case ByWriter(u) => WriteEnabled(s, u)
    case OnList(u) => ListEnabled(s, u)
  }

  ghost function Apply(s: State, l: Label): State
    requires Inv(s) && Enabled(s, l)
  {
    match l
    case ByUser(u) => UserApply(s, u)
    case ByTrimmer(u) => TrimApply(s, u)
    case ByWriter(u) => WriteApply(s, u)
    case OnList(u) => ListApply(s, u)
  }
}
