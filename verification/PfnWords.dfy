/** The word of a page frame that holds its lock, disk index and status together. */
module PfnWords {
  import Types

  // From the low end: 16 lock bits, 40 bits of disk index, 3 bits of status, 5 reserved bits. A setter reads the
  // whole word, builds a new one and writes it back with an ordinary store, so it also rewrites the lock; the
  // lock itself changes by interlocked operations of any thread.

  const LOW40: bv64 := 0xFF_FFFF_FFFF

  function LockBits(w: bv64): bv64 { w & 0xFFFF }

  function DiskIndex(w: bv64): bv64 { (w >> 16) & 0xFF_FFFF_FFFF }

  function StatusBits(w: bv64): bv64 { (w >> 56) & 7 }

  const NOBODY: int := -1

  const FREE: bv64 := 0
  const ACTIVE: bv64 := 1
  const MID_TRIM: bv64 := 2
  const MODIFIED: bv64 := 3
  const MID_WRITE: bv64 := 4
  const STANDBY: bv64 := 5

  // ---------- Setters ----------

  /** The word every setter builds: zero, with three fields assigned. */
  function Build(lock: bv64, status: bv64, disk: bv64): bv64 {
    (lock & 0xFFFF) | ((disk & 0xFF_FFFF_FFFF) << 16) | ((status & 7) << 56)
  }

  lemma BuildFields(lock: bv64, status: bv64, disk: bv64)
    ensures LockBits(Build(lock, status, disk)) == lock & 0xFFFF
    ensures DiskIndex(Build(lock, status, disk)) == disk & LOW40
    ensures StatusBits(Build(lock, status, disk)) == status & 7
  {
  }

  datatype Setter =
    | SetFree
    | SetActive
    | SetMidTrim
    | SetMidWrite
    | SetStandby(disk: bv64)
    | SetStatus(status: bv64)   // the macro, an assignment to the bit-field

  function NewStatus(setter: Setter): bv64 {
    match setter
    case SetFree => FREE
    case SetActive => ACTIVE
    case SetMidTrim => MID_TRIM
    case SetMidWrite => MID_WRITE
    case SetStandby(_) => STANDBY
    case SetStatus(status) => status & 7
  }

  function NewDisk(setter: Setter, disk: bv64): bv64 {
    match setter
    case SetFree => 0
    case SetActive => 0
    case SetStandby(d) => d & LOW40
    case _ => disk
  }

  /** What a setter writes, given the word it read. */
  function Written(setter: Setter, w: bv64): bv64 {
    if setter.SetStatus? then WithStatus(w, setter.status)
    else Build(LockBits(w), NewStatus(setter), NewDisk(setter, DiskIndex(w)))
  }

  function WithStatus(w: bv64, status: bv64): bv64 {
    (w & 0xF8FF_FFFF_FFFF_FFFF) | ((status & 7) << 56)
  }

  lemma FieldsFit(w: bv64)
    ensures LockBits(w) & 0xFFFF == LockBits(w) && DiskIndex(w) & LOW40 == DiskIndex(w)
  {
  }

  lemma NewFieldsFit(setter: Setter, disk: bv64)
    requires disk & LOW40 == disk
    ensures NewStatus(setter) & 7 == NewStatus(setter)
    ensures NewDisk(setter, disk) & LOW40 == NewDisk(setter, disk)
  {
  }

  lemma WithStatusFields(w: bv64, status: bv64)
    ensures var x := WithStatus(w, status);
            LockBits(x) == LockBits(w) && DiskIndex(x) == DiskIndex(w) && StatusBits(x) == status & 7
  {
  }

  /** Every setter keeps the lock bits it read and leaves exactly its status and disk index. */
  lemma WrittenFields(setter: Setter, w: bv64)
    ensures var x := Written(setter, w);
            LockBits(x) == LockBits(w) && StatusBits(x) == NewStatus(setter)
                && DiskIndex(x) == NewDisk(setter, DiskIndex(w))
  {
    if setter.SetStatus? {
      WithStatusFields(w, setter.status);
    } else {
      FieldsFit(w);
      NewFieldsFit(setter, DiskIndex(w));
      BuildFields(LockBits(w), NewStatus(setter), NewDisk(setter, DiskIndex(w)));
    }
  }

  // ---------- The setters as they run ----------

  function WithLock(w: bv64, lock: bv64): bv64 {
    (w & 0xFFFF_FFFF_FFFF_0000) | (lock & 0xFFFF)
  }

  function WithDisk(w: bv64, disk: bv64): bv64 {
    (w & 0xFF00_0000_0000_FFFF) | ((disk & 0xFF_FFFF_FFFF) << 16)
  }

  lemma BuiltInSteps(lock: bv64, status: bv64, disk: bv64)
    ensures WithDisk(WithStatus(WithLock(0, lock), status), disk) == Build(lock, status, disk)
  {
  }

  class Descriptor {
    var raw: bv64
    var entry: int   // the entry's index, or NOBODY

    /** Each setter makes one 64-bit write, and set_PFN_free and set_PFN_active also rewrite the back-pointer. */
    method SetFree()
      modifies this
      ensures raw == Written(Setter.SetFree, old(raw)) && entry == NOBODY
    {
      BuildWord(FREE, 0);
      entry := NOBODY;
    }

    method SetActive(pte: nat)
      modifies this
      ensures raw == Written(Setter.SetActive, old(raw)) && entry == pte
    {
      BuildWord(ACTIVE, 0);
      entry := pte;
    }

    method SetStandby(disk: bv64)
      modifies this`raw
      ensures raw == Written(Setter.SetStandby(disk), old(raw))
    {
      BuildWord(STANDBY, disk);
      SameLow40(LockBits(old(raw)), STANDBY, disk);
    }

    method SetMidWrite()
      modifies this`raw
      ensures raw == Written(Setter.SetMidWrite, old(raw))
    {
      BuildWord(MID_WRITE, DiskIndex(raw));
    }

    /** The status is assigned in place: lock and disk index are not read. */
    method SetModified()
      modifies this`raw
      ensures raw == Written(SetStatus(MODIFIED), old(raw))
      ensures StatusBits(raw) == MODIFIED && LockBits(raw) == old(LockBits(raw))
      ensures DiskIndex(raw) == old(DiskIndex(raw))
    {
      WrittenFields(SetStatus(MODIFIED), raw);
      raw := WithStatus(raw, MODIFIED);
    }

    method BuildWord(status: bv64, disk: bv64)
      modifies this`raw
      ensures raw == Build(LockBits(old(raw)), status, disk)
    {
      var snapshot, temp := raw, 0;
      temp := WithLock(temp, LockBits(snapshot));
      temp := WithStatus(temp, status);
      temp := WithDisk(temp, disk);
      BuiltInSteps(LockBits(snapshot), status, disk);
      raw := temp;
    }
  }

  lemma SameLow40(lock: bv64, status: bv64, disk: bv64)
    ensures Build(lock, status, disk & LOW40) == Build(lock, status, disk)
  {
  }

  // ---------- Instructions of many threads on one word ----------

  /** reading: what the lock's holder read at the start of a setter it is in the middle of. */
  datatype Word = Word(raw: bv64, holder: int, reading: seq<bv64>)

  datatype Instruction =
    | CompareExchange(t: nat)         // of lock and try_lock; fails if the lock bits are not zero
    | Decrement(t: nat)               // of unlock: 16 bits only
    | ReadWhole(t: nat)
    | WriteWhole(t: nat, setter: Setter)

  /** A thread unlocks and sets only while it holds the lock, and finishes a setter before it unlocks. */
  predicate Allowed(w: Word, i: Instruction) {
    match i
    case CompareExchange(t) => true
    case Decrement(t) => w.holder == t && w.reading == []
    case ReadWhole(t) => w.holder == t && w.reading == []
    case WriteWhole(t, _) => w.holder == t && w.reading != []
  }

  function Decremented(w: bv64): bv64 {
    (w & 0xFFFF_FFFF_FFFF_0000) | (((w & 0xFFFF) - 1) & 0xFFFF)
  }

  function Do(w: Word, i: Instruction): Word {
    match i
    case CompareExchange(t) => if LockBits(w.raw) == 0 then w.(raw := w.raw | 1, holder := t) else w
    case Decrement(t) => w.(raw := Decremented(w.raw), holder := NOBODY)
    case ReadWhole(t) => w.(reading := [w.raw])
    case WriteWhole(t, setter) => if w.reading == [] then w else w.(raw := Written(setter, w.reading[0]), reading := [])
  }

  /** The lock bits tell whether the lock is held, and what a setter read is still the word. */
  predicate Truthful(w: Word) {
    && LockBits(w.raw) == (if w.holder == NOBODY then 0 else 1)
    && (w.reading != [] ==> w.reading == [w.raw] && w.holder != NOBODY)
  }

  lemma LockFields(w: bv64)
    requires LockBits(w) == 0
    ensures LockBits(w | 1) == 1 && DiskIndex(w | 1) == DiskIndex(w) && StatusBits(w | 1) == StatusBits(w)
  {
  }

  lemma UnlockFields(w: bv64)
    requires LockBits(w) == 1
    ensures var x := Decremented(w);
            LockBits(x) == 0 && DiskIndex(x) == DiskIndex(w) && StatusBits(x) == StatusBits(w)
  {
  }

  datatype Contents = Contents(status: bv64, disk: bv64)

  function ContentsOf(w: bv64): Contents {
    Contents(StatusBits(w), DiskIndex(w))
  }

  function Effect(i: Instruction, before: Contents): Contents {
    if i.WriteWhole? then Contents(NewStatus(i.setter), NewDisk(i.setter, before.disk)) else before
  }

  lemma InstructionKeepsTruth(w: Word, i: Instruction)
    requires Truthful(w) && Allowed(w, i)
    ensures Truthful(Do(w, i))
  {
    match i
    case CompareExchange(t) =>
      if LockBits(w.raw) == 0 { LockFields(w.raw); }
    case Decrement(t) => UnlockFields(w.raw);
    case ReadWhole(t) =>
    case WriteWhole(t, setter) => WrittenFields(setter, w.raw);
  }

  lemma InstructionHasItsEffect(w: Word, i: Instruction)
    requires Truthful(w) && Allowed(w, i)
    ensures ContentsOf(Do(w, i).raw) == Effect(i, ContentsOf(w.raw))
  {
    if i.WriteWhole? {
      assert w.reading[0] == w.raw;
      assert Do(w, i).raw == Written(i.setter, w.raw);
      WrittenContents(i.setter, w.raw);
    } else if i.Decrement? {
      UnlockHasNoEffect(w, i);
    } else if i.CompareExchange? {
      LockHasNoEffect(w, i);
    }
  }

  lemma LockHasNoEffect(w: Word, i: Instruction)
    requires i.CompareExchange?
    ensures ContentsOf(Do(w, i).raw) == ContentsOf(w.raw)
  {
    if LockBits(w.raw) == 0 { LockFields(w.raw); }
  }

  lemma UnlockHasNoEffect(w: Word, i: Instruction)
    requires Truthful(w) && Allowed(w, i) && i.Decrement?
    ensures ContentsOf(Do(w, i).raw) == ContentsOf(w.raw)
  {
    UnlockFields(w.raw);
  }

  lemma WrittenContents(setter: Setter, w: bv64)
    ensures ContentsOf(Written(setter, w)) == Contents(NewStatus(setter), NewDisk(setter, DiskIndex(w)))
  {
    WrittenFields(setter, w);
  }

  function After(run: seq<Instruction>): Word {
    if run == [] then Word(0, NOBODY, []) else Do(After(run[..|run| - 1]), run[|run| - 1])
  }

  predicate IsRun(run: seq<Instruction>) {
    run == [] || (IsRun(run[..|run| - 1]) && Allowed(After(run[..|run| - 1]), run[|run| - 1]))
  }

  /** The fields as the setters of the run leave them, if each were one atomic step. */
  function Fields(run: seq<Instruction>): Contents {
    if run == [] then Contents(FREE, 0) else Effect(run[|run| - 1], Fields(run[..|run| - 1]))
  }

  /** In every interleaving no store of a setter undoes a lock operation and no lock operation disturbs a
      field: the lock bits are one exactly while a thread holds the lock, so a compare-exchange
      succeeds exactly when nobody does, and status and disk index are those of the last setters. */
  lemma {:induction false} NoUpdateIsLost(run: seq<Instruction>)
    requires IsRun(run)
    ensures Truthful(After(run))
    ensures ContentsOf(After(run).raw) == Fields(run)
  {
    if run == [] {
      assert ContentsOf(0) == Contents(0, 0) && LockBits(0) == 0;
    } else {
      var before := run[..|run| - 1];
      NoUpdateIsLost(before);
      InstructionKeepsTruth(After(before), run[|run| - 1]);
      InstructionHasItsEffect(After(before), run[|run| - 1]);
    }
  }

  // ---------- The statuses of the protocol ----------

  predicate IsFree(w: bv64) { StatusBits(w) == FREE }

  predicate IsActive(w: bv64) { StatusBits(w) == ACTIVE }

  predicate IsMidTrim(w: bv64) { StatusBits(w) == MID_TRIM }

  predicate IsModified(w: bv64) { StatusBits(w) == MODIFIED }

  predicate IsMidWrite(w: bv64) { StatusBits(w) == MID_WRITE }

  predicate IsStandby(w: bv64) { StatusBits(w) == STANDBY }

  /** The status a word stands for. The protocol has no mid-trim status, which no thread sets. */
  function Decode(w: bv64): Types.Option<Types.Status> {
    StatusOf(ContentsOf(w))
  }

  function StatusOf(c: Contents): Types.Option<Types.Status> {
    if c.status == FREE then Types.Some(Types.Status.Free)
    else if c.status == ACTIVE then Types.Some(Types.Status.Active)
    else if c.status == MODIFIED then Types.Some(Types.Status.Modified)
    else if c.status == MID_WRITE then Types.Some(Types.Status.MidWrite)
    else if c.status == STANDBY then Types.Some(Types.Status.Standby(c.disk as nat))
    else Types.None
  }

  /** The status a setter is for. The macro is used for one status only. */
  function Meant(setter: Setter): Types.Option<Types.Status> {
    match setter
    case SetFree => Types.Some(Types.Status.Free)
    case SetActive => Types.Some(Types.Status.Active)
    case SetMidTrim => Types.None
    case SetMidWrite => Types.Some(Types.Status.MidWrite)
    case SetStandby(disk) => Types.Some(Types.Status.Standby((disk & LOW40) as nat))
    case SetStatus(_) => Types.Some(Types.Status.Modified)
  }

  predicate Legal(setter: Setter) {
    setter.SetStatus? ==> setter.status == MODIFIED
  }

  /** Of a word a setter writes exactly one classifier holds, its own, and the word decodes to its status. */
  lemma OneStatusHolds(setter: Setter, w: bv64)
    requires Legal(setter)
    ensures var x := Written(setter, w);
            && (IsFree(x) <==> setter.SetFree?) && (IsActive(x) <==> setter.SetActive?)
            && (IsMidTrim(x) <==> setter.SetMidTrim?) && (IsMidWrite(x) <==> setter.SetMidWrite?)
            && (IsStandby(x) <==> setter.SetStandby?) && (IsModified(x) <==> setter.SetStatus?)
            && Decode(x) == Meant(setter)
  {
    WrittenFields(setter, w);
  }

  /** The status that the last setter of a run means; every page starts free. */
  function LastMeant(run: seq<Instruction>): Types.Option<Types.Status> {
    if run == [] then Types.Some(Types.Status.Free)
    else if run[|run| - 1].WriteWhole? then Meant(run[|run| - 1].setter) else LastMeant(run[..|run| - 1])
  }

  /** Over every interleaving of lock instructions and setters the word stands for the status last set. */
  lemma {:induction false} WordsAreStatuses(run: seq<Instruction>)
    requires IsRun(run) && forall i :: 0 <= i < |run| && run[i].WriteWhole? ==> Legal(run[i].setter)
    ensures Decode(After(run).raw) == LastMeant(run)
  {
    NoUpdateIsLost(run);
    if run == [] {
      assert ContentsOf(0) == Contents(0, 0);
    } else {
      LastInstruction(run[..|run| - 1], run[|run| - 1]);
      WordsAreStatuses(run[..|run| - 1]);
    }
  }

  lemma LastInstruction(before: seq<Instruction>, i: Instruction)
    requires IsRun(before) && Allowed(After(before), i) && (i.WriteWhole? ==> Legal(i.setter))
    ensures var w := Do(After(before), i).raw;
            Decode(w) == if i.WriteWhole? then Meant(i.setter) else Decode(After(before).raw)
  {
    var w := After(before);
    NoUpdateIsLost(before);
    InstructionHasItsEffect(w, i);
    if i.WriteWhole? { WrittenStatus(i.setter, w.raw); }
  }

  lemma WrittenStatus(setter: Setter, w: bv64)
    requires Legal(setter)
    ensures StatusOf(Contents(NewStatus(setter), NewDisk(setter, DiskIndex(w)))) == Meant(setter)
  {
    OneStatusHolds(setter, w);
    WrittenContents(setter, w);
  }
}
