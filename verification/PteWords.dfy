/** Page table entries as 64-bit words: the layouts, the classifiers, the setters, and runs of setters. */
module PteWords {
  import opened Types

  // From the low end: valid, status, readwrite, dirty, accessed, 40 bits of frame number or disk slot, 19
  // reserved bits.

  const LOW40: bv64 := 0xFF_FFFF_FFFF

  // ---------- Fields ----------

  function ValidBit(w: bv64): bv64 { w & 1 }

  function StatusBit(w: bv64): bv64 { (w >> 1) & 1 }

  /** The frame number or disk slot. */
  function Number(w: bv64): bv64 { (w >> 5) & 0xFF_FFFF_FFFF }

  /** The bits no setter is meant to touch: readwrite, dirty, accessed, reserved. */
  function Rest(w: bv64): bv64 { w & 0xFFFF_E000_0000_001C }

  function WithValid(w: bv64, b: bv64): bv64 { (w & 0xFFFF_FFFF_FFFF_FFFE) | (b & 1) }

  function WithStatus(w: bv64, b: bv64): bv64 { (w & 0xFFFF_FFFF_FFFF_FFFD) | ((b & 1) << 1) }

  function WithNumber(w: bv64, n: bv64): bv64 { (w & 0xFFFF_E000_0000_001F) | ((n & 0xFF_FFFF_FFFF) << 5) }

  lemma WithValidFields(w: bv64, x: bv64)
    ensures ValidBit(WithValid(w, x)) == x & 1 && StatusBit(WithValid(w, x)) == StatusBit(w)
    ensures Number(WithValid(w, x)) == Number(w) && Rest(WithValid(w, x)) == Rest(w)
  {
  }

  lemma WithStatusFields(w: bv64, x: bv64)
    ensures StatusBit(WithStatus(w, x)) == x & 1 && ValidBit(WithStatus(w, x)) == ValidBit(w)
    ensures Number(WithStatus(w, x)) == Number(w) && Rest(WithStatus(w, x)) == Rest(w)
  {
  }

  /** A word is the sum of its fields. */
  lemma FieldsMakeTheWord(w: bv64, x: bv64)
    requires ValidBit(w) == ValidBit(x) && StatusBit(w) == StatusBit(x) && Number(w) == Number(x) && Rest(w) == Rest(x)
    ensures w == x
  {
  }

  // ---------- Classifiers (data_structures/pte.h) ----------

  predicate IsZeroed(w: bv64) { w == 0 }

  predicate IsValid(w: bv64) { ValidBit(w) == 1 }

  predicate IsTransition(w: bv64) { ValidBit(w) == 0 && StatusBit(w) == 0 && Number(w) != 0 }

  predicate IsOnDisk(w: bv64) { ValidBit(w) == 0 && StatusBit(w) == 1 }

  /** get_PFN_from_PTE: it looks at the status bit only. */
  predicate HasNoFrame(w: bv64) { StatusBit(w) == 1 }

  // ---------- Setters ----------

  class Entry {
    var word: bv64

    constructor ()
      ensures IsZeroed(word)
    {
      word := 0;
    }

    method SetToTransition()
      modifies this
      ensures ValidBit(word) == 0 && StatusBit(word) == 0 && Number(word) == Number(old(word))
      ensures Rest(word) == Rest(old(word))
      ensures word == Set(ToTransition, old(word))
    {
      var temp := word;
      temp := WithValid(temp, 0);
      temp := WithStatus(temp, 0);
      FieldsMakeTransition(word);
      TransitionFields(word);
      word := temp;
    }

    method SetToValid(frame: bv64)
      modifies this
      ensures ValidBit(word) == 1 && StatusBit(word) == 0 && Number(word) == frame & LOW40
      ensures Rest(word) == Rest(old(word))
      ensures word == Set(ToValid(frame), old(word))
    {
      var temp := word;
      temp := WithValid(temp, 1);
      temp := WithStatus(temp, 0);
      temp := WithNumber(temp, frame);
      FieldsMakeValid(word, frame);
      ValidFields(word, frame);
      word := temp;
    }

    method MapToDisk(slot: bv64)
      modifies this
      ensures ValidBit(word) == 0 && StatusBit(word) == 1 && Number(word) == slot & LOW40
      ensures Rest(word) == Rest(old(word))
      ensures word == Set(ToDisk(slot), old(word))
    {
      var temp := word;
      temp := WithNumber(temp, 0);
      temp := WithValid(temp, 0);
      temp := WithStatus(temp, 1);
      temp := WithNumber(temp, slot);
      FieldsMakeDisk(word, slot);
      DiskFields(word, slot);
      word := temp;
    }
  }

  lemma FieldsMakeTransition(w: bv64)
    ensures WithStatus(WithValid(w, 0), 0) == Set(ToTransition, w)
  {
    WithValidFields(w, 0);
    WithStatusFields(WithValid(w, 0), 0);
    TransitionFields(w);
    FieldsMakeTheWord(WithStatus(WithValid(w, 0), 0), Set(ToTransition, w));
  }

  lemma FieldsMakeValid(w: bv64, n: bv64)
    ensures WithNumber(WithStatus(WithValid(w, 1), 0), n) == Set(ToValid(n), w)
  {
  }

  lemma FieldsMakeDisk(w: bv64, n: bv64)
    ensures WithNumber(WithStatus(WithValid(WithNumber(w, 0), 0), 1), n) == Set(ToDisk(n), w)
  {
  }

  datatype Setting =
    | ToTransition
    | ToValid(frame: bv64)
    | ToDisk(slot: bv64)

  /** What a setter writes: the untouched bits with the new number and the two low bits. */
  function Set(setting: Setting, w: bv64): bv64 {
    match setting
    case ToTransition => w & 0xFFFF_FFFF_FFFF_FFFC
    case ToValid(frame) => Rest(w) | ((frame & 0xFF_FFFF_FFFF) << 5) | 1
    case ToDisk(slot) => Rest(w) | ((slot & 0xFF_FFFF_FFFF) << 5) | 2
  }

  // ---------- Runs of setters ----------

  predicate Legal(setting: Setting) {
    match setting
    case ToTransition => true
    case ToValid(frame) => 0 < frame && frame <= LOW40
    case ToDisk(slot) => slot <= LOW40
  }

  function Word(run: seq<Setting>): bv64 {
    if run == [] then 0 else Set(run[|run| - 1], Word(run[..|run| - 1]))
  }

  /** What a word stands for. */
  function Decode(w: bv64): Format<bv64> {
    FromFields(ValidBit(w), StatusBit(w), Number(w))
  }

  function FromFields(valid: bv64, status: bv64, number: bv64): Format<bv64> {
    if valid == 1 then Valid(number)
    else if status == 1 then OnDisk(number)
    else if number != 0 then Transition(number)
    else Zeroed
  }

  /** The setters' effect on formats. A transition is meant for a valid entry; applied to an entry on disk
      it takes the slot for a frame. */
  function Changed(setting: Setting, e: Format<bv64>): Format<bv64> {
    match setting
    case ToValid(frame) => Valid(frame)
    case ToDisk(slot) => OnDisk(slot)
    case ToTransition =>
      match e
      case Valid(f) => Transition(f)
      case OnDisk(d) => if d == 0 then Zeroed else Transition(d)
      case _ => e
  }

  function Meaning(run: seq<Setting>): Format<bv64> {
    if run == [] then Zeroed else Changed(run[|run| - 1], Meaning(run[..|run| - 1]))
  }

  lemma TransitionFields(w: bv64)
    ensures var x := Set(ToTransition, w);
              ValidBit(x) == 0 && StatusBit(x) == 0 && Number(x) == Number(w) && Rest(x) == Rest(w)
  {
  }

  lemma ValidFields(w: bv64, n: bv64)
    ensures var x := Set(ToValid(n), w);
              ValidBit(x) == 1 && StatusBit(x) == 0 && Number(x) == n & LOW40 && Rest(x) == Rest(w)
  {
  }

  lemma DiskFields(w: bv64, n: bv64)
    ensures var x := Set(ToDisk(n), w);
              ValidBit(x) == 0 && StatusBit(x) == 1 && Number(x) == n & LOW40 && Rest(x) == Rest(w)
  {
  }

  lemma SmallIsItsLow40(n: bv64)
    ensures n <= LOW40 <==> n & LOW40 == n
  {
  }

  /** The words that setters make from zero. */
  predicate Tidy(w: bv64) {
    Rest(w) == 0 && (ValidBit(w) == 1 ==> StatusBit(w) == 0 && Number(w) != 0)
  }

  lemma SetIsChange(setting: Setting, w: bv64)
    requires Legal(setting) && Tidy(w)
    ensures Tidy(Set(setting, w)) && Decode(Set(setting, w)) == Changed(setting, Decode(w))
  {
    match setting
    case ToTransition =>
      TransitionFields(w);
      TransitionIsChange(w, Set(setting, w));
    case ToValid(frame) =>
      ValidFields(w, frame);
      SmallIsItsLow40(frame);
      ValidIsChange(frame, Set(setting, w));
    case ToDisk(slot) =>
      DiskFields(w, slot);
      SmallIsItsLow40(slot);
      DiskIsChange(slot, Set(setting, w));
  }

  lemma TransitionIsChange(w: bv64, x: bv64)
    requires Tidy(w) && ValidBit(x) == 0 && StatusBit(x) == 0 && Number(x) == Number(w) && Rest(x) == Rest(w)
    ensures Tidy(x) && Decode(x) == Changed(ToTransition, Decode(w))
  {
    TransitionOfFields(ValidBit(w), StatusBit(w), Number(w));
  }

  lemma TransitionOfFields(valid: bv64, status: bv64, number: bv64)
    requires valid == 1 ==> number != 0
    ensures FromFields(0, 0, number) == Changed(ToTransition, FromFields(valid, status, number))
  {
  }

  lemma ValidIsChange(frame: bv64, x: bv64)
    requires ValidBit(x) == 1 && StatusBit(x) == 0 && Number(x) == frame && Rest(x) == 0 && frame != 0
    ensures Tidy(x) && Decode(x) == Valid(frame)
  {
  }

  lemma DiskIsChange(slot: bv64, x: bv64)
    requires ValidBit(x) == 0 && StatusBit(x) == 1 && Number(x) == slot && Rest(x) == 0
    ensures Tidy(x) && Decode(x) == OnDisk(slot)
  {
  }

  lemma LowBits(w: bv64)
    ensures ValidBit(w) == 0 || ValidBit(w) == 1
    ensures StatusBit(w) == 0 || StatusBit(w) == 1
  {
  }

  /** Exactly one classifier holds of a tidy word, the one for the entry it stands for. */
  lemma OneClassifierHolds(w: bv64)
    requires Tidy(w)
    ensures var e := Decode(w);
            && (IsZeroed(w) <==> e.Zeroed?) && (IsValid(w) <==> e.Valid?)
            && (IsTransition(w) <==> e.Transition?) && (IsOnDisk(w) <==> e.OnDisk?)
            && (HasNoFrame(w) <==> e.OnDisk?)
  {
    LowBits(w);
    OnlyZeroHasNoFields(w);
  }

  /** Each word that setters make from zero stands for the entry that the same changes make, and its
      frame number or slot reads back. */
  lemma {:induction false} WordsAreEntries(run: seq<Setting>)
    requires forall i :: 0 <= i < |run| ==> Legal(run[i])
    ensures Tidy(Word(run)) && Decode(Word(run)) == Meaning(run)
  {
    if run != [] {
      var setting, before := run[|run| - 1], run[..|run| - 1];
      WordsAreEntries(before);
      SetIsChange(setting, Word(before));
    }
  }

  lemma OnlyZeroHasNoFields(w: bv64)
    ensures w == 0 <==> ValidBit(w) == 0 && StatusBit(w) == 0 && Number(w) == 0 && Rest(w) == 0
  {
  }
}
