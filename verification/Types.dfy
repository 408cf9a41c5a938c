/** The vocabulary of the paging protocol: page table entries, page frames, disk slots and actors. */
module Types {

  datatype Option<+T> = None | Some(value: T)

  /** One page of memory or of the page file, word by word. */
  type Page = seq<bv64>

  function ZeroPage(words: nat): (r: Page)
    ensures |r| == words && forall i :: 0 <= i < words ==> r[i] == 0
  {
    seq(words, i => 0)
  }

  /** The four formats of a page table entry (data_structures/pte.h), for numbers of some type. */
  datatype Format<+N> =
    | Zeroed
    | Valid(frame: N)
    | Transition(frame: N)
    | OnDisk(slot: N)

  type Pte = Format<nat>

  /** The status word of a page frame; the disk index is meaningful on standby pages only. */
  datatype Status =
    | Free
    | Active
    | Modified
    | MidWrite
    | Standby(slot: nat)

  /** Who holds a byte lock. */
  datatype Holder =
    | Nobody
    | User(t: nat)
    | Trimmer
    | Writer
    | Listing   // some thread in the middle of a list operation, for which the page is a neighbour

  /** Where a frame is. An auxiliary variable: the code keeps the same fact in the
      page's links, in a cache array or in a local variable of the thread that took it. */
  datatype Place =
    | FreeList
    | Cache(t: nat)       // in the free page cache of a user thread
    | Hand(t: nat)        // popped by a hard fault that has not finished
    | Resident            // mapped by a valid entry
    | TrimBatch           // taken by the trimmer, not yet on the modified list
    | ModifiedList
    | Gathered            // taken off the modified list, still locked by the writer
    | WriteBatch          // mid-write and unlocked
    | Written             // on the writer's temporary list, locked
    | StandbyList
    | Repurposed(t: nat)  // taken off the standby list by a user thread, locked
    | Rescued(t: nat)     // taken by a soft fault, locked

  /** Who owns a disk slot. An auxiliary variable. */
  datatype SlotOwner =
    | Unused
    | Reserved
    | Stashed
    | InFlight
    | OfFrame(f: nat)
    | OfPte(p: nat)

  /** The program point of a user thread, between two atomic steps. */
  datatype Thread =
    | Idle
    | SoftWantsPte(p: nat)           // in lock_pte
    | SoftWantsPfn(p: nat, f: nat)   // entry locked, snapshot names f, in lock_pfn
    | SoftLocked(p: nat, f: nat)     // both locked, entry not read again yet
    | SoftHeld(p: nat, f: nat)       // page off its list
    | SoftMapped(p: nat, f: nat)     // and mapped
    | HardWantsPfn(p: nat, f: nat)   // page popped, in lock_pfn
    | HardLocked(p: nat, f: nat)
    | HardMapped(p: nat, f: nat, filled: nat)   // entry locked, address mapped, so many words filled
    | HardFilled(p: nat, f: nat)     // all filled, and the slot freed, if it was read from one
    | Repurposing(batch: set<nat>)

  datatype Trimming =
    | Scanning(cur: Option<nat>)     // cur: entry locked, in lock_pfn
    | Marking                        // batch unmapped
    | Releasing                      // batch spliced

  datatype Writing =
    | Resting
    | Gathering(target: nat, gathered: set<nat>, batch: seq<nat>)
    | Copying(batch: seq<nat>, next: nat, slot: Option<nat>, copied: nat, locked: bool)
    | Publishing                     // batch spliced
}
