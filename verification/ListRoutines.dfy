/** The page list's routines on a shared list: what one has read and locked entitles it to its edit. */
module ListRoutines {
  import opened Sequences
  import opened Types
  import opened RingProtocol

  // ---------- What stays while a thread neither edits nor lets go of its pages ----------

  /** The thread has made all its writes and counted all its pages. */
  ghost predicate Ready(s: List, o: nat) {
    && (forall w :: w in s.pending ==> s.pending[w] != o)
    && (forall n :: n in s.inserted ==> !Holds(s, o, n))
  }

  /** The step is not an edit by o, and o neither releases nor relinks any of these pages in it. */
  predicate Spares(l: Step, o: nat, xs: seq<nat>) {
    l.o == o ==> !l.Decide? && !(l.Release? && l.n in xs) && !(l.Relink? && l.w.node in xs)
  }

  ghost predicate AllSpare(ls: seq<Step>, o: nat, xs: seq<nat>) {
    forall i :: 0 <= i < |ls| ==> Spares(ls[i], o, xs)
  }

  ghost predicate ByOthers(ls: seq<Step>, o: nat) {
    forall i :: 0 <= i < |ls| ==> ls[i].o != o
  }

  ghost predicate HoldsAll(s: List, o: nat, xs: seq<nat>) {
    forall k :: 0 <= k < |xs| ==> Holds(s, o, xs[k])
  }

  /** A page that a thread holds has no write outstanding, if that thread has none. */
  lemma HeldIsSettled(s: List, o: nat, n: nat)
    requires Inv(s) && Ready(s, o) && Holds(s, o, n)
    ensures Settled(s, n) && n !in s.inserted
  {
    forall w | w in s.pending ensures w.node != n { assert Holds(s, s.pending[w], w.node); }
  }

  lemma StepKeepsReady(s: List, l: Step, o: nat)
    requires Inv(s) && Enabled(s, l) && Ready(s, o) && !(l.Decide? && l.o == o)
    ensures Ready(Apply(s, l), o)
  {
    if l.Decide? { OthersEditKeepsReady(s, l, o); }
  }

  lemma OthersEditKeepsReady(s: List, l: Step, o: nat)
    requires Inv(s) && Enabled(s, l) && Ready(s, o) && l.Decide? && l.o != o
    ensures Ready(Apply(s, l), o)
  {
    forall n | n in SetOf(l.xs) ensures !Holds(s, o, n) {
      var k :| 0 <= k < |l.xs| && l.xs[k] == n;
    }
  }

  lemma StepKeepsHeld(s: List, l: Step, o: nat, xs: seq<nat>)
    requires Inv(s) && Enabled(s, l) && Spares(l, o, xs) && HoldsAll(s, o, xs)
    ensures HoldsAll(Apply(s, l), o, xs)
  {
  }

  /** The head is the same page for ever. */
  lemma StepKeepsHead(s: List, l: Step)
    requires Inv(s) && Enabled(s, l)
    ensures Apply(s, l).ring != [] && Apply(s, l).ring[0] == s.ring[0]
  {
  }

  /** What a thread holds stays held, and what it knows of it stays true, over any run of the others. */
  lemma {:induction false} HeldStays(s: List, ls: seq<Step>, o: nat, xs: seq<nat>)
    requires Inv(s) && IsRun(s, ls) && AllSpare(ls, o, xs) && HoldsAll(s, o, xs)
    ensures HoldsAll(Final(s, ls), o, xs) && Final(s, ls).ring[0] == s.ring[0]
    ensures Ready(s, o) ==> Ready(Final(s, ls), o)
    decreases |ls|
  {
    if ls != [] {
      assert Spares(ls[0], o, xs);
      StepKeepsHeld(s, ls[0], o, xs);
      StepKeepsHead(s, ls[0]);
      StepKeepsInv(s, ls[0]);
      if Ready(s, o) { StepKeepsReady(s, ls[0], o); }
      assert AllSpare(ls[1..], o, xs) by { assert forall i :: 0 <= i < |ls[1..]| ==> ls[1..][i] == ls[i + 1]; }
      HeldStays(Apply(s, ls[0]), ls[1..], o, xs);
    }
  }

  /** Neighbours stay neighbours as long as one of them is held. */
  lemma {:induction false} NeighboursStay(s: List, ls: seq<Step>, o: nat, xs: seq<nat>, x: nat, y: nat)
    requires Inv(s) && IsRun(s, ls) && AllSpare(ls, o, xs) && HoldsAll(s, o, xs)
    requires Adjacent(s.ring, x, y) && (x in xs || y in xs)
    ensures Adjacent(Final(s, ls).ring, x, y)
    decreases |ls|
  {
    if ls != [] {
      assert Spares(ls[0], o, xs);
      StepKeepsNeighbours(s, ls[0], o, x, y);
      StepKeepsHeld(s, ls[0], o, xs);
      StepKeepsInv(s, ls[0]);
      assert AllSpare(ls[1..], o, xs) by { assert forall i :: 0 <= i < |ls[1..]| ==> ls[1..][i] == ls[i + 1]; }
      NeighboursStay(Apply(s, ls[0]), ls[1..], o, xs, x, y);
    }
  }

  /** Where a page is on the list. */
  lemma PositionOf(s: List, n: nat) returns (k: nat)
    requires Inv(s) && n in s.ring
    ensures k < |s.ring| && s.ring[k] == n && LinkOk(s, k)
  {
    k :| 0 <= k < |s.ring| && s.ring[k] == n;
  }

  lemma AdjacentAt(s: List, x: nat, y: nat, k: nat)
    requires Inv(s) && Adjacent(s.ring, x, y) && k < |s.ring| && s.ring[k] == x
    ensures After(s.ring, k) == y
  {
  }

  lemma AdjacentBefore(s: List, x: nat, y: nat, k: nat)
    requires Inv(s) && Adjacent(s.ring, x, y) && 0 < k < |s.ring| && s.ring[k] == y
    ensures s.ring[k - 1] == x
  {
  }

  /** The links of a held page, as it reads them, are those of the list, in either direction. */
  lemma ReadsAreRight(s: List, o: nat, k: nat)
    requires Inv(s) && Ready(s, o) && k < |s.ring| && Holds(s, o, s.ring[k])
    ensures s.ring[k] < |s.flink| && s.flink[s.ring[k]] == After(s.ring, k)
    ensures s.blink[s.ring[k]] == s.ring[if k == 0 then |s.ring| - 1 else k - 1]
  {
    HeldIsSettled(s, o, s.ring[k]);
    assert LinkOk(s, k);
    assert LinkOk(s, if k == 0 then |s.ring| - 1 else k - 1);
  }

  // ---------- remove_page_on_soft_fault ----------

  /** A page of the list stays between the neighbours it was read to have. */
  lemma PageStaysBetween(s: List, ls: seq<Step>, o: nat, n: nat, k: nat) returns (i: nat)
    requires Inv(s) && IsRun(s, ls) && AllSpare(ls, o, [n]) && Ready(s, o) && Holds(s, o, n)
    requires 0 < k < |s.ring| && s.ring[k] == n
    ensures var e := Final(s, ls);
            && 0 < i < |e.ring| && e.ring[i] == n && e.ring[i - 1] == s.ring[k - 1]
                && After(e.ring, i) == After(s.ring, k)
  {
    var e, x, y := Final(s, ls), s.ring[k - 1], After(s.ring, k);
    assert After(s.ring, k - 1) == n;
    assert Adjacent(s.ring, n, y) && Adjacent(s.ring, x, n);
    HeldStays(s, ls, o, [n]);
    NeighboursStay(s, ls, o, [n], n, y);
    NeighboursStay(s, ls, o, [n], x, n);
    assert n != s.ring[0];
    i := PositionOf(e, n);
    AdjacentAt(e, n, y, i);
    AdjacentBefore(e, x, n, i);
  }

  /** One page may be removed by a thread that holds it and its two neighbours. */
  lemma RemovalIsAllowed(s: List, o: nat, i: nat)
    requires Inv(s) && Ready(s, o) && 0 < i < |s.ring|
    requires Holds(s, o, s.ring[i]) && Holds(s, o, s.ring[i - 1]) && Holds(s, o, After(s.ring, i))
    ensures Enabled(s, Decide(o, i - 1, i + 1, []))
  {
    HeldIsSettled(s, o, s.ring[i]);
    HeldIsSettled(s, o, s.ring[i - 1]);
    HeldIsSettled(s, o, After(s.ring, i));
  }

  /** The page's neighbours, read before the attempts and locked in the end, are still its
      neighbours: the removal is allowed in whatever state the other threads have left. The page is the k-th
      of the list when its links are read, and the i-th in the end. */
  lemma SoftRemovalIsAllowed(s: List, ls: seq<Step>, o: nat, n: nat, k: nat) returns (i: nat)
    requires Inv(s) && IsRun(s, ls) && AllSpare(ls, o, [n])
    requires Ready(s, o) && Holds(s, o, n) && 0 < k < |s.ring| && s.ring[k] == n && n < |s.flink|
    requires Holds(Final(s, ls), o, s.flink[n]) && Holds(Final(s, ls), o, s.blink[n])
    ensures var e := Final(s, ls);
            && 0 < i < |e.ring| && e.ring[i] == n && e.ring[i - 1] == s.blink[n] && After(e.ring, i) == s.flink[n]
            && Enabled(e, Decide(o, i - 1, i + 1, []))
  {
    ReadsAreRight(s, o, k);
    i := PageStaysBetween(s, ls, o, n, k);
    StillReady(s, ls, o, n);
    RemovalIsAllowed(Final(s, ls), o, i);
  }

  lemma StillReady(s: List, ls: seq<Step>, o: nat, n: nat)
    requires Inv(s) && IsRun(s, ls) && AllSpare(ls, o, [n]) && Ready(s, o) && Holds(s, o, n)
    ensures Ready(Final(s, ls), o) && Holds(Final(s, ls), o, n)
  {
    HeldStays(s, ls, o, [n]);
    assert Holds(Final(s, ls), o, [n][0]);
  }

  // ---------- remove_batch_from_list_head ----------

  /** The thread holds the head and the pages that follow it, as listed. */
  ghost predicate HasPrefix(s: List, o: nat, xs: seq<nat>) {
    && 0 < |xs| <= |s.ring| && HoldsAll(s, o, xs)
    && forall k :: 0 <= k < |xs| ==> s.ring[k] == xs[k]
  }

  /** What follows a page of the prefix stays. */
  lemma NextStays(s: List, ls: seq<Step>, o: nat, xs: seq<nat>, k: nat)
    requires Inv(s) && IsRun(s, ls) && HasPrefix(s, o, xs) && AllSpare(ls, o, xs) && k < |xs|
    requires k < |Final(s, ls).ring| && Final(s, ls).ring[k] == xs[k] && Final(s, ls).ring[0] == s.ring[0]
    ensures var e := Final(s, ls);
            After(e.ring, k) == After(s.ring, k) && (k + 1 < |e.ring| <==> k + 1 < |s.ring|)
  {
    var e, x, y := Final(s, ls), xs[k], After(s.ring, k);
    assert Adjacent(s.ring, x, y);
    NeighboursStay(s, ls, o, xs, x, y);
    AdjacentAt(e, x, y, k);
    LastIsBeforeHead(s, k);
    LastIsBeforeHead(e, k);
  }

  /** The prefix stays the same pages in the same order, over any run of the others, and so does what follows it. */
  lemma {:induction false} PrefixStays(s: List, ls: seq<Step>, o: nat, xs: seq<nat>, k: nat)
    requires Inv(s) && IsRun(s, ls) && HasPrefix(s, o, xs) && AllSpare(ls, o, xs) && k < |xs|
    ensures var e := Final(s, ls);
            && k < |e.ring| && e.ring[k] == xs[k] && After(e.ring, k) == After(s.ring, k)
            && (k + 1 < |e.ring| <==> k + 1 < |s.ring|)
    decreases k
  {
    HeldStays(s, ls, o, xs);
    if k > 0 {
      PrefixStays(s, ls, o, xs, k - 1);
    }
    NextStays(s, ls, o, xs, k);
  }

  lemma LastIsBeforeHead(s: List, k: nat)
    requires Inv(s) && k < |s.ring|
    ensures After(s.ring, k) == s.ring[0] <==> k + 1 == |s.ring|
  {
  }

  lemma HasPrefixStill(s: List, ls: seq<Step>, o: nat, xs: seq<nat>)
    requires Inv(s) && IsRun(s, ls) && HasPrefix(s, o, xs) && AllSpare(ls, o, xs)
    ensures HasPrefix(Final(s, ls), o, xs)
  {
    var e := Final(s, ls);
    HeldStays(s, ls, o, xs);
    forall k | 0 <= k < |xs| ensures k < |e.ring| && e.ring[k] == xs[k] { PrefixStays(s, ls, o, xs, k); }
    PrefixStays(s, ls, o, xs, |xs| - 1);
  }

  /** What the last page of the prefix is read to link to: the head exactly if the prefix is the whole list. */
  lemma LookAhead(s: List, o: nat, xs: seq<nat>)
    requires Inv(s) && HasPrefix(s, o, xs) && Ready(s, o)
    ensures var n := |xs|;
            && xs[n - 1] < |s.flink| && s.flink[xs[n - 1]] == After(s.ring, n - 1)
            && (s.flink[xs[n - 1]] == xs[0] <==> n == |s.ring|)
  {
    ReadsAreRight(s, o, |xs| - 1);
    LastIsBeforeHead(s, |xs| - 1);
  }

  /** The page read ahead and then locked is the next of the prefix, unless it is the head again. */
  lemma PrefixGrows(s: List, ls: seq<Step>, o: nat, xs: seq<nat>)
    requires Inv(s) && IsRun(s, ls) && HasPrefix(s, o, xs) && AllSpare(ls, o, xs) && Ready(s, o)
    requires xs[|xs| - 1] < |s.flink| && s.flink[xs[|xs| - 1]] != xs[0]
    requires Holds(Final(s, ls), o, s.flink[xs[|xs| - 1]])
    ensures HasPrefix(Final(s, ls), o, xs + [s.flink[xs[|xs| - 1]]]) && Ready(Final(s, ls), o)
  {
    var n := |xs|;
    LookAhead(s, o, xs);
    HasPrefixStill(s, ls, o, xs);
    PrefixStays(s, ls, o, xs, n - 1);
    HeldStays(s, ls, o, xs);
    OneMoreInPrefix(Final(s, ls), o, xs, s.flink[xs[n - 1]]);
  }

  lemma OneMoreInPrefix(s: List, o: nat, xs: seq<nat>, n: nat)
    requires HasPrefix(s, o, xs) && |xs| < |s.ring| && s.ring[|xs|] == n && Holds(s, o, n)
    ensures HasPrefix(s, o, xs + [n])
  {
  }

  /** With the first n pages, the head and the page after them locked, or the whole list, the first n pages
      may be removed. */
  lemma BatchRemovalIsAllowed(s: List, o: nat, xs: seq<nat>, n: nat)
    requires Inv(s) && Ready(s, o) && HasPrefix(s, o, xs) && 0 < n
    requires |xs| == n + 2 || (|xs| == n + 1 && n + 1 == |s.ring|)
    ensures Enabled(s, Decide(o, 0, n + 1, []))
  {
    forall k | 0 <= k < |xs| ensures Holds(s, o, s.ring[k]) && Settled(s, s.ring[k]) && s.ring[k] !in s.inserted {
      HeldIsSettled(s, o, xs[k]);
    }
    assert MayDecide(s, o, 0, n + 1, []);
  }

  /** What a thread has locked at the head of the list, and whether it has come round to the head again. */
  datatype Reach = Reach(list: List, pages: seq<nat>, whole: bool)

  /** Looking ahead from pages that are locked: the link of the last one is read, the others run, and then the
      page read is tried for. It ends at the head, at a page somebody has locked, or with the capacity. */
  ghost function LockAhead(s: List, o: nat, xs: seq<nat>, runs: seq<seq<Step>>): Reach
    requires Inv(s) && xs != []
    decreases |runs|
  {
    var t := xs[|xs| - 1];
    if t >= |s.flink| || runs == [] || !IsRun(s, runs[0]) || !ByOthers(runs[0], o) then Reach(s, xs, false)
    else
      var e, next := Final(s, runs[0]), s.flink[t];
      if next == xs[0] then Reach(e, xs, true)
      else if Enabled(e, Acquire(o, next)) then
        StepKeepsInv(e, Acquire(o, next));
        LockAhead(Apply(e, Acquire(o, next)), o, xs + [next], runs[1..])
      else Reach(e, xs, false)
  }

  /** What is locked is the head and the pages that follow it on the list, in order, and the whole list
      if the look-ahead came round. */
  lemma {:induction false} LockAheadReaches(s: List, o: nat, xs: seq<nat>, runs: seq<seq<Step>>)
    requires Inv(s) && Ready(s, o) && HasPrefix(s, o, xs)
    ensures var r := LockAhead(s, o, xs, runs);
            && Inv(r.list) && Ready(r.list, o) && HasPrefix(r.list, o, r.pages)
            && (r.whole ==> |r.pages| == |r.list.ring|) && r.list.ring[0] == s.ring[0]
            && |xs| <= |r.pages| <= |xs| + |runs|
    decreases |runs|
  {
    LookAhead(s, o, xs);
    if runs != [] && IsRun(s, runs[0]) && ByOthers(runs[0], o) {
      var e, next := Final(s, runs[0]), s.flink[xs[|xs| - 1]];
      NextIsStillNext(s, o, xs, runs[0]);
      if next != xs[0] && Enabled(e, Acquire(o, next)) {
        TakeNext(e, o, xs, next);
        LockAheadReaches(Apply(e, Acquire(o, next)), o, xs + [next], runs[1..]);
      }
    }
  }

  /** The others' runs fit in between, as far as the look-ahead gets. */
  ghost predicate AheadFits(s: List, o: nat, xs: seq<nat>, runs: seq<seq<Step>>)
    requires Inv(s)
    decreases |runs|
  {
    runs != [] ==>
      && xs != [] && xs[|xs| - 1] < |s.flink| && IsRun(s, runs[0]) && ByOthers(runs[0], o)
      && (var e, next := Final(s, runs[0]), s.flink[xs[|xs| - 1]];
          next != xs[0] && Enabled(e, Acquire(o, next)) ==>
            (StepKeepsInv(e, Acquire(o, next)); AheadFits(Apply(e, Acquire(o, next)), o, xs + [next], runs[1..])))
  }

  /** The next page of the list is locked. */
  ghost predicate NextIsLocked(r: Reach) {
    && |r.pages| < |r.list.ring| && r.list.ring[|r.pages|] < |r.list.lock|
    && r.list.lock[r.list.ring[|r.pages|]].Some?
  }

  /** The look-ahead stops only with as many pages as it may lock, at the end of the list, or before a page that
      somebody has locked. */
  lemma {:induction false} LockAheadStops(s: List, o: nat, xs: seq<nat>, runs: seq<seq<Step>>)
    requires Inv(s) && Ready(s, o) && HasPrefix(s, o, xs) && AheadFits(s, o, xs, runs)
    ensures var r := LockAhead(s, o, xs, runs);
            r.whole || |r.pages| == |xs| + |runs| || NextIsLocked(r)
    decreases |runs|
  {
    LookAhead(s, o, xs);
    if runs != [] {
      var e, next := Final(s, runs[0]), s.flink[xs[|xs| - 1]];
      NextIsStillNext(s, o, xs, runs[0]);
      if next != xs[0] && Enabled(e, Acquire(o, next)) {
        TakeNext(e, o, xs, next);
        LockAheadStops(Apply(e, Acquire(o, next)), o, xs + [next], runs[1..]);
      }
    }
  }

  lemma NextIsStillNext(s: List, o: nat, xs: seq<nat>, ls: seq<Step>)
    requires Inv(s) && Ready(s, o) && HasPrefix(s, o, xs) && IsRun(s, ls) && ByOthers(ls, o)
    ensures var e, next := Final(s, ls), After(s.ring, |xs| - 1);
            && Ready(e, o) && HasPrefix(e, o, xs) && e.ring[0] == s.ring[0] && After(e.ring, |xs| - 1) == next
            && (next == xs[0] <==> |xs| == |e.ring|)
  {
    var e := Final(s, ls);
    assert AllSpare(ls, o, xs);
    HasPrefixStill(s, ls, o, xs);
    HeldStays(s, ls, o, xs);
    PrefixStays(s, ls, o, xs, |xs| - 1);
    LastIsBeforeHead(e, |xs| - 1);
  }

  lemma TakeNext(s: List, o: nat, xs: seq<nat>, next: nat)
    requires Inv(s) && Ready(s, o) && HasPrefix(s, o, xs) && |xs| < |s.ring| && next == s.ring[|xs|]
    requires Enabled(s, Acquire(o, next))
    ensures var s' := Apply(s, Acquire(o, next));
            Inv(s') && Ready(s', o) && HasPrefix(s', o, xs + [next]) && s'.ring == s.ring
  {
    StepKeepsInv(s, Acquire(o, next));
    StepKeepsReady(s, Acquire(o, next), o);
    OneMoreInPrefix(Apply(s, Acquire(o, next)), o, xs, next);
  }

  /** How many pages are removed: all but the head, and but the last one locked unless the list came to its end. */
  function BatchOf(r: Reach): seq<nat> {
    if r.whole && 0 < |r.pages| then r.pages[1..]
    else if 2 <= |r.pages| then r.pages[1..|r.pages| - 1] else []
  }

  /** What is locked when the others have run once more. */
  ghost predicate Reached(r: Reach, o: nat, before: seq<Step>) {
    && Inv(r.list) && Ready(r.list, o) && HasPrefix(r.list, o, r.pages) && BatchOf(r) != []
    && (r.whole ==> |r.pages| == |r.list.ring|)
    && IsRun(r.list, before) && ByOthers(before, o)
  }

  lemma ReachStays(r: Reach, o: nat, before: seq<Step>)
    requires Reached(r, o, before)
    ensures var e := Final(r.list, before);
            && Ready(e, o) && HasPrefix(e, o, r.pages) && (r.whole ==> |r.pages| == |e.ring|)
  {
    assert AllSpare(before, o, r.pages);
    HasPrefixStill(r.list, before, o, r.pages);
    HeldStays(r.list, before, o, r.pages);
    PrefixStays(r.list, before, o, r.pages, |r.pages| - 1);
  }

  lemma BatchIsFirst(r: Reach, o: nat, before: seq<Step>)
    requires Reached(r, o, before)
    ensures var batch, e := BatchOf(r), Final(r.list, before);
            && |batch| + 1 <= |e.ring| && Between(e.ring, 0, |batch| + 1) == batch && e.ring[0] == r.pages[0]
            && Enabled(e, Decide(o, 0, |batch| + 1, []))
  {
    var batch, e := BatchOf(r), Final(r.list, before);
    ReachStays(r, o, before);
    BatchRemovalIsAllowed(e, o, r.pages, |batch|);
    assert forall k :: 0 <= k < |batch| ==> batch[k] == r.pages[k + 1] == e.ring[k + 1];
  }

  /** remove_batch_from_list_head as a whole: from the head it has locked, a thread locks its way ahead, among the
      others. The pages it then removes are the first of the list, in order; it may remove them; and in any later
      run they stay locked, off the list and linked to each other until it lets go of them. */
  lemma BatchRemoval(s: List, o: nat, runs: seq<seq<Step>>, before: seq<Step>)
    requires Inv(s) && Ready(s, o) && Holds(s, o, s.ring[0])
    requires var r := LockAhead(s, o, [s.ring[0]], runs);
             BatchOf(r) != [] && Inv(r.list) && IsRun(r.list, before) && ByOthers(before, o)
    ensures |BatchOf(LockAhead(s, o, [s.ring[0]], runs))| <= |runs|
    ensures LockAhead(s, o, [s.ring[0]], runs).list.ring[0] == s.ring[0]
    ensures ComesOff(LockAhead(s, o, [s.ring[0]], runs), o, before)
  {
    HeadIsReached(s, o, runs);
    BatchComesOff(LockAhead(s, o, [s.ring[0]], runs), o, before);
  }

  /** The batch is the first pages of the list in order, it may be removed, and stays linked afterwards. */
  ghost predicate ComesOff(r: Reach, o: nat, before: seq<Step>)
    requires Inv(r.list) && IsRun(r.list, before)
  {
    var batch, e, cut := BatchOf(r), Final(r.list, before), Decide(o, 0, |BatchOf(r)| + 1, []);
    && |batch| + 1 <= |e.ring| && Between(e.ring, 0, |batch| + 1) == batch
    && Enabled(e, cut) && Inv(Apply(e, cut)) && StayLinked(Apply(e, cut), o, batch)
  }

  lemma BatchComesOff(r: Reach, o: nat, before: seq<Step>)
    requires Reached(r, o, before)
    ensures ComesOff(r, o, before)
  {
    BatchIsFirst(r, o, before);
    CutStaysLinked(Final(r.list, before), o, |BatchOf(r)| + 1);
  }

  lemma HeadIsReached(s: List, o: nat, runs: seq<seq<Step>>)
    requires Inv(s) && Ready(s, o) && Holds(s, o, s.ring[0])
    ensures var r := LockAhead(s, o, [s.ring[0]], runs);
            && Inv(r.list) && Ready(r.list, o) && HasPrefix(r.list, o, r.pages)
            && (r.whole ==> |r.pages| == |r.list.ring|) && |BatchOf(r)| <= |runs| && r.list.ring[0] == s.ring[0]
  {
    assert HasPrefix(s, o, [s.ring[0]]);
    LockAheadReaches(s, o, [s.ring[0]], runs);
  }

  /** Whatever follows, until their holder lets go of them these pages are locked, off the list, and linked. */
  ghost predicate StayLinked(s: List, o: nat, xs: seq<nat>)
    requires Inv(s)
  {
    forall ls :: IsRun(s, ls) && AllSpare(ls, o, xs) ==> HoldsAll(Final(s, ls), o, xs) && Chain(Final(s, ls), xs)
  }

  lemma CutStaysLinked(s: List, o: nat, j: nat)
    requires Inv(s) && Enabled(s, Decide(o, 0, j, []))
    ensures var s', batch := Apply(s, Decide(o, 0, j, [])), Between(s.ring, 0, j);
            Inv(s') && StayLinked(s', o, batch)
  {
    var s', batch := Apply(s, Decide(o, 0, j, [])), Between(s.ring, 0, j);
    StepKeepsInv(s, Decide(o, 0, j, []));
    forall after | IsRun(s', after) && AllSpare(after, o, batch)
      ensures HoldsAll(Final(s', after), o, batch) && Chain(Final(s', after), batch)
    {
      BatchStaysLinked(s, after, o, 0, j);
    }
  }

  // ---------- Pages off the list ----------

  lemma StepKeepsChain(s: List, l: Step, o: nat, xs: seq<nat>)
    requires Inv(s) && Enabled(s, l) && Spares(l, o, xs) && HoldsAll(s, o, xs) && Chain(s, xs)
    requires forall k :: 0 <= k < |xs| ==> Settled(s, xs[k])
    ensures Chain(Apply(s, l), xs) && forall k :: 0 <= k < |xs| ==> Settled(Apply(s, l), xs[k])
  {
    StepKeepsInv(s, l);
    forall k | 0 <= k < |xs| ensures xs[k] !in Apply(s, l).ring
      { if l.Decide? { StaysOff(s, l.o, l.i, l.j, l.xs, o, xs[k]); } }
    forall k | 0 <= k < |xs| ensures Settled(Apply(s, l), xs[k]) { if l.Decide? { StepKeepsLock(s, l, o, xs[k]); } }
  }

  /** Another thread's edit does not put a held page on the list. */
  lemma StaysOff(s: List, o': nat, i: nat, j: nat, ys: seq<nat>, o: nat, n: nat)
    requires Inv(s) && MayDecide(s, o', i, j, ys) && o' != o && Holds(s, o, n) && n !in s.ring
    ensures n !in Edited(s.ring, i, j, ys)
  {
    forall k | 0 <= k < |ys| ensures ys[k] != n { assert Holds(s, o', ys[k]); }
  }

  /** Pages linked to each other that are off the list and held stay so. */
  lemma {:induction false} ChainStays(s: List, ls: seq<Step>, o: nat, xs: seq<nat>)
    requires Inv(s) && IsRun(s, ls) && AllSpare(ls, o, xs) && HoldsAll(s, o, xs) && Chain(s, xs)
    requires forall k :: 0 <= k < |xs| ==> Settled(s, xs[k])
    ensures HoldsAll(Final(s, ls), o, xs) && Chain(Final(s, ls), xs)
    decreases |ls|
  {
    if ls != [] {
      assert Spares(ls[0], o, xs);
      StepKeepsChain(s, ls[0], o, xs);
      StepKeepsHeld(s, ls[0], o, xs);
      StepKeepsInv(s, ls[0]);
      assert AllSpare(ls[1..], o, xs) by { assert forall i :: 0 <= i < |ls[1..]| ==> ls[1..][i] == ls[i + 1]; }
      ChainStays(Apply(s, ls[0]), ls[1..], o, xs);
    }
  }

  /** The pages between two positions of the list. */
  function Between(ring: seq<nat>, i: nat, j: nat): (r: seq<nat>)
    requires i < j <= |ring|
    ensures |r| == j - i - 1 && forall k :: 0 <= k < |r| ==> r[k] == ring[i + 1 + k]
  {
    ring[i + 1..j]
  }

  lemma BetweenIsDistinct(ring: seq<nat>, i: nat, j: nat)
    requires Distinct(ring) && i < j <= |ring|
    ensures Distinct(Between(ring, i, j))
  {
  }

  lemma RemovedAreHeld(s: List, o: nat, i: nat, j: nat)
    requires Inv(s) && MayDecide(s, o, i, j, [])
    ensures var s', xs := Apply(s, Decide(o, i, j, [])), Between(s.ring, i, j);
            forall k :: 0 <= k < |xs| ==> Removed(s', o, xs[k])
  {
    var xs := Between(s.ring, i, j);
    forall k | i < k < j ensures Removed(Apply(s, Decide(o, i, j, [])), o, s.ring[k]) { RemovedPage(s, o, i, j, k); }
    assert forall k :: 0 <= k < |xs| ==> xs[k] == s.ring[i + 1 + k];
  }

  lemma RemovedAreLinked(s: List, o: nat, i: nat, j: nat)
    requires Inv(s) && MayDecide(s, o, i, j, [])
    ensures var s', xs := Apply(s, Decide(o, i, j, [])), Between(s.ring, i, j);
            Chain(s', xs) && HoldsAll(s', o, xs) && forall k :: 0 <= k < |xs| ==> Settled(s', xs[k])
  {
    var s', xs := Apply(s, Decide(o, i, j, [])), Between(s.ring, i, j);
    RemovedAreHeld(s, o, i, j);
    BetweenIsDistinct(s.ring, i, j);
    InnerLinks(s, o, i, j);
    MakeChain(s, s', o, xs);
  }

  lemma MakeChain(s: List, s': List, o: nat, xs: seq<nat>)
    requires s'.flink == s.flink && s'.blink == s.blink && |s.blink| == |s.flink| && Distinct(xs)
    requires forall k :: 0 <= k < |xs| ==> Removed(s', o, xs[k]) && xs[k] < |s.flink|
    requires forall k :: 0 <= k < |xs| - 1 ==> s.flink[xs[k]] == xs[k + 1] && s.blink[xs[k + 1]] == xs[k]
    ensures Chain(s', xs) && HoldsAll(s', o, xs) && forall k :: 0 <= k < |xs| ==> Settled(s', xs[k])
  {
  }

  lemma InnerLinks(s: List, o: nat, i: nat, j: nat)
    requires Inv(s) && MayDecide(s, o, i, j, [])
    ensures var xs := Between(s.ring, i, j);
            && (forall k :: 0 <= k < |xs| ==> xs[k] < |s.flink| == |s.blink|)
            && forall k :: 0 <= k < |xs| - 1 ==> s.flink[xs[k]] == xs[k + 1] && s.blink[xs[k + 1]] == xs[k]
  {
    var xs := Between(s.ring, i, j);
    forall k | 0 <= k < |xs| - 1 ensures s.flink[xs[k]] == xs[k + 1] && s.blink[xs[k + 1]] == xs[k] {
      InnerLink(s, o, i, j, i + 1 + k);
    }
  }

  ghost predicate Removed(s: List, o: nat, n: nat) {
    Holds(s, o, n) && Settled(s, n) && n !in s.ring && n < |s.flink|
  }

  lemma InnerLink(s: List, o: nat, i: nat, j: nat, k: nat)
    requires Inv(s) && MayDecide(s, o, i, j, []) && i < k && k + 1 < j
    ensures s.ring[k] < |s.flink| && s.ring[k + 1] < |s.blink|
    ensures s.flink[s.ring[k]] == s.ring[k + 1] && s.blink[s.ring[k + 1]] == s.ring[k]
  {
    assert LinkOk(s, k) && Settled(s, s.ring[k]) && Settled(s, s.ring[k + 1]);
  }

  /** Removed pages stay locked and linked to each other, off the list, until their holder lets go of them:
      a batch can be walked by flink. */
  lemma BatchStaysLinked(s: List, ls: seq<Step>, o: nat, i: nat, j: nat)
    requires Inv(s) && Enabled(s, Decide(o, i, j, []))
    requires Inv(Apply(s, Decide(o, i, j, []))) && IsRun(Apply(s, Decide(o, i, j, [])), ls)
    requires AllSpare(ls, o, Between(s.ring, i, j))
    ensures var e, xs := Final(Apply(s, Decide(o, i, j, [])), ls), Between(s.ring, i, j);
            HoldsAll(e, o, xs) && Chain(e, xs)
  {
    RemovedAreLinked(s, o, i, j);
    ChainStays(Apply(s, Decide(o, i, j, [])), ls, o, Between(s.ring, i, j));
  }

  lemma RemovedPage(s: List, o: nat, i: nat, j: nat, k: nat)
    requires Inv(s) && MayDecide(s, o, i, j, []) && i < k < j
    ensures Removed(Apply(s, Decide(o, i, j, [])), o, s.ring[k])
  {
    var n := s.ring[k];
    CutPageIsOff(s.ring, i, j, k);
    assert Holds(s, o, n) && Settled(s, n);
    assert n != s.ring[i] && n != After(s.ring, j - 1);
  }

  lemma CutPageIsOff(ring: seq<nat>, i: nat, j: nat, k: nat)
    requires Distinct(ring) && i < k < j <= |ring|
    ensures ring[k] !in Edited(ring, i, j, [])
  {
    forall m | 0 <= m < |Edited(ring, i, j, [])| ensures Edited(ring, i, j, [])[m] != ring[k] {
      EditedAt(ring, i, j, [], m);
    }
  }

  // ---------- insert_list_to_tail_list and insert_page_to_tail ----------

  /** Pages of a chain may be put behind the last page by a thread that holds them, the last page and the head. */
  lemma AppendIsAllowed(s: List, o: nat, xs: seq<nat>)
    requires Inv(s) && Ready(s, o) && HoldsAll(s, o, xs) && Chain(s, xs)
    requires Holds(s, o, s.ring[0]) && Holds(s, o, s.ring[|s.ring| - 1])
    ensures Enabled(s, Decide(o, |s.ring| - 1, |s.ring|, xs))
  {
    forall k | 0 <= k < |xs| ensures Settled(s, xs[k]) { HeldIsSettled(s, o, xs[k]); }
    HeldIsSettled(s, o, s.ring[0]);
    HeldIsSettled(s, o, s.ring[|s.ring| - 1]);
  }

  /** The last page stays last as long as the head is held. */
  lemma LastStays(s: List, ls: seq<Step>, o: nat, held: seq<nat>)
    requires Inv(s) && IsRun(s, ls) && AllSpare(ls, o, held) && HoldsAll(s, o, held) && s.ring[0] in held
    ensures var e := Final(s, ls); e.ring != [] && e.ring[|e.ring| - 1] == s.ring[|s.ring| - 1]
  {
    var h, t := s.ring[0], s.ring[|s.ring| - 1];
    HeldStays(s, ls, o, held);
    assert After(s.ring, |s.ring| - 1) == h && Adjacent(s.ring, t, h);
    NeighboursStay(s, ls, o, held, t, h);
    BeforeHeadIsLast(Final(s, ls), t);
  }

  lemma BeforeHeadIsLast(s: List, t: nat)
    requires Inv(s) && Adjacent(s.ring, t, s.ring[0])
    ensures s.ring[|s.ring| - 1] == t
  {
    var i := PositionOf(s, t);
    AdjacentAt(s, t, s.ring[0], i);
    LastIsBeforeHead(s, i);
  }

  /** With the head locked, then the last page as read from it, the pages of a temporary list, or one page,
      may be put behind it, in whatever state the other threads have left. */
  lemma SpliceIsAllowed(s: List, ls: seq<Step>, o: nat, xs: seq<nat>)
    requires Inv(s) && IsRun(s, ls) && Ready(s, o)
    requires Holds(s, o, s.ring[0]) && HoldsAll(s, o, xs) && Chain(s, xs)
    requires AllSpare(ls, o, [s.ring[0]]) && AllSpare(ls, o, xs)
    requires s.ring[0] < |s.blink| && Holds(Final(s, ls), o, s.blink[s.ring[0]])
    ensures var e := Final(s, ls);
            && e.ring != [] && e.ring[|e.ring| - 1] == s.blink[s.ring[0]]
            && Enabled(e, Decide(o, |e.ring| - 1, |e.ring|, xs))
  {
    ReadsAreRight(s, o, 0);
    EndsStay(s, ls, o);
    HeldChainStays(s, ls, o, xs);
    AppendIsAllowed(Final(s, ls), o, xs);
  }

  lemma EndsStay(s: List, ls: seq<Step>, o: nat)
    requires Inv(s) && IsRun(s, ls) && Ready(s, o) && Holds(s, o, s.ring[0]) && AllSpare(ls, o, [s.ring[0]])
    ensures var e := Final(s, ls);
            && Ready(e, o) && e.ring != [] && e.ring[0] == s.ring[0] && Holds(e, o, e.ring[0])
            && e.ring[|e.ring| - 1] == s.ring[|s.ring| - 1]
  {
    var h := [s.ring[0]];
    HeldStays(s, ls, o, h);
    assert Holds(Final(s, ls), o, h[0]);
    LastStays(s, ls, o, h);
  }

  lemma HeldChainStays(s: List, ls: seq<Step>, o: nat, xs: seq<nat>)
    requires Inv(s) && IsRun(s, ls) && AllSpare(ls, o, xs) && HoldsAll(s, o, xs) && Chain(s, xs) && Ready(s, o)
    ensures HoldsAll(Final(s, ls), o, xs) && Chain(Final(s, ls), xs)
  {
    forall k | 0 <= k < |xs| ensures Settled(s, xs[k]) { HeldIsSettled(s, o, xs[k]); }
    ChainStays(s, ls, o, xs);
  }

  // ---------- The walk that releases a batch ----------

  /** Pages of the list, one after the other, that a thread holds and has finished putting there. */
  ghost predicate Spliced(s: List, o: nat, xs: seq<nat>) {
    && Ready(s, o) && HoldsAll(s, o, xs) && Distinct(xs)
    && forall k :: 0 <= k < |xs| - 1 ==> Adjacent(s.ring, xs[k], xs[k + 1])
  }

  lemma AppendedAreInOrder(s: List, o: nat, xs: seq<nat>, k: nat)
    requires Inv(s) && MayDecide(s, o, |s.ring| - 1, |s.ring|, xs) && k + 1 < |xs|
    ensures Adjacent(Edited(s.ring, |s.ring| - 1, |s.ring|, xs), xs[k], xs[k + 1])
  {
    var r, n := Edited(s.ring, |s.ring| - 1, |s.ring|, xs), |s.ring|;
    assert r[n + k] == xs[k] && After(r, n + k) == xs[k + 1];
  }

  lemma OrderStays(s: List, ls: seq<Step>, o: nat, xs: seq<nat>)
    requires Inv(s) && IsRun(s, ls) && AllSpare(ls, o, xs) && HoldsAll(s, o, xs)
    requires forall k :: 0 <= k < |xs| - 1 ==> Adjacent(s.ring, xs[k], xs[k + 1])
    ensures forall k :: 0 <= k < |xs| - 1 ==> Adjacent(Final(s, ls).ring, xs[k], xs[k + 1])
  {
    forall k | 0 <= k < |xs| - 1 ensures Adjacent(Final(s, ls).ring, xs[k], xs[k + 1]) {
      NeighboursStay(s, ls, o, xs, xs[k], xs[k + 1]);
    }
  }

  /** Once a splice's writes are made and its pages counted, and whatever the others did meanwhile. */
  lemma SpliceLeavesBatch(s: List, ls: seq<Step>, o: nat, xs: seq<nat>)
    requires Inv(s) && 0 < |s.ring| && Enabled(s, Decide(o, |s.ring| - 1, |s.ring|, xs))
    requires Inv(Apply(s, Decide(o, |s.ring| - 1, |s.ring|, xs)))
    requires IsRun(Apply(s, Decide(o, |s.ring| - 1, |s.ring|, xs)), ls) && AllSpare(ls, o, xs)
    requires Ready(Final(Apply(s, Decide(o, |s.ring| - 1, |s.ring|, xs)), ls), o)
    ensures Spliced(Final(Apply(s, Decide(o, |s.ring| - 1, |s.ring|, xs)), ls), o, xs)
  {
    var s' := Apply(s, Decide(o, |s.ring| - 1, |s.ring|, xs));
    forall k | 0 <= k < |xs| - 1 ensures Adjacent(s'.ring, xs[k], xs[k + 1]) { AppendedAreInOrder(s, o, xs, k); }
    HeldStays(s', ls, o, xs);
    OrderStays(s', ls, o, xs);
  }

  /** The pages that a walk from page x releases: before each release the other threads run, and the next
      page is read from the page still held. The walk ends early if a page cannot be released. */
  ghost function Released(s: List, o: nat, x: nat, runs: seq<seq<Step>>): seq<nat>
    requires Inv(s)
    decreases |runs|
  {
    if runs == [] || !IsRun(s, runs[0]) || !ByOthers(runs[0], o) then []
    else
      var e := Final(s, runs[0]);
      if x < |e.flink| && Enabled(e, Release(o, x)) then
        StepKeepsInv(e, Release(o, x));
        [x] + Released(Apply(e, Release(o, x)), o, e.flink[x], runs[1..])
      else []
  }

  /** The runs of the other threads that fit into such a walk. */
  ghost predicate Fit(s: List, o: nat, x: nat, runs: seq<seq<Step>>)
    requires Inv(s)
    decreases |runs|
  {
    runs != [] ==>
      && IsRun(s, runs[0]) && ByOthers(runs[0], o)
      && (var e := Final(s, runs[0]);
          x < |e.flink| && Enabled(e, Release(o, x)) ==>
            (StepKeepsInv(e, Release(o, x)); Fit(Apply(e, Release(o, x)), o, e.flink[x], runs[1..])))
  }

  /** One turn of the walk: the page is still held, its link leads to the next page of the batch, and with
      the page released the rest of the batch is as before. */
  lemma WalkTurn(s: List, ls: seq<Step>, o: nat, xs: seq<nat>)
    requires Inv(s) && Spliced(s, o, xs) && xs != [] && IsRun(s, ls) && ByOthers(ls, o)
    ensures var e := Final(s, ls);
            && xs[0] < |e.flink| && Enabled(e, Release(o, xs[0]))
            && (1 < |xs| ==> e.flink[xs[0]] == xs[1])
            && Spliced(Apply(e, Release(o, xs[0])), o, xs[1..])
  {
    var e := Final(s, ls);
    assert AllSpare(ls, o, xs);
    HeldStays(s, ls, o, xs);
    HeldIsSettled(e, o, xs[0]);
    OrderStays(s, ls, o, xs);
    if 1 < |xs| { LockedLinksAreRight(e, o, xs[0], xs[1]); }
    RestOfBatch(e, o, xs);
  }

  lemma RestOfBatch(s: List, o: nat, xs: seq<nat>)
    requires Inv(s) && Spliced(s, o, xs) && xs != [] && Enabled(s, Release(o, xs[0]))
    ensures Spliced(Apply(s, Release(o, xs[0])), o, xs[1..])
  {
  }

  /** Splice then unlock: the walk that starts at the page the temporary head still leads to releases exactly
      the batch, in order, each page once, although the others append behind the batch as soon as its last page
      is released, and remove pages of it as soon as they are. */
  lemma {:induction false} WalkReleasesBatch(s: List, o: nat, xs: seq<nat>, runs: seq<seq<Step>>)
    requires Inv(s) && Spliced(s, o, xs) && |runs| == |xs|
    requires xs != [] ==> Fit(s, o, xs[0], runs)
    ensures Released(s, o, if xs == [] then 0 else xs[0], runs) == xs
    decreases |xs|
  {
    if xs != [] {
      WalkTurn(s, runs[0], o, xs);
      var e := Final(s, runs[0]);
      StepKeepsInv(e, Release(o, xs[0]));
      WalkReleasesBatch(Apply(e, Release(o, xs[0])), o, xs[1..], runs[1..]);
      if |xs| == 1 {
        assert runs[1..] == [];
      }
    }
  }

  /** The same from the splice on: its pointer writes, the release of the list's head and old last page and the change
      of the size come first, with steps of the other threads in between. */
  lemma SpliceThenUnlock(s: List, ls: seq<Step>, o: nat, xs: seq<nat>, runs: seq<seq<Step>>)
    requires Inv(s) && xs != [] && Enabled(s, Decide(o, |s.ring| - 1, |s.ring|, xs))
    requires Inv(Apply(s, Decide(o, |s.ring| - 1, |s.ring|, xs)))
    requires IsRun(Apply(s, Decide(o, |s.ring| - 1, |s.ring|, xs)), ls) && AllSpare(ls, o, xs)
    requires Ready(Final(Apply(s, Decide(o, |s.ring| - 1, |s.ring|, xs)), ls), o)
    requires |runs| == |xs| && Fit(Final(Apply(s, Decide(o, |s.ring| - 1, |s.ring|, xs)), ls), o, xs[0], runs)
    ensures Released(Final(Apply(s, Decide(o, |s.ring| - 1, |s.ring|, xs)), ls), o, xs[0], runs) == xs
  {
    SpliceLeavesBatch(s, ls, o, xs);
    WalkReleasesBatch(Final(Apply(s, Decide(o, |s.ring| - 1, |s.ring|, xs)), ls), o, xs, runs);
  }
}
