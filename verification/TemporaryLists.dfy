/** A batch on a list of its own: linked page by page, spliced, and released, among the other threads. */
module TemporaryLists {
  import opened Sequences
  import opened Types
  import opened RingProtocol
  import opened ListRoutines

  // ---------- One page's links, when its holder writes them ----------

  /** The writes that a thread makes in a run, in order. */
  ghost function Own(ls: seq<Step>, o: nat): seq<Link>
    decreases |ls|
  {
    if ls == [] then []
    else (if ls[0].o == o && ls[0].Relink? then [ls[0].w] else []) + Own(ls[1..], o)
  }

  /** The thread does nothing but such writes. */
  ghost predicate OnlyRelinks(ls: seq<Step>, o: nat) {
    forall i :: 0 <= i < |ls| && ls[i].o == o ==> ls[i].Relink?
  }

  /** A page's flink after some writes. */
  function FlinkAfter(n: nat, v: nat, ws: seq<Link>): nat
    decreases |ws|
  {
    if ws == [] then v else FlinkAfter(n, if ws[0].FlinkOf? && ws[0].node == n then ws[0].to else v, ws[1..])
  }

  /** A page's blink after some writes. */
  function BlinkAfter(n: nat, v: nat, ws: seq<Link>): nat
    decreases |ws|
  {
    if ws == [] then v else BlinkAfter(n, if ws[0].BlinkOf? && ws[0].node == n then ws[0].to else v, ws[1..])
  }

  /** A page, or a head, that the thread holds off the list. */
  ghost predicate Private(s: List, o: nat, n: nat) {
    Holds(s, o, n) && n !in s.ring && n < |s.flink| && n < |s.blink|
  }

  lemma StepOnPrivate(s: List, l: Step, o: nat, n: nat)
    requires Inv(s) && Ready(s, o) && Enabled(s, l) && Private(s, o, n) && (l.o == o ==> l.Relink?)
    ensures var r := Apply(s, l);
            && Ready(r, o) && Private(r, o, n)
            && r.flink[n] == (if l.o == o && l.w.FlinkOf? && l.w.node == n then l.w.to else s.flink[n])
            && r.blink[n] == (if l.o == o && l.w.BlinkOf? && l.w.node == n then l.w.to else s.blink[n])
  {
    StepKeepsReady(s, l, o);
    if l.o != o {
      WritesNeedTheLock(s, l, n);
      if l.Decide? { StaysOff(s, l.o, l.i, l.j, l.xs, o, n); }
    }
  }

  /** Nobody but its holder changes such a page's links. */
  lemma {:induction false} PrivateLinks(s: List, ls: seq<Step>, o: nat, n: nat)
    requires Inv(s) && Ready(s, o) && IsRun(s, ls) && OnlyRelinks(ls, o) && Private(s, o, n)
    ensures var e := Final(s, ls);
            && Ready(e, o) && Private(e, o, n)
            && e.flink[n] == FlinkAfter(n, s.flink[n], Own(ls, o))
            && e.blink[n] == BlinkAfter(n, s.blink[n], Own(ls, o))
    decreases |ls|
  {
    if ls != [] {
      StepOnPrivate(s, ls[0], o, n);
      StepKeepsInv(s, ls[0]);
      assert OnlyRelinks(ls[1..], o) by { assert forall i :: 0 <= i < |ls[1..]| ==> ls[1..][i] == ls[i + 1]; }
      PrivateLinks(Apply(s, ls[0]), ls[1..], o, n);
      assert ls[0].o == o ==> Own(ls, o)[1..] == Own(ls[1..], o);
      assert ls[0].o != o ==> Own(ls, o) == Own(ls[1..], o);
    }
  }

  // ---------- initialize_list_head and insert_to_list_tail ----------

  function HeadWrites(h: nat): seq<Link> {
    [BlinkOf(h, h), FlinkOf(h, h)]
  }

  /** A page is put behind page b, the last one of the list with head h. */
  function InsertWrites(h: nat, b: nat, n: nat): seq<Link> {
    [FlinkOf(n, h), BlinkOf(n, b), FlinkOf(b, n), BlinkOf(h, n)]
  }

  /** A page at its place on a list of its own, which starts with a head. */
  ghost predicate InPlace(s: List, o: nat, ring: seq<nat>, k: nat)
    requires k < |ring|
  {
    && Private(s, o, ring[k])
    && s.flink[ring[k]] == After(ring, k)
    && s.blink[ring[k]] == if k == 0 then ring[|ring| - 1] else ring[k - 1]
  }

  /** A list that only one thread knows: its head, then its pages, linked in a ring in both directions. */
  ghost predicate Temporary(s: List, o: nat, ring: seq<nat>) {
    ring != [] && Distinct(ring) && Ready(s, o) && forall k :: 0 <= k < |ring| ==> InPlace(s, o, ring, k)
  }

  lemma HeadIsEmptyList(s: List, ls: seq<Step>, o: nat, h: nat)
    requires Inv(s) && Ready(s, o) && IsRun(s, ls) && OnlyRelinks(ls, o) && Private(s, o, h)
    requires Own(ls, o) == HeadWrites(h)
    ensures Temporary(Final(s, ls), o, [h])
  {
    PrivateLinks(s, ls, o, h);
    AfterOne(h, s.flink[h], s.blink[h], HeadWrites(h));
    AfterOne(h, s.flink[h], h, HeadWrites(h)[1..]);
    assert InPlace(Final(s, ls), o, [h], 0);
  }

  lemma AfterOne(m: nat, f: nat, v: nat, ws: seq<Link>)
    requires ws != []
    ensures FlinkAfter(m, f, ws) == FlinkAfter(m, if ws[0] == FlinkOf(m, ws[0].to) then ws[0].to else f, ws[1..])
    ensures BlinkAfter(m, v, ws) == BlinkAfter(m, if ws[0] == BlinkOf(m, ws[0].to) then ws[0].to else v, ws[1..])
  {
  }

  lemma AfterInsert(h: nat, b: nat, n: nat, m: nat, f: nat, v: nat)
    ensures FlinkAfter(m, f, InsertWrites(h, b, n)) == if m == b then n else if m == n then h else f
    ensures BlinkAfter(m, v, InsertWrites(h, b, n)) == if m == h then n else if m == n then b else v
  {
    var ws := InsertWrites(h, b, n);
    var f1, v2 := if m == n then h else f, if m == n then b else v;
    AfterOne(m, f, v, ws);
    AfterOne(m, f1, v, ws[1..]);
    AfterOne(m, f1, v2, ws[2..]);
    AfterOne(m, if m == b then n else f1, v2, ws[3..]);
    assert ws[1..][1..] == ws[2..] && ws[2..][1..] == ws[3..] && ws[3..][1..] == [];
  }

  /** The four writes of an insertion, made among the steps of others, put the page behind the last one. */
  lemma InsertAppends(s: List, ls: seq<Step>, o: nat, ring: seq<nat>, n: nat)
    requires Inv(s) && Temporary(s, o, ring) && InPlace(s, o, ring, 0) && Private(s, o, n) && n !in ring
    requires IsRun(s, ls) && OnlyRelinks(ls, o) && Own(ls, o) == InsertWrites(ring[0], s.blink[ring[0]], n)
    ensures Temporary(Final(s, ls), o, ring + [n])
  {
    var e, r := Final(s, ls), ring + [n];
    PrivateLinks(s, ls, o, n);
    AfterInsert(ring[0], ring[|ring| - 1], n, n, s.flink[n], s.blink[n]);
    forall k: nat | k < |ring| ensures InPlace(e, o, r, k) { StaysInPlace(s, ls, o, ring, n, k); }
    assert InPlace(e, o, r, |ring|);
  }

  lemma StaysInPlace(s: List, ls: seq<Step>, o: nat, ring: seq<nat>, n: nat, k: nat)
    requires Inv(s) && Temporary(s, o, ring) && n !in ring && k < |ring|
    requires IsRun(s, ls) && OnlyRelinks(ls, o) && Own(ls, o) == InsertWrites(ring[0], ring[|ring| - 1], n)
    ensures InPlace(Final(s, ls), o, ring + [n], k)
  {
    assert InPlace(s, o, ring, k);
    PrivateLinks(s, ls, o, ring[k]);
    AfterInsert(ring[0], ring[|ring| - 1], n, ring[k], s.flink[ring[k]], s.blink[ring[k]]);
  }

  /** One turn of the loop: what comes before the insertion, such as locking the page, and the insertion. */
  datatype Turn = Turn(before: seq<Step>, insert: seq<Step>)

  /** The turns in which pages that the thread holds by then are put on its list, each behind the page that the
      head's blink is read to name. */
  ghost predicate Builds(s: List, o: nat, ring: seq<nat>, xs: seq<nat>, turns: seq<Turn>)
    requires Inv(s) && ring != []
    decreases |xs|
  {
    && |turns| == |xs|
    && (xs != [] ==>
          && IsRun(s, turns[0].before) && AllSpare(turns[0].before, o, ring)
          && (var e := Final(s, turns[0].before);
              && Private(e, o, xs[0]) && ring[0] < |e.blink|
              && IsRun(e, turns[0].insert) && OnlyRelinks(turns[0].insert, o)
              && Own(turns[0].insert, o) == InsertWrites(ring[0], e.blink[ring[0]], xs[0])
              && Builds(Final(e, turns[0].insert), o, ring + [xs[0]], xs[1..], turns[1..])))
  }

  ghost function Built(s: List, o: nat, ring: seq<nat>, xs: seq<nat>, turns: seq<Turn>): (r: List)
    requires Inv(s) && ring != [] && Builds(s, o, ring, xs, turns)
    ensures Inv(r)
    decreases |xs|
  {
    if xs == [] then s
    else Built(Final(Final(s, turns[0].before), turns[0].insert), o, ring + [xs[0]], xs[1..], turns[1..])
  }

  /** Pages put on a thread's own list one after the other are on it in that order, linked in both directions,
      whatever the others do between any two writes. */
  lemma {:induction false} BuiltInOrder(s: List, o: nat, ring: seq<nat>, xs: seq<nat>, turns: seq<Turn>)
    requires Inv(s) && ring != [] && Temporary(s, o, ring) && Distinct(ring + xs)
    requires Builds(s, o, ring, xs, turns)
    ensures Temporary(Built(s, o, ring, xs, turns), o, ring + xs)
    decreases |xs|
  {
    if xs == [] {
      assert ring + xs == ring;
    } else {
      NotOnIt(ring, xs);
      TurnAppends(s, o, ring, xs, turns);
      OneFurther(ring, xs);
      BuiltInOrder(Final(Final(s, turns[0].before), turns[0].insert), o, ring + [xs[0]], xs[1..], turns[1..]);
    }
  }

  lemma OneFurther(ring: seq<nat>, xs: seq<nat>)
    requires xs != []
    ensures (ring + [xs[0]]) + xs[1..] == ring + xs
  {
  }

  lemma TurnAppends(s: List, o: nat, ring: seq<nat>, xs: seq<nat>, turns: seq<Turn>)
    requires Inv(s) && Temporary(s, o, ring) && xs != [] && xs[0] !in ring && Builds(s, o, ring, xs, turns)
    ensures Temporary(Final(Final(s, turns[0].before), turns[0].insert), o, ring + [xs[0]])
  {
    var e := Final(s, turns[0].before);
    TemporaryStays(s, turns[0].before, o, ring);
    assert InPlace(e, o, ring, 0);
    InsertAppends(e, turns[0].insert, o, ring, xs[0]);
  }

  lemma NotOnIt(ring: seq<nat>, xs: seq<nat>)
    requires Distinct(ring + xs) && xs != []
    ensures xs[0] !in ring
  {
    forall k | 0 <= k < |ring| ensures ring[k] != xs[0] {
      assert (ring + xs)[k] == ring[k] && (ring + xs)[|ring|] == xs[0];
    }
  }

  // ---------- Splice and release ----------

  lemma {:induction false} PrivateStays(s: List, ls: seq<Step>, o: nat, ring: seq<nat>, n: nat)
    requires Inv(s) && IsRun(s, ls) && AllSpare(ls, o, ring) && n in ring && Private(s, o, n) && Settled(s, n)
    ensures var e := Final(s, ls);
            Private(e, o, n) && Settled(e, n) && e.flink[n] == s.flink[n] && e.blink[n] == s.blink[n]
    decreases |ls|
  {
    if ls != [] {
      var l := ls[0];
      assert Spares(l, o, ring);
      StepKeepsLock(s, l, o, n);
      WritesNeedTheLock(s, l, n);
      if l.Decide? { StaysOff(s, l.o, l.i, l.j, l.xs, o, n); }
      StepKeepsInv(s, l);
      assert AllSpare(ls[1..], o, ring) by { assert forall i :: 0 <= i < |ls[1..]| ==> ls[1..][i] == ls[i + 1]; }
      PrivateStays(Apply(s, l), ls[1..], o, ring, n);
    }
  }

  /** A list of its own stays as it is while its holder tries for the locks of the other one. */
  lemma TemporaryStays(s: List, ls: seq<Step>, o: nat, ring: seq<nat>)
    requires Inv(s) && Temporary(s, o, ring) && IsRun(s, ls) && AllSpare(ls, o, ring)
    ensures Temporary(Final(s, ls), o, ring)
  {
    forall k: nat | k < |ring| ensures InPlace(Final(s, ls), o, ring, k) {
      assert InPlace(s, o, ring, k);
      HeldIsSettled(s, o, ring[k]);
      PrivateStays(s, ls, o, ring, ring[k]);
    }
    HeldStays(s, ls, o, []);
  }

  /** Its pages are a chain, from the head's flink to the head's blink. */
  lemma TemporaryIsChain(s: List, o: nat, ring: seq<nat>)
    requires Inv(s) && Temporary(s, o, ring)
    ensures Chain(s, ring[1..]) && HoldsAll(s, o, ring[1..]) && Private(s, o, ring[0])
    ensures 1 < |ring| ==> s.flink[ring[0]] == ring[1] && s.blink[ring[0]] == ring[|ring| - 1]
  {
    var xs := ring[1..];
    assert InPlace(s, o, ring, 0);
    forall k: nat | k < |xs|
      ensures Private(s, o, xs[k])
      ensures k + 1 < |xs| ==> xs[k + 1] < |s.blink| && s.flink[xs[k]] == xs[k + 1] && s.blink[xs[k + 1]] == xs[k]
    {
      assert InPlace(s, o, ring, k + 1);
      if k + 1 < |xs| { assert InPlace(s, o, ring, k + 2); }
    }
  }

  /** insert_list_to_tail_list: with the list's head locked, then the last page as read from it, the whole
      temporary list may be put behind it; its head still leads to the first and last page of the batch. */
  lemma TemporaryIsSpliced(s: List, ls: seq<Step>, o: nat, h: nat, xs: seq<nat>)
    requires Inv(s) && Temporary(s, o, [h] + xs) && xs != [] && Holds(s, o, s.ring[0])
    requires IsRun(s, ls) && AllSpare(ls, o, [h] + xs) && AllSpare(ls, o, [s.ring[0]])
    requires s.ring[0] < |s.blink| && Holds(Final(s, ls), o, s.blink[s.ring[0]])
    ensures var e := Final(s, ls);
            && Temporary(e, o, [h] + xs) && h < |e.flink| == |e.blink|
            && e.flink[h] == xs[0] && e.blink[h] == xs[|xs| - 1]
            && e.ring != [] && e.ring[|e.ring| - 1] == s.blink[s.ring[0]]
            && Enabled(e, Decide(o, |e.ring| - 1, |e.ring|, xs))
  {
    assert ([h] + xs)[1..] == xs;
    TemporaryIsChain(s, o, [h] + xs);
    SparesFewer(ls, o, h, xs);
    SpliceIsAllowed(s, ls, o, xs);
    TemporaryStays(s, ls, o, [h] + xs);
    TemporaryIsChain(Final(s, ls), o, [h] + xs);
  }

  /** From the splice on the walk starts where the temporary head leads, and releases the batch, in order. */
  lemma StaleHeadLeadsToBatch(s: List, ls: seq<Step>, o: nat, h: nat, xs: seq<nat>, runs: seq<seq<Step>>)
    requires Inv(s) && Temporary(s, o, [h] + xs) && xs != [] && |runs| == |xs|
    requires Enabled(s, Decide(o, |s.ring| - 1, |s.ring|, xs))
    requires var s' := Apply(s, Decide(o, |s.ring| - 1, |s.ring|, xs));
             && Inv(s') && IsRun(s', ls) && AllSpare(ls, o, [h] + xs) && Ready(Final(s', ls), o)
             && Fit(Final(s', ls), o, xs[0], runs)
    ensures var e := Final(Apply(s, Decide(o, |s.ring| - 1, |s.ring|, xs)), ls);
            h < |e.flink| && e.flink[h] == xs[0] && Released(e, o, e.flink[h], runs) == xs
  {
    StaleHeadStays(s, ls, o, h, xs);
    SparesFewer(ls, o, h, xs);
    SpliceThenUnlock(s, ls, o, xs, runs);
  }

  lemma SparesFewer(ls: seq<Step>, o: nat, h: nat, xs: seq<nat>)
    requires AllSpare(ls, o, [h] + xs)
    ensures AllSpare(ls, o, xs)
  {
    assert forall n :: n in xs ==> n in [h] + xs;
    forall i | 0 <= i < |ls| ensures Spares(ls[i], o, xs) { assert Spares(ls[i], o, [h] + xs); }
  }

  lemma StaleHeadStays(s: List, ls: seq<Step>, o: nat, h: nat, xs: seq<nat>)
    requires Inv(s) && Temporary(s, o, [h] + xs) && xs != []
    requires Enabled(s, Decide(o, |s.ring| - 1, |s.ring|, xs))
    requires var s' := Apply(s, Decide(o, |s.ring| - 1, |s.ring|, xs));
             Inv(s') && IsRun(s', ls) && AllSpare(ls, o, [h] + xs)
    ensures var e := Final(Apply(s, Decide(o, |s.ring| - 1, |s.ring|, xs)), ls);
            h < |e.flink| && e.flink[h] == xs[0]
  {
    var ring := [h] + xs;
    assert ring[1..] == xs;
    HeadKeepsLinks(s, o, ring);
    PrivateStays(Apply(s, Decide(o, |s.ring| - 1, |s.ring|, xs)), ls, o, ring, h);
  }

  lemma HeadKeepsLinks(s: List, o: nat, ring: seq<nat>)
    requires Inv(s) && Temporary(s, o, ring) && 1 < |ring|
    requires Enabled(s, Decide(o, |s.ring| - 1, |s.ring|, ring[1..]))
    ensures var s' := Apply(s, Decide(o, |s.ring| - 1, |s.ring|, ring[1..]));
            && Private(s', o, ring[0]) && Settled(s', ring[0]) && s'.flink[ring[0]] == ring[1]
  {
    var h, n, xs := ring[0], |s.ring|, ring[1..];
    TemporaryIsChain(s, o, ring);
    HeldIsSettled(s, o, h);
    assert forall k :: 0 <= k < |xs| ==> xs[k] == ring[k + 1];
    HeadStaysOff(s.ring, h, xs);
    HeadIsNotWritten(s, h, xs);
  }

  lemma HeadStaysOff(ring: seq<nat>, h: nat, xs: seq<nat>)
    requires ring != [] && h !in ring && h !in xs
    ensures h !in Edited(ring, |ring| - 1, |ring|, xs)
  {
  }

  lemma HeadIsNotWritten(s: List, h: nat, xs: seq<nat>)
    requires Inv(s) && h !in s.ring && h !in xs && xs != []
    ensures forall w :: w in Writes(s.ring[|s.ring| - 1], s.ring[0], xs) ==> w.node != h
  {
    assert s.ring[|s.ring| - 1] in s.ring && s.ring[0] in s.ring && xs[0] in xs && xs[|xs| - 1] in xs;
  }
}
