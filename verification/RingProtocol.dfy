/** The shared page list, one pointer write at a time, with several threads editing different stretches. */
module RingProtocol {
  import opened Sequences
  import opened Types

  /** A pointer write that a thread has decided on and not yet made. */
  datatype Link = FlinkOf(node: nat, to: nat) | BlinkOf(node: nat, to: nat)

  /** Pages and list heads are numbered. ring is the list as it is when every decided write
      has been made, head first; pending tells which writes are outstanding, and whose they are.
      They are auxiliary variables, like inserted and removed, which count the pages whose
      change of list_size is still to come. */
  datatype List = List(
    flink: seq<nat>,
    blink: seq<nat>,
    lock: seq<Option<nat>>,
    ring: seq<nat>,
    pending: map<Link, nat>,
    size: int,
    inserted: set<nat>,
    removed: nat)

  datatype Step =
    | Acquire(o: nat, n: nat)
    | Release(o: nat, n: nat)
    | Decide(o: nat, i: nat, j: nat, xs: seq<nat>)   // replace what is between ring[i] and ring[j] by xs
    | Store(o: nat, w: Link)
    | Relink(o: nat, w: Link)   // a pointer write to a page, or a head, that is on a list of its own or on none
    | CountInserted(o: nat, counted: set<nat>)
    | CountRemoved(o: nat, n: nat)

  function After<T>(ring: seq<T>, k: nat): T
    requires k < |ring|
  {
    if k + 1 < |ring| then ring[k + 1] else ring[0]
  }

  /** The list with the pages strictly between positions i and j replaced by xs. */
  function Edited(ring: seq<nat>, i: nat, j: nat, xs: seq<nat>): seq<nat>
    requires i < j <= |ring|
  {
    ring[..i + 1] + xs + ring[j..]
  }

  ghost predicate Shape(s: List) {
    && |s.blink| == |s.flink| && |s.lock| == |s.flink|
    && s.ring != [] && Distinct(s.ring)
    && forall k :: 0 <= k < |s.ring| ==> s.ring[k] < |s.flink|
  }

  /** The links between x and the next page y are right, or about to be. */
  ghost predicate Linked(flink: seq<nat>, blink: seq<nat>, pending: set<Link>, x: nat, y: nat) {
    && x < |flink| && y < |blink|
    && (flink[x] == y || FlinkOf(x, y) in pending)
    && (blink[y] == x || BlinkOf(y, x) in pending)
    && (forall z :: FlinkOf(x, z) in pending ==> z == y)
    && (forall z :: BlinkOf(y, z) in pending ==> z == x)
  }

  ghost predicate LinkOk(s: List, k: nat)
    requires Shape(s) && k < |s.ring|
  {
    Linked(s.flink, s.blink, s.pending.Keys, s.ring[k], After(s.ring, k))
  }

  ghost predicate Inv(s: List) {
    && Shape(s)
    && (forall k :: 0 <= k < |s.ring| ==> LinkOk(s, k))
    && (forall w :: w in s.pending ==> Holds(s, s.pending[w], w.node))
    && (forall n :: n in s.inserted ==> n < |s.lock| && s.lock[n].Some? && n in s.ring[1..])
    && s.size == |s.ring| - 1 + s.removed - |s.inserted|
  }

  predicate Holds(s: List, o: nat, n: nat) {
    n < |s.lock| && s.lock[n] == Some(o)
  }

  /** No write to this node is outstanding. */
  ghost predicate Settled(s: List, n: nat) {
    forall w :: w in s.pending ==> w.node != n
  }

  /** Pages that are not on the list and already linked to each other. */
  ghost predicate Chain(s: List, xs: seq<nat>) {
    && Distinct(xs)
    && |s.blink| == |s.flink|
    && (forall k :: 0 <= k < |xs| ==> xs[k] < |s.flink| && xs[k] !in s.ring)
    && (forall k :: 0 <= k < |xs| - 1 ==> s.flink[xs[k]] == xs[k + 1] && s.blink[xs[k + 1]] == xs[k])
  }

  /** A thread may edit the list between two pages when it holds the locks of both, of
      everything between them, and of what it puts there. */
  ghost predicate MayDecide(s: List, o: nat, i: nat, j: nat, xs: seq<nat>) {
    && i < j <= |s.ring|
    && Chain(s, xs)
    && (forall k :: i <= k < j ==> Holds(s, o, s.ring[k]) && Settled(s, s.ring[k]))
    && Holds(s, o, After(s.ring, j - 1)) && Settled(s, After(s.ring, j - 1))
    && (forall k :: 0 <= k < |xs| ==> Holds(s, o, xs[k]) && Settled(s, xs[k]))
    && (forall k :: i < k < j ==> s.ring[k] !in s.inserted)
  }

  /** The pointer writes of an edit. */
  function Writes(left: nat, right: nat, xs: seq<nat>): set<Link> {
    if xs == [] then {FlinkOf(left, right), BlinkOf(right, left)}
    else {FlinkOf(left, xs[0]), BlinkOf(xs[0], left), FlinkOf(xs[|xs| - 1], right), BlinkOf(right, xs[|xs| - 1])}
  }

  function DecidedBy(ws: set<Link>, o: nat): map<Link, nat> {
    map w | w in ws :: o
  }

  ghost predicate Enabled(s: List, l: Step) {
    match l
    case Acquire(o, n) => n < |s.lock| && s.lock[n] == None
    case Release(o, n) => Holds(s, o, n) && (forall w :: w in s.pending && w.node == n ==> s.pending[w] != o)
        && n !in s.inserted
    case Decide(o, i, j, xs) => MayDecide(s, o, i, j, xs)
    case Store(o, w) => w in s.pending && s.pending[w] == o
    case Relink(o, w) => Holds(s, o, w.node) && w.node !in s.ring && w.node < |s.flink|
        && (forall v :: v in s.pending && v.node == w.node ==> s.pending[v] != o)
    case CountInserted(o, xs) => xs <= s.inserted && forall n :: n in xs ==> Holds(s, o, n)
    case CountRemoved(o, n) => n <= s.removed
  }

  /** The list with one link changed. */
  function WithLink(s: List, w: Link): List
    requires w.node < |s.flink| == |s.blink|
  {
    match w
    case FlinkOf(n, to) => s.(flink := s.flink[n := to])
    case BlinkOf(n, to) => s.(blink := s.blink[n := to])
  }

  ghost function Apply(s: List, l: Step): List
    requires Shape(s) && Enabled(s, l)
  {
    match l
    case Acquire(o, n) => s.(lock := s.lock[n := Some(o)])
    case Release(o, n) => s.(lock := s.lock[n := None])
    case Decide(o, i, j, xs) =>
      s.(ring := Edited(s.ring, i, j, xs),
          pending := s.pending + DecidedBy(Writes(s.ring[i], After(s.ring, j - 1), xs), o),
         inserted := s.inserted + SetOf(xs), removed := s.removed + (j - i - 1))
    case Store(o, w) => if w.node < |s.flink| then WithLink(s, w).(pending := s.pending - {w}) else s
    case Relink(o, w) => WithLink(s, w)
    case CountInserted(o, xs) => s.(size := s.size + |xs|, inserted := s.inserted - xs)
    case CountRemoved(o, n) => s.(size := s.size - n, removed := s.removed - n)
  }

  // ---------- The invariant ----------

  lemma EditedIsDistinct(s: List, o: nat, i: nat, j: nat, xs: seq<nat>)
    requires Inv(s) && MayDecide(s, o, i, j, xs)
    ensures Distinct(Edited(s.ring, i, j, xs))
    ensures forall k :: 0 <= k < |Edited(s.ring, i, j, xs)| ==> Edited(s.ring, i, j, xs)[k] < |s.flink|
  {
    var r := Edited(s.ring, i, j, xs);
    forall k | 0 <= k < |r|
      ensures r[k] == if k <= i then s.ring[k] else if k <= i + |xs| then xs[k - i - 1]
                else s.ring[k - i - 1 - |xs| + j] {}
  }

  /** Where the pages of an edited list come from. */
  lemma EditedAt(ring: seq<nat>, i: nat, j: nat, xs: seq<nat>, k: nat)
    requires i < j <= |ring| && k < |Edited(ring, i, j, xs)|
    ensures var r := Edited(ring, i, j, xs);
            if k <= i then r[k] == ring[k]
            else if k <= i + |xs| then r[k] == xs[k - i - 1]
            else r[k] == ring[k - i - 1 - |xs| + j]
    ensures var r := Edited(ring, i, j, xs);
            if k < i then After(r, k) == After(ring, k)
            else if k < i + |xs| then After(r, k) == xs[k - i]
            else if k == i + |xs| then After(r, k) == After(ring, j - 1)
            else After(r, k) == After(ring, k - i - 1 - |xs| + j)
  {
  }

  /** Away from the edit nothing changes. */
  lemma DecideKeepsOtherLink(s: List, o: nat, i: nat, j: nat, xs: seq<nat>, k: nat)
    requires Inv(s) && MayDecide(s, o, i, j, xs) && k < |s.ring| && (k < i || j <= k)
    ensures Linked(s.flink, s.blink, s.pending.Keys + Writes(s.ring[i], After(s.ring, j - 1), xs), s.ring[k],
              After(s.ring, k))
  {
    assert LinkOk(s, k);
  }

  /** The two ends of the edit, and the pages put between them. */
  lemma DecideMakesLink(s: List, o: nat, i: nat, j: nat, xs: seq<nat>, k: nat)
    requires Inv(s) && MayDecide(s, o, i, j, xs) && k <= |xs|
    ensures Linked(s.flink, s.blink, s.pending.Keys + Writes(s.ring[i], After(s.ring, j - 1), xs),
                   if k == 0 then s.ring[i] else xs[k - 1], if k == |xs| then After(s.ring, j - 1) else xs[k])
  {
    assert s.ring[i] in s.ring && After(s.ring, j - 1) in s.ring;
  }

  lemma DecideKeepsLink(s: List, o: nat, i: nat, j: nat, xs: seq<nat>, k: nat)
    requires Inv(s) && MayDecide(s, o, i, j, xs) && k < |Edited(s.ring, i, j, xs)|
    ensures Linked(s.flink, s.blink, s.pending.Keys + Writes(s.ring[i], After(s.ring, j - 1), xs),
                   Edited(s.ring, i, j, xs)[k], After(Edited(s.ring, i, j, xs), k))
  {
    EditedAt(s.ring, i, j, xs, k);
    if k < i {
      DecideKeepsOtherLink(s, o, i, j, xs, k);
    } else if k > i + |xs| {
      DecideKeepsOtherLink(s, o, i, j, xs, k - i - 1 - |xs| + j);
    } else {
      DecideMakesLink(s, o, i, j, xs, k - i);
    }
  }

  lemma DecideKeepsInv(s: List, o: nat, i: nat, j: nat, xs: seq<nat>)
    requires Inv(s) && MayDecide(s, o, i, j, xs)
    ensures Inv(Apply(s, Decide(o, i, j, xs)))
  {
    var s' := Apply(s, Decide(o, i, j, xs));
    EditedIsDistinct(s, o, i, j, xs);
    DecideKeepsLocks(s, o, i, j, xs);
    assert Shape(s');
    forall k | 0 <= k < |s'.ring| ensures LinkOk(s', k) { DecideKeepsLink(s, o, i, j, xs, k); }
    DecideKeepsCount(s, o, i, j, xs);
    assert s'.size == |s'.ring| - 1 + s'.removed - |s'.inserted|;
  }

  lemma DecideKeepsLocks(s: List, o: nat, i: nat, j: nat, xs: seq<nat>)
    requires Inv(s) && MayDecide(s, o, i, j, xs)
    ensures var s' := Apply(s, Decide(o, i, j, xs));
            && s'.pending.Keys == s.pending.Keys + Writes(s.ring[i], After(s.ring, j - 1), xs)
            && forall w :: w in s'.pending ==> Holds(s', s'.pending[w], w.node)
  {
    forall w | w in Writes(s.ring[i], After(s.ring, j - 1), xs) ensures Holds(s, o, w.node) {}
  }

  lemma DecideKeepsCount(s: List, o: nat, i: nat, j: nat, xs: seq<nat>)
    requires Inv(s) && MayDecide(s, o, i, j, xs)
    ensures |s.inserted + SetOf(xs)| == |s.inserted| + |xs|
    ensures forall n :: n in s.inserted + SetOf(xs)
              ==> n < |s.lock| && s.lock[n].Some? && n in Edited(s.ring, i, j, xs)[1..]
  {
    SetOfCounts(xs);
    assert s.inserted !! SetOf(xs);
    forall n | n in s.inserted + SetOf(xs) ensures n in Edited(s.ring, i, j, xs)[1..] {
      if n in s.inserted {
        var k :| 0 < k < |s.ring| && s.ring[k] == n;
        StaysOnList(s.ring, i, j, xs, k);
      } else {
        var k :| 0 <= k < |xs| && xs[k] == n;
        GoesOnList(s.ring, i, j, xs, k);
      }
    }
  }

  lemma StaysOnList(ring: seq<nat>, i: nat, j: nat, xs: seq<nat>, k: nat)
    requires i < j <= |ring| && 0 < k < |ring| && (k <= i || j <= k)
    ensures ring[k] in Edited(ring, i, j, xs)[1..]
  {
    var r, m := Edited(ring, i, j, xs), if k <= i then k else k - j + i + 1 + |xs|;
    assert r[m] == ring[k] && r[1..][m - 1] == r[m];
  }

  lemma GoesOnList(ring: seq<nat>, i: nat, j: nat, xs: seq<nat>, k: nat)
    requires i < j <= |ring| && k < |xs|
    ensures xs[k] in Edited(ring, i, j, xs)[1..]
  {
    var r := Edited(ring, i, j, xs);
    assert r[i + 1 + k] == xs[k] && r[1..][i + k] == xs[k];
  }

  lemma StoreKeepsInv(s: List, o: nat, w: Link)
    requires Inv(s) && Enabled(s, Store(o, w))
    ensures Inv(Apply(s, Store(o, w)))
  {
    var s' := Apply(s, Store(o, w));
    forall k | 0 <= k < |s.ring| ensures LinkOk(s', k) { assert LinkOk(s, k); }
  }

  /** A link of a page that is not on the list is no link of the list. */
  lemma RelinkKeepsInv(s: List, o: nat, w: Link)
    requires Inv(s) && Enabled(s, Relink(o, w))
    ensures Inv(Apply(s, Relink(o, w)))
  {
    var s' := Apply(s, Relink(o, w));
    forall k | 0 <= k < |s.ring| ensures LinkOk(s', k) { assert LinkOk(s, k); }
  }

  /** Every step, by whichever thread, keeps the invariant. */
  lemma StepKeepsInv(s: List, l: Step)
    requires Inv(s) && Enabled(s, l)
    ensures Inv(Apply(s, l))
  {
    match l
    case Decide(o, i, j, xs) => DecideKeepsInv(s, o, i, j, xs);
    case Store(o, w) => StoreKeepsInv(s, o, w);
    case Relink(o, w) => RelinkKeepsInv(s, o, w);
    case _ => QuietKeepsInv(s, l);
  }

  /** Locks and counters change no link. */
  lemma QuietKeepsInv(s: List, l: Step)
    requires Inv(s) && Enabled(s, l) && !l.Decide? && !l.Store? && !l.Relink?
    ensures Inv(Apply(s, l))
  {
    var s' := Apply(s, l);
    assert s'.ring == s.ring && s'.flink == s.flink && s'.blink == s.blink && s'.pending == s.pending;
    forall k | 0 <= k < |s.ring| ensures LinkOk(s', k) { assert LinkOk(s, k); }
  }

  /** Every pointer write, when it is made, is made by a thread that still holds the node's lock; no
      other step changes a link. */
  lemma WritesNeedTheLock(s: List, l: Step, n: nat)
    requires Inv(s) && Enabled(s, l) && n < |s.flink|
    ensures n < |Apply(s, l).flink| && n < |Apply(s, l).blink|
    ensures Apply(s, l).flink[n] != s.flink[n] || Apply(s, l).blink[n] != s.blink[n] ==>
              (l.Store? || l.Relink?) && Holds(s, l.o, n)
  {
    if l.Store? { assert Holds(s, s.pending[l.w], l.w.node); }
  }

  // ---------- What a thread may rely on ----------

  /** y comes right after x on the list. */
  ghost predicate Adjacent(ring: seq<nat>, x: nat, y: nat) {
    exists k :: 0 <= k < |ring| && ring[k] == x && After(ring, k) == y
  }

  /** The links of a locked page with no write outstanding are those of the list. */
  lemma LockedLinksAreRight(s: List, o: nat, x: nat, y: nat)
    requires Inv(s) && Adjacent(s.ring, x, y)
    ensures Settled(s, x) ==> x < |s.flink| && s.flink[x] == y
    ensures Settled(s, y) ==> y < |s.blink| && s.blink[y] == x
  {
    var k :| 0 <= k < |s.ring| && s.ring[k] == x && After(s.ring, k) == y;
    assert LinkOk(s, k);
  }

  /** No step of another thread separates two neighbours one of which is locked. */
  lemma StepKeepsNeighbours(s: List, l: Step, o: nat, x: nat, y: nat)
    requires Inv(s) && Enabled(s, l) && Adjacent(s.ring, x, y) && (Holds(s, o, x) || Holds(s, o, y))
    requires !(l.Decide? && l.o == o)
    ensures Adjacent(Apply(s, l).ring, x, y)
  {
    var k :| 0 <= k < |s.ring| && s.ring[k] == x && After(s.ring, k) == y;
    if l.Decide? {
      var Decide(_, i, j, xs) := l;
      if i <= k < j {
        EditorHoldsBoth(s, l.o, i, j, xs, k);
        assert false;
      } else {
        EditElsewhere(s.ring, i, j, xs, k);
      }
    } else {
      assert Apply(s, l).ring == s.ring;
    }
  }

  lemma EditorHoldsBoth(s: List, o: nat, i: nat, j: nat, xs: seq<nat>, k: nat)
    requires MayDecide(s, o, i, j, xs) && i <= k < j
    ensures Holds(s, o, s.ring[k]) && Holds(s, o, After(s.ring, k))
  {
    if k + 1 < j { assert Holds(s, o, s.ring[k + 1]); }
  }

  lemma EditElsewhere(ring: seq<nat>, i: nat, j: nat, xs: seq<nat>, k: nat)
    requires i < j <= |ring| && k < |ring| && (k < i || j <= k)
    ensures Adjacent(Edited(ring, i, j, xs), ring[k], After(ring, k))
  {
    var m := if k < i then k else k - j + i + 1 + |xs|;
    EditedAt(ring, i, j, xs, m);
    assert Edited(ring, i, j, xs)[m] == ring[k];
  }

  ghost predicate IsRun(s: List, ls: seq<Step>)
    requires Inv(s)
    decreases |ls|
  {
    ls != [] ==> Enabled(s, ls[0]) && (StepKeepsInv(s, ls[0]); IsRun(Apply(s, ls[0]), ls[1..]))
  }

  ghost function Final(s: List, ls: seq<Step>): (r: List)
    requires Inv(s) && IsRun(s, ls)
    ensures Inv(r)
    decreases |ls|
  {
    if ls == [] then s
    else
      StepKeepsInv(s, ls[0]);
      Final(Apply(s, ls[0]), ls[1..])
  }

  /** The thread neither edits the list nor releases the page. */
  predicate Keeps(l: Step, o: nat, x: nat) {
    !(l.Decide? && l.o == o) && l != Release(o, x)
  }

  /** Nobody else takes a lock away or decides on a write under it. */
  lemma StepKeepsLock(s: List, l: Step, o: nat, x: nat)
    requires Inv(s) && Enabled(s, l) && Keeps(l, o, x) && Holds(s, o, x) && Settled(s, x)
    ensures Holds(Apply(s, l), o, x) && Settled(Apply(s, l), x)
  {
    if l.Decide? {
      forall w | w in Writes(s.ring[l.i], After(s.ring, l.j - 1), l.xs) ensures w.node != x {}
    }
  }

  /** The links of a locked page do not change under it, whatever the other threads do: the
      neighbours read before a retry loop are still right after it, and the walk that releases
      a spliced batch finds the next page from the one it still holds. */
  lemma {:induction false} LockedLinksStay(s: List, ls: seq<Step>, o: nat, x: nat, y: nat)
    requires Inv(s) && IsRun(s, ls) && Adjacent(s.ring, x, y)
    requires forall l :: l in ls ==> Keeps(l, o, x)
    requires Holds(s, o, x) && Settled(s, x)
    ensures var e := Final(s, ls); Holds(e, o, x) && Adjacent(e.ring, x, y) && e.flink[x] == y
    decreases |ls|
  {
    if ls == [] {
      LockedLinksAreRight(s, o, x, y);
    } else {
      StepKeepsLock(s, ls[0], o, x);
      StepKeepsInv(s, ls[0]);
      StepKeepsNeighbours(s, ls[0], o, x, y);
      LockedLinksStay(Apply(s, ls[0]), ls[1..], o, x, y);
    }
  }

  /** The same for the page before. */
  lemma {:induction false} LockedBackLinksStay(s: List, ls: seq<Step>, o: nat, x: nat, y: nat)
    requires Inv(s) && IsRun(s, ls) && Adjacent(s.ring, x, y)
    requires forall l :: l in ls ==> Keeps(l, o, y)
    requires Holds(s, o, y) && Settled(s, y)
    ensures var e := Final(s, ls); Holds(e, o, y) && Adjacent(e.ring, x, y) && e.blink[y] == x
    decreases |ls|
  {
    if ls == [] {
      LockedLinksAreRight(s, o, x, y);
    } else {
      StepKeepsLock(s, ls[0], o, y);
      StepKeepsInv(s, ls[0]);
      StepKeepsNeighbours(s, ls[0], o, x, y);
      LockedBackLinksStay(Apply(s, ls[0]), ls[1..], o, x, y);
    }
  }

  // ---------- When every write has been made ----------

  /** The list with the edits of a run made one after the other. */
  function EditAll(ring: seq<nat>, ls: seq<Step>): seq<nat>
    decreases |ls|
  {
    if ls == [] then ring
    else EditAll(if ls[0].Decide? && ls[0].i < ls[0].j <= |ring| then Edited(ring, ls[0].i, ls[0].j, ls[0].xs)
        else ring, ls[1..])
  }

  /** The page reached from n by following flink k times. */
  function Walk(flink: seq<nat>, n: nat, k: nat): nat {
    if k == 0 then n else var m := Walk(flink, n, k - 1); if m < |flink| then flink[m] else m
  }

  lemma {:induction false} RingIsEditAll(s: List, ls: seq<Step>)
    requires Inv(s) && IsRun(s, ls)
    ensures Final(s, ls).ring == EditAll(s.ring, ls)
    decreases |ls|
  {
    if ls != [] {
      StepKeepsInv(s, ls[0]);
      RingIsEditAll(Apply(s, ls[0]), ls[1..]);
    }
  }

  lemma {:induction false} WalkIsRing(s: List, k: nat)
    requires Inv(s) && s.pending == map[] && k < |s.ring|
    ensures Walk(s.flink, s.ring[0], k) == s.ring[k]
    ensures Walk(s.blink, s.ring[0], k) == s.ring[if k == 0 then 0 else |s.ring| - k]
  {
    if k > 0 {
      WalkIsRing(s, k - 1);
      assert LinkOk(s, k - 1);
      assert LinkOk(s, |s.ring| - k);
    }
  }

  /** When no write is outstanding the links, in both directions, are those of the original list
      with exactly the edits of the run, however the pointer writes were interleaved. */
  lemma QuiescentListIsEdited(s: List, ls: seq<Step>, k: nat)
    requires Inv(s) && IsRun(s, ls) && Final(s, ls).pending == map[] && k < |EditAll(s.ring, ls)|
    ensures var e, r := Final(s, ls), EditAll(s.ring, ls);
            && Walk(e.flink, r[0], k) == r[k] && Walk(e.blink, r[0], k) == r[if k == 0 then 0 else |r| - k]
            && r[k] < |e.flink| && e.flink[r[k]] == After(r, k)
  {
    RingIsEditAll(s, ls);
    WalkIsRing(Final(s, ls), k);
    assert LinkOk(Final(s, ls), k);
  }

  /** list_size never goes negative: pages not yet counted are on the list, and still locked. */
  lemma SizeIsNeverNegative(s: List)
    requires Inv(s)
    ensures s.size >= 0
    ensures s.inserted == {} && s.removed == 0 ==> s.size == |s.ring| - 1
  {
    var rest := s.ring[1..];
    SetOfCounts(rest);
    assert s.inserted <= SetOf(rest);
    SubsetCounts(s.inserted, SetOf(rest));
  }

  lemma {:induction false} SubsetCounts(a: set<nat>, b: set<nat>)
    requires a <= b
    ensures |a| <= |b|
  {
    assert b == a + (b - a);
  }
}
