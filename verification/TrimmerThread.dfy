/** The trimming thread, running among the other threads.
    A method for a lock-protected region equates the new state with one step of the protocol; the
    others let the remaining threads run between regions. */
module TrimmerThread {
  import opened Types
  import opened VmState
  import opened Steps
  import opened Preservation
  import opened Runs
  import opened Vm
  import opened Interleaving

  const MAX_TRIM_BATCH_SIZE: nat := 2048
  const MAX_TRIM_ATTEMPTS: nat := 4 * MAX_TRIM_BATCH_SIZE

  /** The batch is what the trimmer has taken, each page once. */
  ghost predicate Batched(s: State, batch: seq<nat>) {
    && (forall i, j :: 0 <= i < j < |batch| ==> batch[i] != batch[j])
    && (forall f :: f in batch ==> f < |s.place|)
    && (forall f :: 0 <= f < |s.place| ==> (s.place[f].TrimBatch? <==> f in batch))
  }

  /** Line 48: the entry is tried for. */
  method TakeEntry(vm: Vm, p: nat) returns (taken: bool)
    requires vm.Valid() && vm.trim == Scanning(None) && p < vm.pte.Length && vm.pte[p].Valid?
    modifies vm.Repr()
    ensures vm.Valid() && Leads(old(vm.Abs()), vm.Abs())
    ensures taken <==> TrimLockPteEnabled(old(vm.Abs()), p)
    ensures vm.Abs() == if taken then TrimLockPteStep(old(vm.Abs()), p) else old(vm.Abs())
  {
    NoSteps(Trimmer, vm.Abs());
    AtPte(vm.Abs(), p);
    taken := vm.pteLock[p] == Nobody;
    if taken {
      LockEntry(vm, p);
    }
  }

  method LockEntry(vm: Vm, p: nat)
    requires vm.Valid() && TrimLockPteEnabled(vm.Abs(), p)
    modifies vm.Repr()
    ensures vm.Valid() && Leads(old(vm.Abs()), vm.Abs()) && vm.Abs() == TrimLockPteStep(old(vm.Abs()), p)
  {
    OneStep(vm.Abs(), ByTrimmer(TrimLockPte(p)));
    vm.SetPteLock(p, Trimmer);
    vm.trim := Scanning(Some(p));
  }

  /** Lines 54 to 64: the page's lock is free, and the entry still valid. */
  method TakePage(vm: Vm, p: nat) returns (f: nat)
    requires vm.Valid() && vm.trim == Scanning(Some(p)) && TrimLockPfnEnabled(vm.Abs())
    modifies vm.Repr()
    ensures vm.Valid() && Leads(old(vm.Abs()), vm.Abs()) && vm.Abs() == TrimLockPfnStep(old(vm.Abs()))
    ensures p < vm.pte.Length && old(vm.pte[p]) == Types.Valid(f) && f < vm.place.Length
    ensures old(vm.place[f]) == Resident && vm.place[f] == TrimBatch
  {
    AtPte(vm.Abs(), p);
    OneStep(vm.Abs(), ByTrimmer(TrimLockPfn));
    f := vm.pte[p].frame;
    MoveToBatch(vm, p, f);
  }

  method MoveToBatch(vm: Vm, p: nat, f: nat)
    requires vm.Apart() && p < vm.pte.Length && p < vm.pteLock.Length && f < vm.pfnLock.Length && f < vm.place.Length
    modifies vm, vm.pte, vm.pteLock, vm.pfnLock, vm.place
    ensures var s := old(vm.Abs());
            vm.Abs() == s.(pfnLock := s.pfnLock[f := Trimmer], pte := s.pte[p := Transition(f)],
                           pteLock := s.pteLock[p := Nobody], place := s.place[f := TrimBatch], trim := Scanning(None))
  {
    vm.SetPfnLock(f, Trimmer);
    vm.SetPte(p, Transition(f));
    vm.SetPteLock(p, Nobody);
    vm.SetPlace(f, TrimBatch);
    vm.trim := Scanning(None);
  }

  lemma BatchKept(s: State, r: State, batch: seq<nat>)
    requires Kept(Trimmer, s, r) && Batched(s, batch)
    ensures Batched(r, batch)
  {
    forall f | 0 <= f < |s.place| ensures r.place[f].TrimBatch? <==> f in batch {
      assert TrimFrameKept(s, r, f);
    }
  }

  method PauseTrimmer(vm: Vm, ghost batch: seq<nat>, ghost s: State)
    requires vm.Valid() && Leads(s, vm.Abs()) && Batched(vm.Abs(), batch)
    modifies vm.Repr()
    ensures vm.Valid() && Leads(s, vm.Abs()) && Kept(Trimmer, old(vm.Abs()), vm.Abs()) && Batched(vm.Abs(), batch)
  {
    ghost var r := vm.Abs();
    Pause(vm, Trimmer, s);
    BatchKept(r, vm.Abs(), batch);
  }

  /** The entry is valid and its lock is free. */
  predicate Takeable(s: State, p: nat) {
    p < |s.pte| && p < |s.pteLock| && s.pte[p].Valid? && s.pteLock[p] == Nobody
  }

  /** The trimmer has locked an entry and waits for its page, with the batch so far locked too. */
  ghost predicate Stuck(s: State, batch: seq<nat>) {
    && s.trim.Scanning? && s.trim.cur.Some? && s.trim.cur.value < |s.pte| && s.pte[s.trim.cur.value].Valid?
    && s.pte[s.trim.cur.value].frame < |s.pfnLock| && s.pfnLock[s.pte[s.trim.cur.value].frame] != Nobody
    && Batched(s, batch)
  }

  /** One attempt of the scan at an entry: lines 38 to 69. The entry is taken if it is found takeable at some
      point, and a valid entry is still valid when it is locked. */
  method TryTrim(vm: Vm, p: nat, batch: seq<nat>, spins: nat, ghost s: State)
    returns (free: bool, more: seq<nat>, ghost at: State)
    requires vm.Valid() && Leads(s, vm.Abs()) && vm.trim == Scanning(None) && p < vm.pte.Length
    requires Batched(vm.Abs(), batch)
    modifies vm.Repr()
    ensures vm.Valid() && Leads(s, vm.Abs()) && Leads(s, at)
    ensures !free ==> Stuck(vm.Abs(), batch)
    ensures free ==> vm.trim == Scanning(None) && Batched(vm.Abs(), more)
    ensures free ==> more == batch + if Takeable(at, p) then [at.pte[p].frame] else []
  {
    free, more, at := true, batch, vm.Abs();
    if !vm.pte[p].Valid? { return; }
    PauseTrimmer(vm, batch, s);
    assert vm.pte[p] == at.pte[p];
    at := vm.Abs();
    var taken := TakeEntry(vm, p);
    LeadsOn(s, at, vm.Abs());
    if taken {
      free, more := TrimLocked(vm, p, batch, spins, s);
    }
  }

  /** Lines 50 to 69, with the entry locked. */
  method TrimLocked(vm: Vm, p: nat, batch: seq<nat>, spins: nat, ghost s: State) returns (free: bool, more: seq<nat>)
    requires vm.Valid() && Leads(s, vm.Abs()) && vm.trim == Scanning(Some(p)) && Batched(vm.Abs(), batch)
    requires p < vm.pte.Length && vm.pte[p].Valid?
    modifies vm.Repr()
    ensures vm.Valid() && Leads(s, vm.Abs())
    ensures !free ==> Stuck(vm.Abs(), batch)
    ensures free ==> vm.trim == Scanning(None) && Batched(vm.Abs(), more) && more == batch + [old(vm.pte[p].frame)]
  {
    more := batch;
    ghost var held;
    free, held := AwaitPage(vm, p, batch, spins, s);
    if free {
      ghost var r := vm.Abs();
      var f := TakePage(vm, p);
      LeadsOn(s, r, vm.Abs());
      more := batch + [f];
      BatchGrows(r, vm.Abs(), batch, f);
    }
  }

  /** Line 54: the trimmer waits for the page's lock, for a bounded time, and gives up only after so many looks. */
  method AwaitPage(vm: Vm, p: nat, batch: seq<nat>, spins: nat, ghost s: State)
    returns (free: bool, ghost held: seq<State>)
    requires vm.Valid() && Leads(s, vm.Abs()) && vm.trim == Scanning(Some(p)) && Batched(vm.Abs(), batch)
    requires p < vm.pte.Length && vm.pte[p].Valid?
    modifies vm.Repr()
    ensures vm.Valid() && Leads(s, vm.Abs()) && vm.trim == Scanning(Some(p)) && Batched(vm.Abs(), batch)
    ensures vm.pte[p] == old(vm.pte[p])
    ensures if free then TrimLockPfnEnabled(vm.Abs())
            else Stuck(vm.Abs(), batch) && |held| == spins && AllHeld(s, held, vm.pte[p].frame)
  {
    PauseTrimmer(vm, batch, s);
    AtPte(vm.Abs(), p);
    var i := 0;
    held := [];
    var f := vm.pte[p].frame;
    while i < spins && vm.pfnLock[f] != Nobody
      invariant vm.Valid() && Leads(s, vm.Abs()) && vm.trim == Scanning(Some(p)) && Batched(vm.Abs(), batch)
      invariant vm.pte[p] == Types.Valid(f) && f < vm.pfnLock.Length
      invariant i == |held| <= spins && AllHeld(s, held, f)
    {
      held := LookAgain(vm, p, f, batch, held, s);
      i := i + 1;
    }
    free := vm.pfnLock[f] == Nobody;
  }

  method LookAgain(vm: Vm, p: nat, f: nat, ghost batch: seq<nat>, ghost held: seq<State>, ghost s: State)
    returns (ghost more: seq<State>)
    requires vm.Valid() && Leads(s, vm.Abs()) && vm.trim == Scanning(Some(p)) && Batched(vm.Abs(), batch)
    requires p < vm.pte.Length && vm.pte[p] == Types.Valid(f) && f < vm.pfnLock.Length && vm.pfnLock[f] != Nobody
    requires AllHeld(s, held, f)
    modifies vm.Repr()
    ensures vm.Valid() && Leads(s, vm.Abs()) && vm.trim == Scanning(Some(p)) && Batched(vm.Abs(), batch)
    ensures vm.pte[p] == Types.Valid(f) && |more| == |held| + 1 && AllHeld(s, more, f)
  {
    HeldMore(s, held, f, vm.Abs());
    more := held + [vm.Abs()];
    PauseTrimmer(vm, batch, s);
  }

  lemma BatchGrows(s: State, r: State, batch: seq<nat>, f: nat)
    requires Batched(s, batch) && f < |s.place| && !s.place[f].TrimBatch? && r.place == s.place[f := TrimBatch]
    ensures Batched(r, batch + [f])
  {
  }

  function Next(cursor: nat, n: nat): nat {
    if cursor + 1 == n then 0 else cursor + 1
  }

  /** The entry reached after k moves, with wrap-around. */
  function Wrapped(cursor: nat, k: nat, n: nat): nat {
    if k == 0 then cursor else Next(Wrapped(cursor, k - 1, n), n)
  }

  /** The moves go through the entries in order, and from the last one to the first. */
  lemma {:induction false} WrappedIsModulo(cursor: nat, k: nat, n: nat)
    requires cursor < n
    ensures Wrapped(cursor, k, n) == (cursor + k) % n
  {
    if k > 0 {
      WrappedIsModulo(cursor, k - 1, n);
      ModuloNext(cursor + k - 1, n);
    }
  }

  lemma ModuloNext(a: nat, n: nat)
    requires 0 < n
    ensures (a + 1) % n == if a % n + 1 == n then 0 else a % n + 1
  {
    var q, r := a / n, a % n;
    assert a == q * n + r;
    if r + 1 == n {
      assert a + 1 == (q + 1) * n;
      ModuloOf(q + 1, 0, n);
    } else {
      ModuloOf(q, r + 1, n);
    }
  }

  lemma ModuloOf(q: nat, r: nat, n: nat)
    requires r < n
    ensures (q * n + r) % n == r
  {
    var a := q * n + r;
    assert (a / n - q) * n == r - a % n;
    Multiple(a / n - q, n);
  }

  lemma Multiple(d: int, n: int)
    requires 0 <= n
    ensures (1 <= d ==> n <= d * n) && (d <= -1 ==> d * n <= -n)
  {
  }

  /** The attempt at which an entry has its turn in a round. */
  function TurnOf(cursor: nat, p: nat, n: nat): int {
    if p > cursor then p - cursor else p + n - cursor
  }

  /** In a round of n attempts every entry has its turn, and only one. */
  lemma EachEntryHasOneTurn(cursor: nat, p: nat, k: nat, n: nat)
    requires cursor < n && p < n && 1 <= k <= n
    ensures 1 <= TurnOf(cursor, p, n) <= n && (Wrapped(cursor, k, n) == p <==> k == TurnOf(cursor, p, n))
  {
    WrappedIsModulo(cursor, k, n);
    if cursor + k < n { ModuloOf(0, cursor + k, n); } else { WrapOnce(cursor + k, n); }
  }

  lemma WrapOnce(a: nat, n: nat)
    requires n <= a < 2 * n
    ensures a % n == a - n
  {
    ModuloOf(1, a - n, n);
  }

  /** What the attempts of a scan took, given the state at each. */
  ghost function Hits(seen: seq<State>, cursor: nat, n: nat): seq<nat> {
    if seen == [] then []
    else
      var k := |seen| - 1;
      var p := Wrapped(cursor, k + 1, n);
      Hits(seen[..k], cursor, n) + if Takeable(seen[k], p) then [seen[k].pte[p].frame] else []
  }

  /** What was takeable at its turn was taken. */
  lemma {:induction false} HitIsTaken(seen: seq<State>, cursor: nat, n: nat, k: nat)
    requires k < |seen| && Takeable(seen[k], Wrapped(cursor, k + 1, n))
    ensures seen[k].pte[Wrapped(cursor, k + 1, n)].frame in Hits(seen, cursor, n)
    decreases |seen|
  {
    var last := |seen| - 1;
    if k < last {
      HitIsTaken(seen[..last], cursor, n, k);
    }
  }

  /** The entry was free and valid at every attempt, and its frame was taken. */
  ghost predicate TakenIfTakeable(seen: seq<State>, cursor: nat, n: nat, p: nat) {
    (forall k :: 0 <= k < |seen| ==>
       p < |seen[k].pte| && p < |seen[k].pteLock| && seen[k].pte[p].Valid? && seen[k].pteLock[p] == Nobody) ==>
      exists k :: 0 <= k < |seen| && Takeable(seen[k], p) && seen[k].pte[p].frame in Hits(seen, cursor, n)
  }

  ghost predicate PassesNothingBy(seen: seq<State>, cursor: nat, n: nat) {
    forall p :: 0 <= p < n ==> TakenIfTakeable(seen, cursor, n, p)
  }

  lemma RoundPassesNothingBy(seen: seq<State>, cursor: nat, n: nat)
    requires cursor < n
    ensures n <= |seen| ==> PassesNothingBy(seen, cursor, n)
  {
    forall p | n <= |seen| && 0 <= p < n ensures TakenIfTakeable(seen, cursor, n, p)
      { RoundTakesAll(seen, cursor, n, p); }
  }

  /** A scan of a whole round passes nothing by. */
  lemma RoundTakesAll(seen: seq<State>, cursor: nat, n: nat, p: nat)
    requires cursor < n <= |seen| && p < n
    ensures TakenIfTakeable(seen, cursor, n, p)
  {
    var k := TurnOf(cursor, p, n);
    EachEntryHasOneTurn(cursor, p, k, n);
    if Takeable(seen[k - 1], p) { HitIsTaken(seen, cursor, n, k - 1); }
  }

  /** The batch and the last entry visited are what the attempts make them. */
  ghost predicate Explains(seen: seq<State>, cursor: nat, n: nat, batch: seq<nat>, last: nat) {
    batch == Hits(seen, cursor, n) && last == Wrapped(cursor, |seen|, n)
  }

  lemma OneMoreHit(seen: seq<State>, at: State, cursor: nat, n: nat, batch: seq<nat>)
    requires batch == Hits(seen, cursor, n)
    ensures var p := Next(Wrapped(cursor, |seen|, n), n);
            Explains(seen + [at], cursor, n, batch + if Takeable(at, p) then [at.pte[p].frame] else [], p)
  {
    assert (seen + [at])[..|seen|] == seen;
  }

  /** Lines 31 to 69. */
  method Attempt(vm: Vm, cursor: nat, batch: seq<nat>, spins: nat, ghost s: State)
    returns (free: bool, next: nat, more: seq<nat>, ghost at: State)
    requires vm.Valid() && Leads(s, vm.Abs()) && vm.trim == Scanning(None) && cursor < vm.pte.Length
    requires Batched(vm.Abs(), batch)
    modifies vm.Repr()
    ensures vm.Valid() && Leads(s, vm.Abs()) && Leads(s, at)
    ensures next == Next(cursor, vm.pte.Length) && next < vm.pte.Length
    ensures !free ==> Stuck(vm.Abs(), batch)
    ensures free ==> vm.trim == Scanning(None) && Batched(vm.Abs(), more)
    ensures free ==> more == batch + if Takeable(at, next) then [at.pte[next].frame] else []
  {
    next := cursor + 1;
    if next == vm.pte.Length { next := 0; }
    free, more, at := TryTrim(vm, next, batch, spins, s);
  }

  /** Lines 28 to 70. The scan starts after the cursor and wraps around. */
  method Scan(vm: Vm, cursor: nat, spins: nat, ghost s: State)
    returns (free: bool, batch: seq<nat>, last: nat, ghost seen: seq<State>)
    requires vm.Valid() && Leads(s, vm.Abs()) && vm.trim == Scanning(None) && cursor < vm.pte.Length
    requires Batched(vm.Abs(), [])
    modifies vm.Repr()
    ensures vm.Valid() && Leads(s, vm.Abs()) && AllLed(s, seen) && last < vm.pte.Length
    ensures |batch| <= MAX_TRIM_BATCH_SIZE && |seen| <= MAX_TRIM_ATTEMPTS
    ensures Explains(seen, cursor, vm.pte.Length, batch, last)
    ensures !free ==> Stuck(vm.Abs(), batch)
    ensures free ==> vm.trim == Scanning(None) && Batched(vm.Abs(), batch)
    ensures free && |batch| < MAX_TRIM_BATCH_SIZE ==> |seen| == MAX_TRIM_ATTEMPTS
  {
    var attempts := 0;
    ghost var n := vm.pte.Length;
    free, batch, last, seen := true, [], cursor, [];
    while |batch| < MAX_TRIM_BATCH_SIZE && attempts < MAX_TRIM_ATTEMPTS
      invariant vm.Valid() && Leads(s, vm.Abs()) && vm.trim == Scanning(None)
      invariant Batched(vm.Abs(), batch) && |batch| <= MAX_TRIM_BATCH_SIZE && attempts == |seen| <= MAX_TRIM_ATTEMPTS
      invariant AllLed(s, seen) && last < n && Explains(seen, cursor, n, batch, last)
      decreases MAX_TRIM_ATTEMPTS - attempts
    {
      ghost var at := vm.Abs();
      var next, more;
      free, next, more, at := Attempt(vm, last, batch, spins, s);
      if !free { return; }
      OneMoreHit(seen, at, cursor, n, batch);
      last, batch, attempts, seen := next, more, attempts + 1, seen + [at];
    }
    free := true;
  }

  // ---------- After the scan ----------

  lemma FrameHeld(s: State, f: nat)
    requires Inv(s) && f < |s.place|
    ensures s.trim.Scanning? || s.trim.Marking? ==> (s.pfnLock[f] == Trimmer <==> s.place[f].TrimBatch?)
    ensures s.place[f].TrimBatch? ==> s.pfnLock[f] == Trimmer
  {
    assert FrameOk(s, f);
  }

  /** Line 79: every page of the batch is unmapped in one call. */
  method UnmapBatch(vm: Vm)
    requires vm.Valid() && vm.trim == Scanning(None)
    modifies vm.Repr()
    ensures vm.Valid() && Leads(old(vm.Abs()), vm.Abs()) && vm.Abs() == TrimUnmapStep(old(vm.Abs()))
  {
    ghost var s := vm.Abs();
    OneStep(s, ByTrimmer(TrimUnmap));
    ClearMappings(vm);
    vm.trim := Marking;
    assert vm.mapped[..] == TrimUnmapStep(s).mapped;
  }

  predicate Taken(vm: Vm, p: nat)
    requires p < vm.pte.Length
    reads vm.pte, vm.place
  {
    vm.pte[p].Transition? && vm.pte[p].frame < vm.place.Length && vm.place[vm.pte[p].frame].TrimBatch?
  }

  method ClearMappings(vm: Vm)
    requires vm.Apart() && vm.mapped.Length == vm.pte.Length
    modifies vm.mapped
    ensures vm.Abs() == old(vm.Abs()).(mapped := vm.mapped[..])
    ensures forall p :: 0 <= p < vm.mapped.Length ==> vm.mapped[p] == if Taken(vm, p) then None else old(vm.mapped[p])
  {
    forall p | 0 <= p < vm.mapped.Length && Taken(vm, p) {
      vm.mapped[p] := None;
    }
  }

  method MarkPage(vm: Vm, f: nat)
    requires vm.Valid() && vm.trim == Marking && f < vm.place.Length && vm.place[f].TrimBatch?
    modifies vm.Repr()
    ensures vm.Valid() && Leads(old(vm.Abs()), vm.Abs()) && vm.Abs() == TrimMarkStep(old(vm.Abs()), f)
  {
    OneStep(vm.Abs(), ByTrimmer(TrimMark(f)));
    vm.SetPfnStatus(f, Modified);
  }

  /** The first i pages of the batch are marked as modified. */
  ghost predicate Marked(s: State, batch: seq<nat>, i: nat)
    requires i <= |batch|
  {
    forall j :: 0 <= j < i ==> batch[j] < |s.status| && s.status[batch[j]] == Modified
  }

  lemma MarkedKept(s: State, r: State, batch: seq<nat>, i: nat)
    requires Kept(Trimmer, s, r) && Batched(s, batch) && i <= |batch| && Marked(s, batch, i)
    ensures Marked(r, batch, i)
  {
    forall j | 0 <= j < i ensures batch[j] < |r.status| && r.status[batch[j]] == Modified {
      assert batch[j] in batch;
      assert TrimFrameKept(s, r, batch[j]);
    }
  }

  /** Lines 89 to 99. */
  method MarkBatch(vm: Vm, batch: seq<nat>, ghost s: State)
    requires vm.Valid() && Leads(s, vm.Abs()) && vm.trim == Marking && Batched(vm.Abs(), batch)
    modifies vm.Repr()
    ensures vm.Valid() && Leads(s, vm.Abs()) && vm.trim == Marking && Batched(vm.Abs(), batch)
    ensures Marked(vm.Abs(), batch, |batch|)
  {
    var i := 0;
    while i < |batch|
      invariant i <= |batch| && vm.Valid() && Leads(s, vm.Abs()) && vm.trim == Marking && Batched(vm.Abs(), batch)
      invariant Marked(vm.Abs(), batch, i)
    {
      MarkNext(vm, batch, i, s);
      i := i + 1;
    }
  }

  method MarkNext(vm: Vm, batch: seq<nat>, i: nat, ghost s: State)
    requires vm.Valid() && Leads(s, vm.Abs()) && vm.trim == Marking && Batched(vm.Abs(), batch)
    requires i < |batch| && Marked(vm.Abs(), batch, i)
    modifies vm.Repr()
    ensures vm.Valid() && Leads(s, vm.Abs()) && vm.trim == Marking && Batched(vm.Abs(), batch)
    ensures Marked(vm.Abs(), batch, i + 1)
  {
    PauseMarking(vm, batch, i, s);
    ghost var r := vm.Abs();
    assert batch[i] in batch;
    MarkPage(vm, batch[i]);
    LeadsOn(s, r, vm.Abs());
  }

  method PauseMarking(vm: Vm, ghost batch: seq<nat>, ghost i: nat, ghost s: State)
    requires vm.Valid() && Leads(s, vm.Abs()) && vm.trim == Marking && Batched(vm.Abs(), batch)
    requires i < |batch| && Marked(vm.Abs(), batch, i)
    modifies vm.Repr()
    ensures vm.Valid() && Leads(s, vm.Abs()) && vm.trim == Marking && Batched(vm.Abs(), batch)
    ensures Marked(vm.Abs(), batch, i)
  {
    ghost var r := vm.Abs();
    PauseTrimmer(vm, batch, s);
    MarkedKept(r, vm.Abs(), batch, i);
  }

  /** insert_list_to_tail_list: the batch is linked onto the modified list. */
  method SpliceBatch(vm: Vm, batch: seq<nat>)
    requires vm.Valid() && vm.trim == Marking && Batched(vm.Abs(), batch) && Marked(vm.Abs(), batch, |batch|)
    modifies vm.Repr()
    ensures vm.Valid() && Leads(old(vm.Abs()), vm.Abs()) && vm.Abs() == TrimSpliceStep(old(vm.Abs()))
  {
    ghost var s := vm.Abs();
    forall f | 0 <= f < |s.place| && s.place[f].TrimBatch? ensures s.status[f] == Modified {
      var j :| 0 <= j < |batch| && batch[j] == f;
    }
    OneStep(s, ByTrimmer(TrimSplice));
    PlaceOnModifiedList(vm);
    vm.trim := Releasing;
    assert vm.place[..] == TrimSpliceStep(s).place;
  }

  method PlaceOnModifiedList(vm: Vm)
    requires vm.Apart()
    modifies vm.place
    ensures vm.Abs() == old(vm.Abs()).(place := vm.place[..])
    ensures forall f :: 0 <= f < vm.place.Length
              ==> vm.place[f] == if old(vm.place[f]).TrimBatch? then ModifiedList else old(vm.place[f])
  {
    forall f | 0 <= f < vm.place.Length && vm.place[f].TrimBatch? {
      vm.place[f] := ModifiedList;
    }
  }

  method UnlockPage(vm: Vm, f: nat)
    requires vm.Valid() && vm.trim == Releasing && f < vm.pfnLock.Length && vm.pfnLock[f] == Trimmer
    modifies vm.Repr()
    ensures vm.Valid() && Leads(old(vm.Abs()), vm.Abs()) && vm.Abs() == TrimUnlockStep(old(vm.Abs()), f)
  {
    OneStep(vm.Abs(), ByTrimmer(TrimUnlock(f)));
    vm.SetPfnLock(f, Nobody);
  }

  lemma BatchIsHeld(s: State, batch: seq<nat>)
    requires Inv(s) && s.trim == Marking && Batched(s, batch)
    ensures Holds(Trimmer, s, batch, 0)
  {
    assert batch[0..] == batch;
    forall f | 0 <= f < |s.pfnLock| ensures s.pfnLock[f] == Trimmer <==> f in batch { FrameHeld(s, f); }
  }

  method ReleaseNext(vm: Vm, batch: seq<nat>, i: nat, ghost s: State)
    requires vm.Valid() && Leads(s, vm.Abs()) && vm.trim == Releasing && i < |batch|
    requires Holds(Trimmer, vm.Abs(), batch, i)
    modifies vm.Repr()
    ensures vm.Valid() && Leads(s, vm.Abs()) && vm.trim == Releasing && Holds(Trimmer, vm.Abs(), batch, i + 1)
  {
    ghost var r := vm.Abs();
    Pause(vm, Trimmer, s);
    HoldsKept(Trimmer, r, vm.Abs(), batch, i);
    r := vm.Abs();
    assert batch[i] == batch[i..][0] && batch[i] in batch;
    UnlockPage(vm, batch[i]);
    HoldsOneLess(Trimmer, r, vm.Abs(), batch, i);
    LeadsOn(s, r, vm.Abs());
  }

  /** Lines 106 to 112: every page of the batch is unlocked, once. */
  method ReleaseBatch(vm: Vm, batch: seq<nat>, ghost s: State)
    requires vm.Valid() && Leads(s, vm.Abs()) && vm.trim == Releasing && Holds(Trimmer, vm.Abs(), batch, 0)
    modifies vm.Repr()
    ensures vm.Valid() && Leads(s, vm.Abs()) && vm.trim == Scanning(None)
    ensures HoldsNone(vm.Abs())
  {
    var i := 0;
    while i < |batch|
      invariant i <= |batch| && vm.Valid() && Leads(s, vm.Abs()) && vm.trim == Releasing
      invariant Holds(Trimmer, vm.Abs(), batch, i)
    {
      ReleaseNext(vm, batch, i, s);
      i := i + 1;
    }
    EndTrim(vm, s);
  }

  method EndTrim(vm: Vm, ghost s: State)
    requires vm.Valid() && Leads(s, vm.Abs()) && vm.trim == Releasing
    requires HoldsNone(vm.Abs())
    modifies vm.Repr()
    ensures vm.Valid() && Leads(s, vm.Abs()) && vm.trim == Scanning(None)
    ensures HoldsNone(vm.Abs())
  {
    ghost var r := vm.Abs();
    OneStep(r, ByTrimmer(TrimEnd));
    vm.trim := Scanning(None);
    LeadsOn(s, r, vm.Abs());
  }

  ghost predicate HoldsNone(s: State) {
    forall f :: 0 <= f < |s.pfnLock| ==> s.pfnLock[f] != Trimmer
  }

  /** trim_pages, among the other threads: an execution is a run of the protocol. The trimmer comes to
      it, and leaves it, without a page; it stays in it only if a page's lock is not free within the given spins.
      The states seen are those at its attempts: it takes what is takeable. */
  method TrimPages(vm: Vm, cursor: nat, spins: nat) returns (done: bool, count: nat, last: nat, ghost seen: seq<State>)
    requires vm.Valid() && vm.trim == Scanning(None) && cursor < vm.pte.Length && HoldsNone(vm.Abs())
    modifies vm.Repr()
    ensures vm.Valid() && Leads(old(vm.Abs()), vm.Abs())
    ensures AllLed(old(vm.Abs()), seen) && count == |Hits(seen, cursor, vm.pte.Length)| <= MAX_TRIM_BATCH_SIZE
    ensures |seen| <= MAX_TRIM_ATTEMPTS && (done && count < MAX_TRIM_BATCH_SIZE ==> |seen| == MAX_TRIM_ATTEMPTS)
    ensures last == if done && count > 0 then Wrapped(cursor, |seen|, vm.pte.Length) else cursor
    ensures done ==> vm.trim == Scanning(None) && HoldsNone(vm.Abs())
    ensures !done ==> Stuck(vm.Abs(), Hits(seen, cursor, vm.pte.Length))
    ensures |seen| >= vm.pte.Length ==> PassesNothingBy(seen, cursor, vm.pte.Length)
  {
    ghost var s := vm.Abs();
    NoSteps(Trimmer, s);
    NoneInBatch(s);
    var batch, reached;
    done, batch, reached, seen := Scan(vm, cursor, spins, s);
    RoundPassesNothingBy(seen, cursor, vm.pte.Length);
    count, last := |batch|, cursor;
    if done {
      if count > 0 {
        last := reached;
        FinishBatch(vm, batch, s);
      } else {
        NoneHeld(vm.Abs());
      }
    }
  }

  lemma NoneInBatch(s: State)
    requires Inv(s) && HoldsNone(s)
    ensures forall f :: 0 <= f < |s.place| ==> !s.place[f].TrimBatch?
  {
    forall f | 0 <= f < |s.place| ensures !s.place[f].TrimBatch? { FrameHeld(s, f); }
  }

  lemma NoneHeld(s: State)
    requires Inv(s) && s.trim.Scanning? && forall f :: 0 <= f < |s.place| ==> !s.place[f].TrimBatch?
    ensures HoldsNone(s)
  {
    forall f | 0 <= f < |s.pfnLock| ensures s.pfnLock[f] != Trimmer { FrameHeld(s, f); }
  }

  /** Lines 78 to 112. */
  method FinishBatch(vm: Vm, batch: seq<nat>, ghost s: State)
    requires vm.Valid() && Leads(s, vm.Abs()) && vm.trim == Scanning(None) && Batched(vm.Abs(), batch)
    modifies vm.Repr()
    ensures vm.Valid() && Leads(s, vm.Abs()) && vm.trim == Scanning(None)
    ensures HoldsNone(vm.Abs())
  {
    PauseTrimmer(vm, batch, s);
    ghost var r := vm.Abs();
    UnmapBatch(vm);
    LeadsOn(s, r, vm.Abs());
    MarkBatch(vm, batch, s);
    r := vm.Abs();
    BatchIsHeld(r, batch);
    SpliceBatch(vm, batch);
    LeadsOn(s, r, vm.Abs());
    ReleaseBatch(vm, batch, s);
  }
}
