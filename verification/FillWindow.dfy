/** A run that loses a store: the address is mapped before the frame is filled. */
module FillWindow {
  import opened Types
  import opened VmState
  import opened Steps
  import opened Runs
  import opened Transparency

  /** One entry, one frame holding garbage, one user thread, no page file beyond slot zero. */
  function Start(garbage: bv64): State {
    State(1, [Zeroed], [Nobody], [None], [Free], [None], [Nobody], [[garbage]], [FreeList],
          [[0]], [true], [Reserved], 0, 0, [{}], [Idle], Scanning(None), Resting)
  }

  function Filled(garbage: bv64): State {
    Start(garbage).(cache := [{0}], place := [Cache(0)])
  }

  function Popped(garbage: bv64): State {
    Start(garbage).(place := [Hand(0)], thread := [HardWantsPfn(0, 0)])
  }

  function Locked(garbage: bv64): State {
    Popped(garbage).(pfnLock := [User(0)], thread := [HardLocked(0, 0)])
  }

  /** The window is open: the address is mapped and the frame not yet filled. */
  function Window(contents: bv64): State {
    Locked(contents).(pteLock := [User(0)], mapped := [Some(0)], thread := [HardMapped(0, 0, 0)])
  }

  function Closed(): State {
    Window(0).(thread := [HardMapped(0, 0, 1)])
  }

  function Settled(): State {
    Window(0).(thread := [HardFilled(0, 0)])
  }

  function Done(): State {
    Start(0).(pte := [Valid(0)], mapped := [Some(0)], status := [Active], back := [Some(0)], place := [Resident])
  }

  /** The run from s is possible and ends in the page being resident and zero. */
  ghost predicate EndsDone(s: State, ls: seq<Label>) {
    Inv(s) && IsRun(s, ls) && Final(s, ls) == Done()
  }

  /** One more step in front. */
  lemma Before(s: State, l: FaultLabel, r: State, ls: seq<Label>)
    requires Inv(s) && UserEnabled(s, l) && UserApply(s, l) == r && EndsDone(r, ls)
    ensures EndsDone(s, [ByUser(l)] + ls)
  {
    assert ([ByUser(l)] + ls)[1..] == ls;
  }

  function FinishRun(): seq<Label> { [ByUser(HardFinish(0))] + [] }

  function ClearRun(): seq<Label> { [ByUser(HardClear(0))] + FinishRun() }

  function FillRun(): seq<Label> { [ByUser(HardFill(0))] + ClearRun() }

  function StoreRun(v: bv64): seq<Label> { [ByUser(UserWrite(0, 0, v))] + FillRun() }

  function MapRun(v: bv64): seq<Label> { [ByUser(HardLockPte(0))] + StoreRun(v) }

  function LockRun(v: bv64): seq<Label> { [ByUser(HardLockPfn(0))] + MapRun(v) }

  function PopRun(v: bv64): seq<Label> { [ByUser(HardPop(0, 0, 0))] + LockRun(v) }

  /** First use of a page: the address is mapped, another thread stores, and the page is then zeroed. */
  function LostStore(v: bv64): seq<Label> { [ByUser(Refill(0, {0}))] + PopRun(v) }

  lemma FromSettled()
    requires Inv(Settled())
    ensures EndsDone(Settled(), FinishRun())
  {
    assert HardFinishStep(Settled(), 0) == Done();
    UserKeepsInv(Settled(), HardFinish(0));
    Before(Settled(), HardFinish(0), Done(), []);
  }

  lemma FromClosed()
    requires Inv(Closed())
    ensures EndsDone(Closed(), ClearRun())
  {
    assert HardClearStep(Closed(), 0) == Settled();
    UserKeepsInv(Closed(), HardClear(0));
    FromSettled();
    Before(Closed(), HardClear(0), Settled(), FinishRun());
  }

  lemma FromWindow(v: bv64)
    requires Inv(Window(v))
    ensures EndsDone(Window(v), FillRun())
  {
    assert [v][0 := 0] == [0];
    assert HardFillStep(Window(v), 0) == Closed();
    UserKeepsInv(Window(v), HardFill(0));
    FromClosed();
    Before(Window(v), HardFill(0), Closed(), ClearRun());
  }

  lemma FromStore(g: bv64, v: bv64)
    requires Inv(Window(g))
    ensures EndsDone(Window(g), StoreRun(v))
  {
    assert [g][0 := v] == [v];
    assert UserWriteStep(Window(g), 0, 0, v) == Window(v);
    UserKeepsInv(Window(g), UserWrite(0, 0, v));
    FromWindow(v);
    Before(Window(g), UserWrite(0, 0, v), Window(v), FillRun());
  }

  lemma FromLocked(g: bv64, v: bv64)
    requires Inv(Locked(g))
    ensures EndsDone(Locked(g), MapRun(v))
  {
    assert HardMapStep(Locked(g), 0) == Window(g);
    UserKeepsInv(Locked(g), HardLockPte(0));
    FromStore(g, v);
    Before(Locked(g), HardLockPte(0), Window(g), StoreRun(v));
  }

  lemma FromPopped(g: bv64, v: bv64)
    requires Inv(Popped(g))
    ensures EndsDone(Popped(g), LockRun(v))
  {
    assert HardLockPfnStep(Popped(g), 0) == Locked(g);
    UserKeepsInv(Popped(g), HardLockPfn(0));
    FromLocked(g, v);
    Before(Popped(g), HardLockPfn(0), Locked(g), MapRun(v));
  }

  lemma FromFilled(g: bv64, v: bv64)
    requires Inv(Filled(g))
    ensures EndsDone(Filled(g), PopRun(v))
  {
    var emptied: set<nat> := {0} - {0};
    assert emptied == {};
    assert HardPopStep(Filled(g), 0, 0, 0) == Popped(g);
    UserKeepsInv(Filled(g), HardPop(0, 0, 0));
    FromPopped(g, v);
    Before(Filled(g), HardPop(0, 0, 0), Popped(g), LockRun(v));
  }

  lemma StartRefills(g: bv64)
    ensures Inv(Start(g)) && RefillStep(Start(g), 0, {0}) == Filled(g) && Inv(Filled(g))
  {
    InitHasInv(Start(g));
    assert RefillStep(Start(g), 0, {0}) == Filled(g);
    UserKeepsInv(Start(g), Refill(0, {0}));
  }

  lemma FromStart(g: bv64, v: bv64)
    ensures Inv(Start(g)) && EndsDone(Start(g), LostStore(v))
  {
    StartRefills(g);
    FromFilled(g, v);
    Before(Start(g), Refill(0, {0}), Filled(g), PopRun(v));
  }

  /** Memory is not flat when a store falls in a fill window: this run stores v and ends with zero. */
  lemma StoreInWindowIsLost(g: bv64, v: bv64)
    ensures Init(Start(g)) && Inv(Start(g)) && IsRun(Start(g), LostStore(v))
    ensures LastStored(LostStore(v), 0, 0, 0) == v
    ensures Final(Start(g), LostStore(v)).pte == [Valid(0)] && Final(Start(g), LostStore(v)).mem == [[0]]
  {
    FromStart(g, v);
    LastIsStored(v);
  }

  lemma LastIsStored(v: bv64)
    ensures LastStored(LostStore(v), 0, 0, 0) == v
  {
    assert LostStore(v)[1..] == PopRun(v) && PopRun(v)[1..] == LockRun(v) && LockRun(v)[1..] == MapRun(v);
    assert MapRun(v)[1..] == StoreRun(v) && StoreRun(v)[1..] == FillRun();
    assert FillRun()[1..] == ClearRun() && ClearRun()[1..] == FinishRun() && FinishRun()[1..] == [];
    assert LastStored(FillRun(), 0, 0, v) == LastStored(ClearRun(), 0, 0, v) == LastStored(FinishRun(), 0, 0, v) == v;
    assert LastStored(StoreRun(v), 0, 0, 0) == v;
    assert LastStored(LockRun(v), 0, 0, 0) == v;
  }
}
