/**
 What holds over every run of the engine in which the client keeps to the rules.
*/
module AsyncSafety {
  import opened Options
  import opened AsyncEngine
  import opened AsyncInvariant
  import opened AsyncSteps
  import opened AsyncResources

  // ----- one step -----

  lemma LookupsAreSafe(s: State, k: Kind)
    requires Control(s)
    ensures LookupSafe(s, k)
  {
    forall j | j in LaneOf(s, k).waiting ensures j in s.jobs { assert JobInv(s, j); }
    forall j | j in LaneOf(s, k).started ensures j in s.jobs { assert JobInv(s, j); }
  }

  lemma GetStep(s: State, k: Kind)
    requires Inv(s) && Enabled(s, Get(k))
    ensures Inv(Do(s, Get(k)))
  {
    GetKeeps(s, k);
    MovingNothingConserves(s, DoGet(s, k));
  }

  lemma ExitLoopStep(s: State, k: Kind)
    requires Inv(s) && Enabled(s, ExitLoop(k))
    ensures Inv(Do(s, ExitLoop(k)))
  {
    ExitKeeps(s, k);
    MovingNothingConserves(s, WithSlave(s, k, Exited));
  }

  lemma DoJobStep(s: State, k: Kind, failed: bool, found: bool)
    requires Inv(s) && Enabled(s, DoJob(k, failed, found))
    ensures Inv(Do(s, DoJob(k, failed, found)))
  {
    var j := LaneOf(s, k).slave.j;
    assert JobInv(s, j);
    DoJobKeeps(s, k, j, failed, found);
    DoJobConserves(s, k, j, failed, found);
  }

  lemma LockStep(s: State, k: Kind)
    requires Inv(s) && Enabled(s, Lock(k))
    ensures Inv(Do(s, Lock(k)))
  {
    var j := LaneOf(s, k).slave.j;
    assert JobInv(s, j);
    LockKeeps(s, k, j);
    MovingNothingConserves(s, DoLock(s, k, j));
  }

  lemma DecideStep(s: State, k: Kind)
    requires Inv(s) && Enabled(s, Decide(k))
    ensures Inv(Do(s, Decide(k)))
  {
    var j := LaneOf(s, k).slave.j;
    assert JobInv(s, j);
    DecideKeeps(s, k, j);
    MovingNothingConserves(s, DoDecide(s, k, j));
  }

  lemma CallbackReturnsStep(s: State, k: Kind)
    requires Inv(s) && Enabled(s, CallbackReturns(k))
    ensures Inv(Do(s, CallbackReturns(k)))
  {
    var j := LaneOf(s, k).slave.j;
    assert JobInv(s, j);
    CallbackReturnsKeeps(s, k, j);
    MovingNothingConserves(s, DoCallbackReturns(s, k, j));
  }

  lemma UnlockStep(s: State, k: Kind)
    requires Inv(s) && Enabled(s, Unlock(k))
    ensures Inv(Do(s, Unlock(k)))
  {
    var j := LaneOf(s, k).slave.j;
    assert JobInv(s, j);
    UnlockKeeps(s, k, j, LaneOf(s, k).slave.destroy);
    MovingNothingConserves(s, DoUnlock(s, k, j, LaneOf(s, k).slave.destroy));
  }

  lemma ContinueStep(s: State, k: Kind)
    requires Inv(s) && Enabled(s, Continue(k))
    ensures Inv(Do(s, Continue(k)))
  {
    var j := LaneOf(s, k).slave.j;
    assert JobInv(s, j);
    ContinueKeeps(s, k, j);
    MovingNothingConserves(s, WithSlave(s, k, Idle));
  }

  lemma CompleteOwnStep(s: State, k: Kind)
    requires Inv(s) && Enabled(s, CompleteOwn(k))
    ensures Inv(Do(s, CompleteOwn(k)))
  {
    var j := LaneOf(s, k).slave.j;
    assert JobInv(s, j);
    CompleteOwnKeeps(s, k, j);
    MovingNothingConserves(s, DoCompleteOwn(s, k, j));
  }

  lemma DeleteOwnStep(s: State, k: Kind)
    requires Inv(s) && Enabled(s, DeleteOwn(k))
    ensures Inv(Do(s, DeleteOwn(k)))
  {
    var j := LaneOf(s, k).slave.j;
    assert JobInv(s, j);
    DeleteOwnKeeps(s, k, j);
    MovingNothingConserves(s, WithSlave(s, k, Idle));
    DeleteConserves(WithSlave(s, k, Idle), j);
  }

  lemma ConstructStep(s: State, k: Kind, h: Option<Handle>)
    requires Inv(s) && Enabled(s, Construct(k, h))
    ensures Inv(Do(s, Construct(k, h)))
  {
    ConstructKeeps(s, k, h);
    ConstructConserves(s, k, h);
  }

  lemma PutStep(s: State)
    requires Inv(s) && Enabled(s, Put)
    ensures Inv(Do(s, Put))
  {
    var j := s.master.j;
    assert JobInv(s, j);
    PutKeeps(s, s.master.k, j);
    MovingNothingConserves(s, DoPut(s, s.master.k, j));
  }

  lemma PutRefusedStep(s: State)
    requires Inv(s) && Enabled(s, PutRefused)
    ensures Inv(Do(s, PutRefused))
  {
    var j := s.master.j;
    assert JobInv(s, j);
    PutRefusedKeeps(s, s.master.k, j);
    DeleteConserves(s, j);
    MovingNothingConserves(Delete(s, j), Delete(s, j).(master := Free));
  }

  lemma BeginCancelStep(s: State, j: JobId)
    requires Inv(s) && Enabled(s, BeginCancel(j)) && Obeys(s, BeginCancel(j))
    ensures Inv(Do(s, BeginCancel(j)))
  {
    assert JobInv(s, j);
    LookupsAreSafe(s, Qry);
    BeginCancelKeeps(s, j);
    MovingNothingConserves(s, DoBeginCancel(s, j));
  }

  lemma TakeWaitingStep(s: State)
    requires Inv(s) && Enabled(s, TakeWaiting)
    ensures Inv(Do(s, TakeWaiting))
  {
    var j := s.master.j;
    assert JobInv(s, j);
    LookupsAreSafe(s, Qry);
    TakeWaitingKeeps(s, j);
    MovingNothingConserves(s, DoTakeWaiting(s, j));
  }

  lemma LockAndCancelStep(s: State)
    requires Inv(s) && Enabled(s, LockAndCancel)
    ensures Inv(Do(s, LockAndCancel))
  {
    var j := s.master.j;
    assert JobInv(s, j);
    LockAndCancelKeeps(s, j);
    MovingNothingConserves(s, DoLockAndCancel(s, j));
  }

  lemma CompleteCancelledStep(s: State)
    requires Inv(s) && Enabled(s, CompleteCancelled)
    ensures Inv(Do(s, CompleteCancelled))
  {
    var j := s.master.j;
    assert JobInv(s, j);
    CompleteKeeps(s, Qry, j);
    MovingNothingConserves(s, DoComplete(s, Qry, j));
  }

  lemma ReleaseCancelledStep(s: State)
    requires Inv(s) && Enabled(s, ReleaseCancelled)
    ensures Inv(Do(s, ReleaseCancelled))
  {
    var j := s.master.j;
    assert JobInv(s, j);
    ReleaseCancelledKeeps(s, j);
    MovingNothingConserves(s, s.(master := Free, settled := s.settled + {j}));
  }

  lemma BeginResultsStep(s: State, k: Kind, j: JobId)
    requires Inv(s) && Enabled(s, BeginResults(k, j)) && Obeys(s, BeginResults(k, j))
    ensures Inv(Do(s, BeginResults(k, j)))
  {
    assert JobInv(s, j);
    LookupsAreSafe(s, k);
    BeginResultsKeeps(s, k, j);
    MovingNothingConserves(s, DoBeginResults(s, k, j));
  }

  lemma LockAndUnlockStep(s: State)
    requires Inv(s) && Enabled(s, LockAndUnlock)
    ensures Inv(Do(s, LockAndUnlock))
  {
    var j := s.master.j;
    assert JobInv(s, j);
    LockAndUnlockKeeps(s, s.master.k, j);
    MovingNothingConserves(s, Touch(s, j).(master := ResultsSynced(s.master.k, j)));
  }

  lemma TakeResultsStep(s: State, w: Wrapper)
    requires Inv(s) && Enabled(s, TakeResults(w)) && Obeys(s, TakeResults(w))
    ensures Inv(Do(s, TakeResults(w)))
  {
    var j := s.master.j;
    assert JobInv(s, j);
    TakeResultsKeeps(s, s.master.k, j, w);
    TakeResultsConserves(s, s.master.k, j, w);
  }

  lemma CompleteCollectedStep(s: State)
    requires Inv(s) && Enabled(s, CompleteCollected)
    ensures Inv(Do(s, CompleteCollected))
  {
    var j := s.master.j;
    assert JobInv(s, j);
    CompleteKeeps(s, s.master.k, j);
    MovingNothingConserves(s, DoComplete(s, s.master.k, j));
  }

  lemma DestroyStep(s: State)
    requires Inv(s) && Enabled(s, Destroy)
    ensures Inv(Do(s, Destroy))
  {
    var j := s.master.j;
    assert JobInv(s, j);
    DestroyKeeps(s, j);
    DeleteConserves(s, j);
    MovingNothingConserves(Delete(s, j), DoDestroy(s, j));
  }

  lemma ResourcesAsideKeepsControl(s: State, s': State)
    requires Control(s) && forall i: JobId :: Untouched(s, s', i)
    requires s'.idx == s.idx && s'.qry == s.qry && s'.calls == s.calls
    ensures Control(s')
  {
    forall i: JobId ensures JobInv(s', i) { assert JobInv(s, i) && Untouched(s, s', i); Elsewhere(s, s', i); }
  }

  lemma StopStep(s: State)
    requires Inv(s) && Enabled(s, Stop)
    ensures Inv(Do(s, Stop))
  {
    ResourcesAsideKeepsControl(s, s.(stopped := true));
    MovingNothingConserves(s, s.(stopped := true));
  }

  lemma ClearErrorStep(s: State, w: Wrapper)
    requires Inv(s) && Enabled(s, ClearError(w))
    ensures Inv(Do(s, ClearError(w)))
  {
    ResourcesAsideKeepsControl(s, DoClearError(s, w));
    ClearErrorConserves(s, w);
  }

  lemma DestroyHitsStep(s: State, j: JobId)
    requires Inv(s) && Enabled(s, DestroyHits(j))
    ensures Inv(Do(s, DestroyHits(j)))
  {
    ResourcesAsideKeepsControl(s, DoDestroyHits(s, j));
    DestroyHitsConserves(s, j);
  }

  lemma OpenHandleStep(s: State, h: Handle)
    requires Inv(s) && Enabled(s, OpenHandle(h))
    ensures Inv(Do(s, OpenHandle(h)))
  {
    ResourcesAsideKeepsControl(s, DoCount(s, h, 1));
    CountConserves(s, h, 1);
  }

  lemma CloseHandleStep(s: State, h: Handle)
    requires Inv(s) && Enabled(s, CloseHandle(h))
    ensures Inv(Do(s, CloseHandle(h)))
  {
    ResourcesAsideKeepsControl(s, DoCount(s, h, -1));
    CountConserves(s, h, -1);
  }

  /** Every step of either thread keeps the invariant, provided the client keeps to its rules. */
  lemma StepKeepsInv(s: State, a: Action)
    requires Inv(s) && Enabled(s, a) && Obeys(s, a)
    ensures Inv(Do(s, a))
  {
    match a
    case Construct(k, h) => ConstructStep(s, k, h);
    case Put => PutStep(s);
    case PutRefused => PutRefusedStep(s);
    case BeginCancel(j) => BeginCancelStep(s, j);
    case TakeWaiting => TakeWaitingStep(s);
    case LockAndCancel => LockAndCancelStep(s);
    case CompleteCancelled => CompleteCancelledStep(s);
    case ReleaseCancelled => ReleaseCancelledStep(s);
    case BeginResults(k, j) => BeginResultsStep(s, k, j);
    case LockAndUnlock => LockAndUnlockStep(s);
    case TakeResults(w) => TakeResultsStep(s, w);
    case CompleteCollected => CompleteCollectedStep(s);
    case Destroy => DestroyStep(s);
    case Stop => StopStep(s);
    case ClearError(w) => ClearErrorStep(s, w);
    case DestroyHits(j) => DestroyHitsStep(s, j);
    case OpenHandle(h) => OpenHandleStep(s, h);
    case CloseHandle(h) => CloseHandleStep(s, h);
    case Get(k) => GetStep(s, k);
    case ExitLoop(k) => ExitLoopStep(s, k);
    case DoJob(k, failed, found) => DoJobStep(s, k, failed, found);
    case Lock(k) => LockStep(s, k);
    case Decide(k) => DecideStep(s, k);
    case CallbackReturns(k) => CallbackReturnsStep(s, k);
    case Unlock(k) => UnlockStep(s, k);
    case Continue(k) => ContinueStep(s, k);
    case CompleteOwn(k) => CompleteOwnStep(s, k);
    case DeleteOwn(k) => DeleteOwnStep(s, k);
  }
}
