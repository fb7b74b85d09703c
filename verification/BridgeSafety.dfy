/**
 Every step of the bridge keeps the invariant, and every engine step it makes obeys the rules of
 the engine. The first part treats the end of a cancellation and of a collection, where the engine
 and the client object change together; the second part shows that a step of the bridge is at most
 one step of the engine.
*/
module BridgeSafety {
  import opened Options
  import E = AsyncEngine
  import I = AsyncInvariant
  import Safety = AsyncSafety
  import F = AsyncFrames
  import opened AsyncBridge
  import opened BridgeInvariant
  import opened BridgeSteps
  import opened BridgeEngineSteps

  // ----- what the engine steps of Results and Cancel leave alone -----

  lemma DeleteView(e: E.State, j: JobId)
    requires j in e.jobs
    ensures SameView(e, E.DoDestroy(e, j)) && E.DoDestroy(e, j).res.slots == e.res.slots
  {
    F.DeleteFrame(e, j);
  }

  lemma CompleteView(e: E.State, k: Kind, j: JobId)
    ensures SameView(e, E.DoComplete(e, k, j)) && E.DoComplete(e, k, j).res.slots == e.res.slots
  {
  }

  lemma TakeResultsView(e: E.State, k: Kind, j: JobId, w: E.Wrapper)
    requires j in e.jobs
    ensures SameView(e, E.DoTakeResults(e, k, j, w))
    ensures e.res.slots == map[] ==> E.DoTakeResults(e, k, j, w).res.slots.Keys <= {w}
  {
  }

  lemma TakeWaitingView(e: E.State, j: JobId)
    ensures SameView(e, E.DoTakeWaiting(e, j)) && E.DoTakeWaiting(e, j).res.slots == e.res.slots
  {
  }

  lemma LockAndCancelView(e: E.State, j: JobId)
    requires j in e.jobs
    ensures SameView(e, E.DoLockAndCancel(e, j)) && E.DoLockAndCancel(e, j).res.slots == e.res.slots
  {
  }

  // ----- the steps inside Results and Cancel -----

  lemma LockAndUnlockStepKeeps(s: State)
    requires Inv(s) && Enabled(s, MasterStep(E.LockAndUnlock))
    ensures Inv(AfterEngineStep(s, s.pc.c, E.Do(s.eng, E.LockAndUnlock)))
  {
    assert I.JobInv(s.eng, s.eng.master.j);
    Safety.StepKeepsInv(s.eng, E.LockAndUnlock);
    CallGoesOn(s, E.Do(s.eng, E.LockAndUnlock));
  }

  lemma TakeResultsStepKeeps(s: State, w: E.Wrapper)
    requires Inv(s) && Enabled(s, MasterStep(E.TakeResults(w)))
    ensures E.Obeys(s.eng, E.TakeResults(w))
    ensures Inv(AfterEngineStep(s, s.pc.c, E.Do(s.eng, E.TakeResults(w))))
  {
    assert I.JobInv(s.eng, s.eng.master.j);
    Safety.StepKeepsInv(s.eng, E.TakeResults(w));
    TakeResultsView(s.eng, s.eng.master.k, s.eng.master.j, w);
    CallGoesOn(s, E.Do(s.eng, E.TakeResults(w)));
  }

  lemma CompleteCollectedStepKeeps(s: State)
    requires Inv(s) && Enabled(s, MasterStep(E.CompleteCollected))
    ensures Inv(AfterEngineStep(s, s.pc.c, E.Do(s.eng, E.CompleteCollected)))
  {
    Safety.StepKeepsInv(s.eng, E.CompleteCollected);
    CompleteView(s.eng, s.eng.master.k, s.eng.master.j);
    CallGoesOn(s, E.Do(s.eng, E.CompleteCollected));
  }

  lemma DestroyStepKeeps(s: State)
    requires Inv(s) && Enabled(s, MasterStep(E.Destroy))
    ensures Inv(AfterEngineStep(s, s.pc.c, E.Do(s.eng, E.Destroy)))
  {
    var j := s.eng.master.j;
    assert I.JobInv(s.eng, j);
    Safety.StepKeepsInv(s.eng, E.Destroy);
    DeleteView(s.eng, j);
    if s.pc.Collecting? {
      ResultsReturn(s, E.DoDestroy(s.eng, j));
    } else {
      DestroyedIsNotCalling(s);
      CancelReturns(s, E.DoDestroy(s.eng, j), s.pc.c);
    }
  }

  lemma DestroyedIsNotCalling(s: State)
    requires Inv(s) && s.eng.master.Destroying?
    ensures NotCalling(s, s.eng.master.j)
  {
    assert I.JobInv(s.eng, s.eng.master.j);
  }

  lemma CancellingStepKeeps(s: State, a: E.Action)
    requires Inv(s) && Enabled(s, MasterStep(a)) && s.pc.CancelEngine?
    requires a.TakeWaiting? || a.LockAndCancel? || a.CompleteCancelled?
    ensures Inv(AfterEngineStep(s, s.pc.c, E.Do(s.eng, a)))
  {
    var j := s.eng.master.j;
    assert I.JobInv(s.eng, j);
    Safety.StepKeepsInv(s.eng, a);
    match a {
      case TakeWaiting => TakeWaitingView(s.eng, j);
      case LockAndCancel => LockAndCancelView(s.eng, j);
      case CompleteCancelled => CompleteView(s.eng, E.Qry, j);
    }
    CallGoesOn(s, E.Do(s.eng, a));
  }

  lemma ReleaseCancelledStepKeeps(s: State)
    requires Inv(s) && Enabled(s, MasterStep(E.ReleaseCancelled))
    ensures Inv(AfterEngineStep(s, s.pc.c, E.Do(s.eng, E.ReleaseCancelled)))
  {
    assert I.JobInv(s.eng, s.eng.master.j);
    Safety.StepKeepsInv(s.eng, E.ReleaseCancelled);
    CancelReturns(s, E.Do(s.eng, E.ReleaseCancelled), s.pc.c);
  }

  lemma CollectingStepKeeps(s: State, a: E.Action)
    requires Inv(s) && Enabled(s, MasterStep(a)) && (a.LockAndUnlock? || a.TakeResults? || a.CompleteCollected?)
    ensures E.Obeys(s.eng, a) && Inv(AfterEngineStep(s, s.pc.c, E.Do(s.eng, a)))
  {
    if a.LockAndUnlock? { LockAndUnlockStepKeeps(s); }
    else if a.TakeResults? { TakeResultsStepKeeps(s, a.w); }
    else { CompleteCollectedStepKeeps(s); }
  }

  lemma MasterStepKeeps(s: State, a: E.Action)
    requires Inv(s) && Enabled(s, MasterStep(a))
    ensures E.Obeys(s.eng, a) && Inv(AfterEngineStep(s, s.pc.c, E.Do(s.eng, a)))
  {
    if a.Destroy? { DestroyStepKeeps(s); }
    else if a.ReleaseCancelled? { ReleaseCancelledStepKeeps(s); }
    else if a.LockAndUnlock? || a.TakeResults? || a.CompleteCollected? { CollectingStepKeeps(s, a); }
    else { CancellingStepKeeps(s, a); }
  }

  lemma SlaveStepKeeps(s: State, a: E.Action)
    requires Inv(s) && Enabled(s, SlaveStep(a))
    ensures Inv(DoSlaveStep(s, a))
  {
    hide Inv;
    if a.Get? { GetKeeps(s, a.k); }
    else if a.Decide? { DecideKeeps(s, a.k); }
    else if a.CallbackReturns? { CallbackReturnsKeeps(s, a.k); }
    else { QuietSlaveStepKeeps(s, a); }
  }

  lemma CallbackStepKeeps(s: State, a: Action)
    requires Inv(s) && Enabled(s, a) && (a.CbLock? || a.CbCompare? || a.CbSetWaiting? || a.CbTest? || a.CbPost?)
    ensures Inv(Do(s, a))
  {
    hide Inv;
    match a
    case CbLock(k) => CbLockKeeps(s, k);
    case CbCompare(k) => CbCompareKeeps(s, k);
    case CbSetWaiting(k) => CbSetWaitingKeeps(s, k);
    case CbTest(k) => CbTestKeeps(s, k);
    case CbPost(k) => CbPostKeeps(s, k);
  }

  lemma CancelStepKeeps(s: State, a: Action)
    requires Inv(s) && Enabled(s, a) && (a.CancelAll? || a.CheckActive? || a.DoCancel? || a.WaitForRequest?
      || a.CancelJob?)
    ensures Inv(Do(s, a))
  {
    hide Inv;
    match a
    case CancelAll(c) => CancelAllKeeps(s, c);
    case CheckActive => CheckActiveKeeps(s);
    case DoCancel => DoCancelKeeps(s);
    case WaitForRequest => WaitForRequestKeeps(s);
    case CancelJob => CancelJobKeeps(s);
  }

  lemma RequestStepKeeps(s: State, a: Action)
    requires Inv(s) && Enabled(s, a) && (a.Submit? || a.TakeMutex? || a.Create? || a.Put? || a.Publish? || a.RunL?
      || a.CheckError?)
    ensures Inv(Do(s, a))
  {
    hide Inv;
    match a
    case Submit(c) => SubmitKeeps(s, c);
    case TakeMutex => TakeMutexKeeps(s);
    case Create(h) => CreateKeeps(s, h);
    case Put => PutKeeps(s);
    case Publish => PublishKeeps(s);
    case RunL(c) => RunLKeeps(s, c);
    case CheckError => CheckErrorKeeps(s);
  }

  /** Every step of the master thread and of the slave threads keeps the invariant of the bridge. */
  lemma StepKeepsInv(s: State, a: Action)
    requires Inv(s) && Enabled(s, a)
    ensures Inv(Do(s, a))
  {
    hide Inv;
    match a
    case SlaveStep(e) => SlaveStepKeeps(s, e);
    case MasterStep(e) => MasterStepKeeps(s, e);
    case CbLock(_) => CallbackStepKeeps(s, a);
    case CbCompare(_) => CallbackStepKeeps(s, a);
    case CbSetWaiting(_) => CallbackStepKeeps(s, a);
    case CbTest(_) => CallbackStepKeeps(s, a);
    case CbPost(_) => CallbackStepKeeps(s, a);
    case CancelAll(_) => CancelStepKeeps(s, a);
    case CheckActive => CancelStepKeeps(s, a);
    case DoCancel => CancelStepKeeps(s, a);
    case WaitForRequest => CancelStepKeeps(s, a);
    case CancelJob => CancelStepKeeps(s, a);
    case _ => RequestStepKeeps(s, a);
  }

  // ----- the bridge is a client of the engine that obeys its rules -----

  /** The engine step that a bridge step makes, if any. */
  function EngineStep(s: State, a: Action): Option<E.Action>
    requires Enabled(s, a)
  {
    match a
    case Create(h) => Some(E.Construct(s.pc.c.k, h))
    case Put => Some(E.Put)
    case RunL(c) =>
      if ClientOf(s, c).status.Completed? && ClientOf(s, c).observer
      then Some(E.BeginResults(c.k, ClientOf(s, c).job)) else None
    case MasterStep(e) => Some(e)
    case CheckError => if WrapperOf(s.pc.c) in s.eng.res.slots then Some(E.ClearError(WrapperOf(s.pc.c))) else None
    case CancelJob => Some(E.BeginCancel(ClientOf(s, s.pc.c).job))
    case SlaveStep(e) => Some(e)
    case _ => None
  }

  /** The engine goes from e to e' by the action given, which obeys the rules, or stays as it is. */
  predicate MovesBy(e: E.State, o: Option<E.Action>, e': E.State) {
    match o
    case None => e' == e
    case Some(a) => E.Enabled(e, a) && E.Obeys(e, a) && e' == E.Do(e, a)
  }

  lemma RunLMoves(s: State, c: Cid)
    requires Inv(s) && Enabled(s, RunL(c))
    ensures MovesBy(s.eng, EngineStep(s, RunL(c)), Do(s, RunL(c)).eng)
  {
    RunLFinds(s, c);
  }

  lemma MasterStepMoves(s: State, e: E.Action)
    requires Inv(s) && Enabled(s, MasterStep(e))
    ensures MovesBy(s.eng, EngineStep(s, MasterStep(e)), Do(s, MasterStep(e)).eng)
  {
    MasterStepKeeps(s, e);
  }

  lemma SlaveStepMoves(s: State, e: E.Action)
    requires Enabled(s, SlaveStep(e))
    ensures MovesBy(s.eng, EngineStep(s, SlaveStep(e)), Do(s, SlaveStep(e)).eng)
  {
  }

  lemma CancelJobMoves(s: State)
    requires Inv(s) && Enabled(s, CancelJob)
    ensures MovesBy(s.eng, EngineStep(s, CancelJob), Do(s, CancelJob).eng)
  {
    CancelJobObeys(s);
  }

  lemma CheckErrorMoves(s: State)
    requires Inv(s) && Enabled(s, CheckError)
    ensures MovesBy(s.eng, EngineStep(s, CheckError), Do(s, CheckError).eng)
  {
  }

  lemma OtherStepsMove(s: State, a: Action)
    requires PcInv(s) && Enabled(s, a) && !a.RunL? && !a.MasterStep? && !a.SlaveStep? && !a.CancelJob? && !a.CheckError?
    ensures MovesBy(s.eng, EngineStep(s, a), Do(s, a).eng)
  {
  }

  /**
   Every step of the bridge is a step of the engine that obeys the rules for clients, or leaves
   the engine as it is. The bridge never breaks a rule of cpix_async.h.
  */
  lemma StepIsEngineStep(s: State, a: Action)
    requires Inv(s) && Enabled(s, a)
    ensures MovesBy(s.eng, EngineStep(s, a), Do(s, a).eng)
  {
    assert PcInv(s);
    hide Inv, PcInv, MovesBy, Do, EngineStep;
    if a.RunL? { RunLMoves(s, a.c); }
    else if a.MasterStep? { MasterStepMoves(s, a.a); }
    else if a.CancelJob? { CancelJobMoves(s); }
    else if a.SlaveStep? { SlaveStepMoves(s, a.sa); }
    else if a.CheckError? { CheckErrorMoves(s); }
    else { OtherStepsMove(s, a); }
  }
}
