/**
 Progress: the bridge can always go on unless it is jammed on a full queue, a jam is for good, and
 without new requests every run drains.
*/
module BridgeProgress {
  import opened Options
  import E = AsyncEngine
  import I = AsyncInvariant
  import F = AsyncFrames
  import opened AsyncBridge
  import opened BridgeInvariant
  import opened BridgeSafety
  import opened BridgeTheorems

  // ----- what never changes -----

  /** The engine is running, with the queues and clients it was set up with. */
  predicate Fits(u: Setup, s: State) {
    && !s.eng.stopped && !s.eng.idx.slave.Exited? && !s.eng.qry.slave.Exited?
    && s.eng.idx.capacity == u.idxCapacity && s.eng.qry.capacity == u.qryCapacity
    && |s.idx.clients| == u.idxClients && |s.qry.clients| == u.qryClients
  }

  predicate SameFit(e: E.State, e': E.State) {
    && e'.stopped == e.stopped
    && e'.idx.capacity == e.idx.capacity && e'.qry.capacity == e.qry.capacity
    && (e'.idx.slave.Exited? ==> e.idx.slave.Exited?) && (e'.qry.slave.Exited? ==> e.qry.slave.Exited?)
  }

  lemma StaysInLoop(e: E.State, a: E.Action)
    requires E.Enabled(e, a) && E.BySlave(a) && !a.ExitLoop?
    ensures E.LaneOf(E.Do(e, a), a.k).slave.Exited? ==> E.LaneOf(e, a.k).slave.Exited?
  {
  }

  lemma SlaveStepFits(e: E.State, a: E.Action)
    requires I.Inv(e) && E.Enabled(e, a) && E.BySlave(a) && !a.ExitLoop?
    ensures SameFit(e, E.Do(e, a))
  {
    StaysInLoop(e, a);
    if !a.Get? {
      if !a.Continue? { F.SlaveJobAlive(e, a); }
      F.SlaveStepsFrame(e, a);
    }
    hide I.Inv;
  }

  lemma MasterStepFits(e: E.State, a: E.Action)
    requires E.Enabled(e, a) && !E.BySlave(a) && !a.Stop?
    ensures SameFit(e, E.Do(e, a))
  {
  }

  lemma SameClients(s: State, a: Action)
    requires Enabled(s, a)
    ensures |Do(s, a).idx.clients| == |s.idx.clients| && |Do(s, a).qry.clients| == |s.qry.clients|
  {
    hide E.Do, E.Enabled;
  }

  lemma EngineStepFits(s: State, a: Action)
    requires Inv(s) && Enabled(s, a)
    ensures SameFit(s.eng, Do(s, a).eng)
  {
    StepIsEngineStep(s, a);
    var o := EngineStep(s, a);
    if o.Some? {
      if E.BySlave(o.value) { SlaveStepFits(s.eng, o.value); } else { MasterStepFits(s.eng, o.value); }
    }
  }

  lemma StepFits(u: Setup, s: State, a: Action)
    requires Inv(s) && Enabled(s, a) && Fits(u, s)
    ensures Fits(u, Do(s, a))
  {
    hide Do, Inv;
    EngineStepFits(s, a);
    SameClients(s, a);
  }

  // ----- someone can always move -----

  /** A step that is not a new request. */
  predicate Internal(a: Action) { !a.Submit? && !a.CancelAll? }

  ghost predicate CanMove(s: State) { exists a :: Internal(a) && Enabled(s, a) }

  /** No client object waits for anything and the master is back in the active scheduler. */
  predicate Quiet(s: State) {
    s.pc.AtRest? && (forall x | x in s.idx.clients + s.qry.clients :: !x.busy)
  }

  /**
   The master waits in put for room in the queue of lane k, holding the static mutex; the slave
   that would make room waits for that mutex in a callback.
  */
  predicate Jammed(s: State, k: Kind) {
    s.pc.Putting? && s.pc.c.k == k && |E.LaneOf(s.eng, k).waiting| == E.LaneOf(s.eng, k).capacity
      && SideOf(s, k).cb.Entering?
  }

  /** The slave of lane k waits for the static mutex while the master holds it. */
  predicate KeptOut(s: State, k: Kind) { SideOf(s, k).cb.Entering? && SideOf(s, k).mutex.ByMaster? }

  /** What the slave of lane k does next. */
  function NextOfSlave(s: State, k: Kind): Action {
    if SlaveOf(s, k).Calling? then NextOfCallback(s, k) else SlaveStep(NextInLoop(SlaveOf(s, k), k))
  }

  function NextInLoop(p: E.Slave, k: Kind): E.Action {
    match p
    case Running(_) => E.DoJob(k, false, false)
    case Finished(_) => E.Lock(k)
    case Deciding(_) => E.Decide(k)
    case Leaving(_, _) => E.Unlock(k)
    case Left(_, destroy) => if destroy then E.CompleteOwn(k) else E.Continue(k)
    case Deleting(_) => E.DeleteOwn(k)
    case _ => E.Get(k)
  }

  function NextOfCallback(s: State, k: Kind): Action {
    match SideOf(s, k).cb
    case Entering => CbLock(k)
    case Inside => CbCompare(k)
    case Matched => CbSetWaiting(k)
    case Testing => CbTest(k)
    case Posting => CbPost(k)
    case _ => SlaveStep(E.CallbackReturns(k))
  }

  lemma CallbackMoves(s: State, k: Kind)
    requires Inv(s) && SlaveOf(s, k).Calling? && !KeptOut(s, k)
    ensures Enabled(s, NextOfCallback(s, k))
  {
    assert CbInv(s, k) by { assert k == E.Idx || k == E.Qry; }
  }

  lemma FinishedIsUnlocked(e: E.State, k: Kind, j: JobId)
    requires I.Control(e) && E.LaneOf(e, k).slave == E.Finished(j)
    ensures E.Enabled(e, E.Lock(k))
  {
    assert I.JobInv(e, j);
  }

  lemma LoopMoves(e: E.State, k: Kind)
    requires I.Control(e) && !E.LaneOf(e, k).slave.Idle? && !E.LaneOf(e, k).slave.Exited?
      && !E.LaneOf(e, k).slave.Calling?
    ensures E.Enabled(e, NextInLoop(E.LaneOf(e, k).slave, k))
  {
    var p := E.LaneOf(e, k).slave;
    if p.Finished? {
      FinishedIsUnlocked(e, k, p.j);
    } else {
      hide I.Control;
      if p.Left? {
        assert E.Enabled(e, if p.destroy then E.CompleteOwn(k) else E.Continue(k));
      }
    }
  }

  lemma OutsideMoves(s: State, k: Kind)
    requires Inv(s) && !SlaveOf(s, k).Idle? && !SlaveOf(s, k).Exited? && !SlaveOf(s, k).Calling?
    ensures Enabled(s, NextOfSlave(s, k))
  {
    LoopMoves(s.eng, k);
    hide Inv, E.Enabled;
  }

  lemma SlaveMoves(s: State, k: Kind)
    requires Inv(s) && !SlaveOf(s, k).Idle? && !SlaveOf(s, k).Exited? && !KeptOut(s, k)
    ensures CanMove(s)
  {
    if SlaveOf(s, k).Calling? { CallbackMoves(s, k); } else { OutsideMoves(s, k); }
    hide Inv, Enabled;
    assert Internal(NextOfSlave(s, k)) && Enabled(s, NextOfSlave(s, k));
  }

  lemma GetMoves(s: State, k: Kind)
    requires Inv(s) && !s.eng.stopped && E.LaneOf(s.eng, k).waiting != [] && !SlaveOf(s, k).Exited? && !KeptOut(s, k)
    ensures CanMove(s)
  {
    if SlaveOf(s, k).Idle? {
      assert Internal(SlaveStep(E.Get(k))) && Enabled(s, SlaveStep(E.Get(k)));
    } else {
      SlaveMoves(s, k);
    }
  }

  /** The slave still has to come to the callback of a pending request. */
  lemma PendingMoves(s: State, c: Cid)
    requires Inv(s) && !s.eng.stopped && !SlaveOf(s, c.k).Exited? && !KeptOut(s, c.k)
    requires IsClient(s, c) && ClientOf(s, c).active && ClientOf(s, c).status.Pending?
    ensures CanMove(s)
  {
    var j := ClientOf(s, c).job;
    assert ClientInv(s, c);
    assert JobLink(s, j);
    assert I.JobInv(s.eng, j);
    if SlaveOf(s, c.k).Idle? { GetMoves(s, c.k); } else { SlaveMoves(s, c.k); }
  }

  lemma AtRestMoves(u: Setup, s: State, c: Cid)
    requires Inv(s) && Fits(u, s) && s.pc.AtRest? && IsClient(s, c) && ClientOf(s, c).busy
    ensures CanMove(s)
  {
    assert ClientInv(s, c);
    assert CbInv(s, c.k) by { assert c.k == E.Idx || c.k == E.Qry; }
    if ClientOf(s, c).status.Pending? {
      PendingMoves(s, c);
    } else {
      assert Internal(RunL(c)) && Enabled(s, RunL(c));
    }
  }

  lemma PuttingMoves(u: Setup, s: State)
    requires Inv(s) && Fits(u, s) && s.pc.Putting? && Capacity(u, s.pc.c.k) > 0
    ensures CanMove(s) || Jammed(s, s.pc.c.k)
  {
    var k := s.pc.c.k;
    if |E.LaneOf(s.eng, k).waiting| != E.LaneOf(s.eng, k).capacity {
      assert Internal(Put) && Enabled(s, Put);
    } else if !SideOf(s, k).cb.Entering? {
      GetMoves(s, k);
    }
  }

  /** The master waits for the mutex of a job only while a slave that can move holds it. */
  lemma HolderMoves(u: Setup, s: State, j: JobId)
    requires Inv(s) && Fits(u, s) && (s.pc.Collecting? || s.pc.CancelEngine?) && j in s.eng.jobs && s.eng.jobs[j].locked
    ensures CanMove(s)
  {
    var k := s.eng.jobs[j].kind;
    assert I.JobInv(s.eng, j);
    assert CbInv(s, k) by { assert k == E.Idx || k == E.Qry; }
    SlaveMoves(s, k);
  }

  function NextInEngine(s: State): E.Action {
    match s.eng.master
    case CancelFound(_) => E.TakeWaiting
    case CancelStarted(_) => E.LockAndCancel
    case CancelDecided(_, destroy) => if destroy then E.CompleteCancelled else E.ReleaseCancelled
    case ResultsFound(_, _) => E.LockAndUnlock
    case ResultsSynced(_, _) => E.TakeResults(if s.pc.AtRest? then 0 else WrapperOf(s.pc.c))
    case ResultsTaken(_, _) => E.CompleteCollected
    case _ => E.Destroy
  }

  lemma InEngineMoves(u: Setup, s: State)
    requires Inv(s) && Fits(u, s) && (s.pc.Collecting? || s.pc.CancelEngine?)
    ensures CanMove(s)
  {
    var j := s.eng.master.j;
    if (s.eng.master.CancelStarted? || s.eng.master.ResultsFound?) && j in s.eng.jobs && s.eng.jobs[j].locked {
      HolderMoves(u, s, j);
    } else {
      assert Internal(MasterStep(NextInEngine(s))) && Enabled(s, MasterStep(NextInEngine(s)));
    }
  }

  function NextOfMaster(s: State): Action {
    match s.pc
    case Creating(_) => Create(None)
    case Publishing(_, _) => Publish
    case Clearing(_) => CheckError
    case CancelStart(_) => CheckActive
    case CancelDoing(_) => DoCancel
    case CancelWaiting(_) => WaitForRequest
    case CancelReady(_) => CancelJob
    case _ => TakeMutex
  }

  lemma SubmittingMoves(u: Setup, s: State)
    requires Inv(s) && Fits(u, s) && s.pc.Submitting?
    ensures CanMove(s)
  {
    var k := s.pc.c.k;
    assert CbInv(s, k) by { assert k == E.Idx || k == E.Qry; }
    if SideOf(s, k).mutex.BySlave? {
      SlaveMoves(s, k);
    } else {
      assert Internal(TakeMutex) && Enabled(s, TakeMutex);
    }
  }

  lemma CancelWaitingMoves(u: Setup, s: State)
    requires Inv(s) && Fits(u, s) && s.pc.CancelWaiting?
    ensures CanMove(s)
  {
    var c := s.pc.c;
    assert CbInv(s, c.k) by { assert c.k == E.Idx || c.k == E.Qry; }
    if ClientOf(s, c).status.Pending? {
      PendingMoves(s, c);
    } else {
      assert Internal(WaitForRequest) && Enabled(s, WaitForRequest);
    }
  }

  lemma OnItsOwnMoves(s: State)
    requires Inv(s)
    requires s.pc.Creating? || s.pc.Publishing? || s.pc.Clearing? || s.pc.CancelStart? || s.pc.CancelDoing?
      || s.pc.CancelReady?
    ensures CanMove(s)
  {
    assert Internal(NextOfMaster(s)) && Enabled(s, NextOfMaster(s));
  }

  /** As long as there is anything left to do, some thread can move, unless the master is jammed on a full queue. */
  lemma SomeoneMoves(u: Setup, s: State)
    requires Inv(s) && Fits(u, s) && u.idxCapacity > 0 && u.qryCapacity > 0
    ensures Quiet(s) || CanMove(s) || (s.pc.Putting? && Jammed(s, s.pc.c.k))
  {
    if s.pc.AtRest? {
      if !Quiet(s) {
        var c := SomeBusy(s);
        AtRestMoves(u, s, c);
      }
    } else if s.pc.Putting? { PuttingMoves(u, s); }
    else if s.pc.Submitting? { SubmittingMoves(u, s); }
    else if s.pc.Collecting? || s.pc.CancelEngine? { InEngineMoves(u, s); }
    else if s.pc.CancelWaiting? { CancelWaitingMoves(u, s); }
    else { OnItsOwnMoves(s); }
  }

  lemma SomeBusy(s: State) returns (c: Cid)
    requires exists x | x in s.idx.clients + s.qry.clients :: x.busy
    ensures IsClient(s, c) && ClientOf(s, c).busy
  {
    var x :| x in s.idx.clients + s.qry.clients && x.busy;
    if x in s.idx.clients {
      var n :| 0 <= n < |s.idx.clients| && s.idx.clients[n] == x;
      c := Cid(E.Idx, n);
    } else {
      var n :| 0 <= n < |s.qry.clients| && s.qry.clients[n] == x;
      c := Cid(E.Qry, n);
    }
  }
}
