/**
 Every step of either thread keeps the invariant. A step concerns one job; `Elsewhere` deals
 with all the others at once, and one lemma per step deals with the job concerned. The lemmas
 whose names end in At show the invariant of that one job after the step; those whose names end in
 Keeps put the two together for the whole state. There is one of each for every step of the slave
 loop and of the functions that submit, cancel and collect.
*/
module AsyncSteps {
  import opened Options
  import opened AsyncEngine
  import opened AsyncInvariant

  // ----- jobs the step does not concern -----

  predicate AboutSlave(p: Slave, i: JobId) { !p.Idle? && !p.Exited? && p.j == i }

  predicate AboutMaster(m: Master, i: JobId) { !m.Free? && m.j == i }

  ghost predicate SameLane(l: Lane, l': Lane, i: JobId) {
    && (i in l'.waiting <==> i in l.waiting)
    && (i in l'.started <==> i in l.started)
    && (l'.slave == l.slave || (!AboutSlave(l.slave, i) && !AboutSlave(l'.slave, i)))
  }

  /** From s to s' nothing changes that concerns job i. */
  ghost predicate Untouched(s: State, s': State, i: JobId) {
    && (i in s'.jobs <==> i in s.jobs)
    && (i in s.jobs ==> s'.jobs[i] == s.jobs[i])
    && s.nextId <= s'.nextId
    && SameLane(s.idx, s'.idx, i)
    && SameLane(s.qry, s'.qry, i)
    && (s'.master == s.master || (!AboutMaster(s.master, i) && !AboutMaster(s'.master, i)))
    && (i in s'.issued <==> i in s.issued)
    && (i in s'.claimed <==> i in s.claimed)
    && (i in s'.settled <==> i in s.settled)
    && (i in s'.calls <==> i in s.calls)
  }

  lemma AliveElsewhere(s: State, s': State, i: JobId)
    requires Untouched(s, s', i) && i in s.jobs && Alive(s, i)
    ensures Alive(s', i)
  {
    if s.jobs[i].kind.Idx? {} else {}
  }

  lemma AtSlaveElsewhere(s: State, s': State, k: Kind, i: JobId)
    requires Untouched(s, s', i) && AtSlave(s, k, LaneOf(s, k).slave, i)
    ensures AtSlave(s', k, LaneOf(s', k).slave, i)
  {
  }

  lemma Elsewhere(s: State, s': State, i: JobId)
    requires Untouched(s, s', i) && JobInv(s, i)
    ensures JobInv(s', i)
  {
    AtSlaveElsewhere(s, s', Idx, i);
    AtSlaveElsewhere(s, s', Qry, i);
    if i in s.jobs { AliveElsewhere(s, s', i); }
  }

  // ----- steps of a slave, at the job concerned -----

  lemma Pop(q: seq<JobId>, i: JobId)
    requires q != [] && Distinct(q)
    ensures i in q[1..] <==> i in q && i != q[0]
    ensures Distinct(q[1..])
  {
    if i in q && i != q[0] {
      var n :| 0 <= n < |q| && q[n] == i;
      assert q[1..][n - 1] == i;
    }
  }

  lemma GetAt(s: State, k: Kind)
    requires LaneOf(s, k).waiting != [] && LaneOf(s, k).slave.Idle? && Distinct(LaneOf(s, k).waiting)
    requires JobInv(s, LaneOf(s, k).waiting[0])
    ensures JobInv(DoGet(s, k), LaneOf(s, k).waiting[0])
  {
    Pop(LaneOf(s, k).waiting, LaneOf(s, k).waiting[0]);
  }

  lemma DoJobAt(s: State, k: Kind, j: JobId, failed: bool, found: bool)
    requires LaneOf(s, k).slave == Running(j) && JobInv(s, j)
    ensures JobInv(DoDoJob(s, k, j, failed, found), j)
  {
    if k.Idx? {} else {}
  }

  lemma LockAt(s: State, k: Kind, j: JobId)
    requires LaneOf(s, k).slave == Finished(j) && JobInv(s, j)
    ensures JobInv(DoLock(s, k, j), j)
  {
    if k.Idx? {} else {}
  }

  lemma CallAt(s: State, k: Kind, j: JobId)
    requires LaneOf(s, k).slave == Deciding(j) && JobInv(s, j) && j in s.jobs && !s.jobs[j].cancelled
    ensures JobInv(WithSlave(s, k, Calling(j)).(calls := s.calls + [j]), j)
  {
    assert j in s.calls + [j];
    match k
    case Idx => assert s.jobs[j].kind.Idx?;
    case Qry => assert s.jobs[j].kind.Qry?;
  }

  lemma DeclineAt(s: State, k: Kind, j: JobId)
    requires LaneOf(s, k).slave == Deciding(j) && JobInv(s, j) && j in s.jobs && s.jobs[j].cancelled
    ensures JobInv(WithSlave(s, k, Leaving(j, true)), j)
  {
    match k
    case Idx => assert s.jobs[j].kind.Idx?;
    case Qry => assert s.jobs[j].kind.Qry?;
  }

  lemma CallbackReturnsAt(s: State, k: Kind, j: JobId)
    requires LaneOf(s, k).slave == Calling(j) && JobInv(s, j)
    ensures JobInv(DoCallbackReturns(s, k, j), j)
  {
    if k.Idx? {} else {}
  }

  lemma UnlockAt(s: State, k: Kind, j: JobId, destroy: bool)
    requires LaneOf(s, k).slave == Leaving(j, destroy) && JobInv(s, j)
    ensures JobInv(DoUnlock(s, k, j, destroy), j)
  {
    if k.Idx? {} else {}
  }

  lemma ContinueAt(s: State, k: Kind, j: JobId)
    requires LaneOf(s, k).slave == Left(j, false) && JobInv(s, j)
    ensures JobInv(WithSlave(s, k, Idle), j)
  {
    if k.Idx? {} else {}
  }

  lemma CompleteOwnAt(s: State, k: Kind, j: JobId)
    requires LaneOf(s, k).slave == Left(j, true) && JobInv(s, j)
    ensures JobInv(DoCompleteOwn(s, k, j), j)
  {
    if k.Idx? {} else {}
  }

  lemma DeleteOwnAt(s: State, k: Kind, j: JobId)
    requires LaneOf(s, k).slave == Deleting(j) && JobInv(s, j)
    ensures JobInv(DoDeleteOwn(s, k, j), j)
  {
    if k.Idx? {} else {}
  }

  // ----- steps of the master, at the job concerned -----

  lemma ConstructAt(s: State, k: Kind, h: Option<Handle>)
    requires s.master.Free? && JobInv(s, s.nextId)
    ensures JobInv(DoConstruct(s, k, h), s.nextId)
  {
    if k.Idx? {} else {}
  }

  lemma PutAt(s: State, k: Kind, j: JobId)
    requires s.master == Putting(k, j) && JobInv(s, j)
    ensures JobInv(DoPut(s, k, j), j)
  {
    if k.Idx? {} else {}
  }

  lemma PutRefusedAt(s: State, k: Kind, j: JobId)
    requires s.master == Putting(k, j) && JobInv(s, j)
    ensures JobInv(Delete(s, j).(master := Free), j)
  {
    if k.Idx? {} else {}
  }

  lemma BeginCancelAt(s: State, j: JobId)
    requires s.master.Free? && JobInv(s, j) && Obeys(s, BeginCancel(j))
    ensures JobInv(DoBeginCancel(s, j), j)
  {
  }

  lemma TakeOut(q: seq<JobId>, j: JobId, i: JobId)
    requires Distinct(q)
    ensures i in Without(q, j) <==> i in q && i != j
    ensures Distinct(Without(q, j))
  {
    if q != [] {
      Pop(q, i);
      Pop(q, j);
      TakeOut(q[1..], j, i);
      if q[0] != j { TakeOut(q[1..], j, q[0]); }
    }
  }

  lemma TakeWaitingAt(s: State, j: JobId)
    requires s.master == CancelFound(j) && JobInv(s, j) && Distinct(s.qry.waiting)
    ensures JobInv(DoTakeWaiting(s, j), j)
  {
    TakeOut(s.qry.waiting, j, j);
  }

  lemma LockAndCancelAt(s: State, j: JobId)
    requires s.master == CancelStarted(j) && JobInv(s, j) && (j in s.jobs ==> !s.jobs[j].locked)
    ensures JobInv(DoLockAndCancel(s, j), j)
  {
  }

  lemma ReleaseCancelledAt(s: State, j: JobId)
    requires s.master == CancelDecided(j, false) && JobInv(s, j)
    ensures JobInv(s.(master := Free, settled := s.settled + {j}), j)
  {
  }

  lemma CompleteAt(s: State, k: Kind, j: JobId)
    requires (s.master == CancelDecided(j, true) && k.Qry?) || s.master == ResultsTaken(k, j)
    requires JobInv(s, j)
    ensures JobInv(DoComplete(s, k, j), j)
  {
    if k.Idx? {} else {}
  }

  lemma BeginResultsAt(s: State, k: Kind, j: JobId)
    requires s.master.Free? && JobInv(s, j) && Obeys(s, BeginResults(k, j))
    ensures JobInv(DoBeginResults(s, k, j), j)
  {
    if k.Idx? {} else {}
  }

  lemma LockAndUnlockAt(s: State, k: Kind, j: JobId)
    requires s.master == ResultsFound(k, j) && JobInv(s, j) && (j in s.jobs ==> !s.jobs[j].locked)
    ensures JobInv(Touch(s, j).(master := ResultsSynced(k, j)), j)
  {
    if k.Idx? {} else {}
  }

  lemma TakeResultsAt(s: State, k: Kind, j: JobId, w: Wrapper)
    requires s.master == ResultsSynced(k, j) && JobInv(s, j)
    ensures JobInv(DoTakeResults(s, k, j, w), j)
  {
    if k.Idx? {} else {}
  }

  lemma DestroyAt(s: State, j: JobId)
    requires s.master == Destroying(j) && JobInv(s, j)
    ensures JobInv(DoDestroy(s, j), j)
  {
  }

  // ----- all jobs at once -----

  lemma ControlKept(s: State, s': State, j: JobId)
    requires Control(s) && JobInv(s', j)
    requires forall i: JobId | i != j :: Untouched(s, s', i)
    requires Distinct(s'.idx.waiting) && Distinct(s'.qry.waiting) && Distinct(s'.calls)
    ensures Control(s')
  {
    forall i: JobId ensures JobInv(s', i) {
      if i != j { Elsewhere(s, s', i); }
    }
  }

  lemma DoJobKeeps(s: State, k: Kind, j: JobId, failed: bool, found: bool)
    requires Control(s) && LaneOf(s, k).slave == Running(j)
    ensures Control(DoDoJob(s, k, j, failed, found))
  {
    DoJobAt(s, k, j, failed, found);
    ControlKept(s, DoDoJob(s, k, j, failed, found), j);
  }

  lemma LockKeeps(s: State, k: Kind, j: JobId)
    requires Control(s) && LaneOf(s, k).slave == Finished(j)
    ensures Control(DoLock(s, k, j))
  {
    LockAt(s, k, j);
    ControlKept(s, DoLock(s, k, j), j);
  }

  lemma CallKeeps(s: State, k: Kind, j: JobId)
    requires Control(s) && LaneOf(s, k).slave == Deciding(j) && j in s.jobs && !s.jobs[j].cancelled
    ensures Control(WithSlave(s, k, Calling(j)).(calls := s.calls + [j]))
  {
    assert JobInv(s, j);
    CallAt(s, k, j);
    ControlKept(s, WithSlave(s, k, Calling(j)).(calls := s.calls + [j]), j);
  }

  lemma DeclineKeeps(s: State, k: Kind, j: JobId)
    requires Control(s) && LaneOf(s, k).slave == Deciding(j) && j in s.jobs && s.jobs[j].cancelled
    ensures Control(WithSlave(s, k, Leaving(j, true)))
  {
    assert JobInv(s, j);
    DeclineAt(s, k, j);
    ControlKept(s, WithSlave(s, k, Leaving(j, true)), j);
  }

  lemma DecideKeeps(s: State, k: Kind, j: JobId)
    requires Control(s) && LaneOf(s, k).slave == Deciding(j) && j in s.jobs
    ensures Control(DoDecide(s, k, j))
  {
    if s.jobs[j].cancelled { DeclineKeeps(s, k, j); } else { CallKeeps(s, k, j); }
  }

  lemma CallbackReturnsKeeps(s: State, k: Kind, j: JobId)
    requires Control(s) && LaneOf(s, k).slave == Calling(j)
    ensures Control(DoCallbackReturns(s, k, j))
  {
    CallbackReturnsAt(s, k, j);
    ControlKept(s, DoCallbackReturns(s, k, j), j);
  }

  lemma UnlockKeeps(s: State, k: Kind, j: JobId, destroy: bool)
    requires Control(s) && LaneOf(s, k).slave == Leaving(j, destroy)
    ensures Control(DoUnlock(s, k, j, destroy))
  {
    UnlockAt(s, k, j, destroy);
    assert j in s.jobs by { assert JobInv(s, j); }
    ControlKept(s, DoUnlock(s, k, j, destroy), j);
  }

  lemma ContinueKeeps(s: State, k: Kind, j: JobId)
    requires Control(s) && LaneOf(s, k).slave == Left(j, false)
    ensures Control(WithSlave(s, k, Idle))
  {
    ContinueAt(s, k, j);
    ControlKept(s, WithSlave(s, k, Idle), j);
  }

  lemma CompleteOwnKeeps(s: State, k: Kind, j: JobId)
    requires Control(s) && LaneOf(s, k).slave == Left(j, true)
    ensures Control(DoCompleteOwn(s, k, j))
  {
    CompleteOwnAt(s, k, j);
    ControlKept(s, DoCompleteOwn(s, k, j), j);
  }

  lemma DeleteOwnKeeps(s: State, k: Kind, j: JobId)
    requires Control(s) && LaneOf(s, k).slave == Deleting(j)
    ensures Control(DoDeleteOwn(s, k, j))
  {
    DeleteOwnAt(s, k, j);
    ControlKept(s, DoDeleteOwn(s, k, j), j);
  }

  lemma GetKeeps(s: State, k: Kind)
    requires Control(s) && LaneOf(s, k).slave.Idle? && LaneOf(s, k).waiting != []
    ensures Control(DoGet(s, k))
  {
    var q := LaneOf(s, k).waiting;
    GetAt(s, k);
    forall i: JobId ensures i in q[1..] <==> i in q && i != q[0] { Pop(q, i); }
    ControlKept(s, DoGet(s, k), q[0]);
  }

  lemma ExitKeeps(s: State, k: Kind)
    requires Control(s) && LaneOf(s, k).slave.Idle?
    ensures Control(WithSlave(s, k, Exited))
  {
    forall i: JobId ensures JobInv(WithSlave(s, k, Exited), i) { Elsewhere(s, WithSlave(s, k, Exited), i); }
  }

  lemma ConstructKeeps(s: State, k: Kind, h: Option<Handle>)
    requires Control(s) && s.master.Free?
    ensures Control(DoConstruct(s, k, h))
  {
    ConstructAt(s, k, h);
    ControlKept(s, DoConstruct(s, k, h), s.nextId);
  }

  lemma PutKeeps(s: State, k: Kind, j: JobId)
    requires Control(s) && s.master == Putting(k, j)
    ensures Control(DoPut(s, k, j))
  {
    PutAt(s, k, j);
    forall i: JobId ensures i in LaneOf(s, k).waiting + [j] <==> i in LaneOf(s, k).waiting || i == j {}
    ControlKept(s, DoPut(s, k, j), j);
  }

  lemma PutRefusedKeeps(s: State, k: Kind, j: JobId)
    requires Control(s) && s.master == Putting(k, j)
    ensures Control(Delete(s, j).(master := Free))
  {
    PutRefusedAt(s, k, j);
    ControlKept(s, Delete(s, j).(master := Free), j);
  }

  lemma BeginCancelKeeps(s: State, j: JobId)
    requires Control(s) && s.master.Free? && Obeys(s, BeginCancel(j))
    ensures Control(DoBeginCancel(s, j))
  {
    BeginCancelAt(s, j);
    ControlKept(s, DoBeginCancel(s, j), j);
  }

  lemma TakeWaitingKeeps(s: State, j: JobId)
    requires Control(s) && s.master == CancelFound(j)
    ensures Control(DoTakeWaiting(s, j))
  {
    TakeWaitingAt(s, j);
    forall i: JobId ensures i in Without(s.qry.waiting, j) <==> i in s.qry.waiting && i != j {
      TakeOut(s.qry.waiting, j, i);
    }
    TakeOut(s.qry.waiting, j, j);
    ControlKept(s, DoTakeWaiting(s, j), j);
  }

  lemma LockAndCancelKeeps(s: State, j: JobId)
    requires Control(s) && s.master == CancelStarted(j) && (j in s.jobs ==> !s.jobs[j].locked)
    ensures Control(DoLockAndCancel(s, j))
  {
    LockAndCancelAt(s, j);
    ControlKept(s, DoLockAndCancel(s, j), j);
  }

  lemma ReleaseCancelledKeeps(s: State, j: JobId)
    requires Control(s) && s.master == CancelDecided(j, false)
    ensures Control(s.(master := Free, settled := s.settled + {j}))
  {
    ReleaseCancelledAt(s, j);
    ControlKept(s, s.(master := Free, settled := s.settled + {j}), j);
  }

  lemma CompleteKeeps(s: State, k: Kind, j: JobId)
    requires Control(s) && ((s.master == CancelDecided(j, true) && k.Qry?) || s.master == ResultsTaken(k, j))
    ensures Control(DoComplete(s, k, j))
  {
    CompleteAt(s, k, j);
    ControlKept(s, DoComplete(s, k, j), j);
  }

  lemma BeginResultsKeeps(s: State, k: Kind, j: JobId)
    requires Control(s) && s.master.Free? && Obeys(s, BeginResults(k, j))
    ensures Control(DoBeginResults(s, k, j))
  {
    BeginResultsAt(s, k, j);
    ControlKept(s, DoBeginResults(s, k, j), j);
  }

  lemma LockAndUnlockKeeps(s: State, k: Kind, j: JobId)
    requires Control(s) && s.master == ResultsFound(k, j) && (j in s.jobs ==> !s.jobs[j].locked)
    ensures Control(Touch(s, j).(master := ResultsSynced(k, j)))
  {
    LockAndUnlockAt(s, k, j);
    ControlKept(s, Touch(s, j).(master := ResultsSynced(k, j)), j);
  }

  lemma TakeResultsKeeps(s: State, k: Kind, j: JobId, w: Wrapper)
    requires Control(s) && s.master == ResultsSynced(k, j)
    ensures Control(DoTakeResults(s, k, j, w))
  {
    TakeResultsAt(s, k, j, w);
    ControlKept(s, DoTakeResults(s, k, j, w), j);
  }

  lemma DestroyKeeps(s: State, j: JobId)
    requires Control(s) && s.master == Destroying(j)
    ensures Control(DoDestroy(s, j))
  {
    DestroyAt(s, j);
    ControlKept(s, DoDestroy(s, j), j);
  }

}
