/** What the steps of the engine leave alone. */
module AsyncFrames {
  import opened Options
  import opened AsyncEngine
  import opened AsyncInvariant

  function Other(k: Kind): Kind { if k.Idx? then Qry else Idx }

  predicate SameQueue(l: Lane, l': Lane) {
    l'.begun == l.begun && l'.waiting == l.waiting && l'.submitted == l.submitted && l'.capacity == l.capacity
  }

  /** No job is created, and a job keeps its kind and its handle. */
  ghost predicate NoNewJobs(s: State, s': State) {
    && s'.nextId == s.nextId
    && (forall i | i in s'.jobs ::
      i in s.jobs && s'.jobs[i].kind == s.jobs[i].kind && s'.jobs[i].handle == s.jobs[i].handle)
  }

  predicate SameHistory(s: State, s': State) {
    && s'.shallow == s.shallow && s'.issued == s.issued && s'.claimed == s.claimed && s'.settled == s.settled
    && s'.stopped == s.stopped
  }

  /** A step of the slave of lane k other than get. */
  ghost predicate SlaveFrame(s: State, s': State, k: Kind) {
    && LaneOf(s', Other(k)) == LaneOf(s, Other(k))
    && SameQueue(LaneOf(s, k), LaneOf(s', k))
    && NoNewJobs(s, s')
    && SameHistory(s, s')
    && s'.master == s.master && s'.res.slots == s.res.slots && s'.res.clientHits == s.res.clientHits
    && s'.res.opens == s.res.opens
  }

  lemma WithSlaveFrame(s: State, k: Kind, p: Slave)
    ensures SlaveFrame(s, WithSlave(s, k, p), k)
  {
  }

  lemma DoJobFrame(s: State, k: Kind, j: JobId, failed: bool, found: bool)
    requires j in s.jobs
    ensures SlaveFrame(s, DoDoJob(s, k, j, failed, found), k)
  {
  }

  lemma LockFrame(s: State, k: Kind, j: JobId)
    requires j in s.jobs
    ensures SlaveFrame(s, DoLock(s, k, j), k)
  {
  }

  lemma DecideFrame(s: State, k: Kind, j: JobId)
    requires j in s.jobs
    ensures SlaveFrame(s, DoDecide(s, k, j), k)
  {
    if s.jobs[j].cancelled {
      WithSlaveFrame(s, k, Leaving(j, true));
    } else {
      WithSlaveFrame(s, k, Calling(j));
    }
  }

  lemma CallbackReturnsFrame(s: State, k: Kind, j: JobId)
    requires j in s.jobs
    ensures SlaveFrame(s, DoCallbackReturns(s, k, j), k)
  {
  }

  lemma UnlockFrame(s: State, k: Kind, j: JobId, destroy: bool)
    requires j in s.jobs
    ensures SlaveFrame(s, DoUnlock(s, k, j, destroy), k)
  {
  }

  lemma CompleteOwnFrame(s: State, k: Kind, j: JobId)
    requires j in s.jobs
    ensures SlaveFrame(s, DoCompleteOwn(s, k, j), k)
  {
  }

  lemma DeleteOwnFrame(s: State, k: Kind, j: JobId)
    requires j in s.jobs
    ensures SlaveFrame(s, DoDeleteOwn(s, k, j), k)
  {
  }

  lemma SlaveJobAlive(s: State, a: Action)
    requires Control(s) && Enabled(s, a) && BySlave(a) && !a.Get? && !a.ExitLoop? && !a.Continue?
    ensures LaneOf(s, a.k).slave.j in s.jobs
  {
    assert JobInv(s, LaneOf(s, a.k).slave.j);
  }

  lemma SlaveStepsFrame(s: State, a: Action)
    requires Enabled(s, a) && BySlave(a) && !a.Get?
    requires a.ExitLoop? || a.Continue? || LaneOf(s, a.k).slave.j in s.jobs
    ensures SlaveFrame(s, Do(s, a), a.k)
  {
    match a
    case DoJob(k, failed, found) => DoJobFrame(s, k, LaneOf(s, k).slave.j, failed, found);
    case Lock(k) => LockFrame(s, k, LaneOf(s, k).slave.j);
    case Decide(k) => DecideFrame(s, k, LaneOf(s, k).slave.j);
    case CallbackReturns(k) => CallbackReturnsFrame(s, k, LaneOf(s, k).slave.j);
    case Unlock(k) => UnlockFrame(s, k, LaneOf(s, k).slave.j, LaneOf(s, k).slave.destroy);
    case CompleteOwn(k) => CompleteOwnFrame(s, k, LaneOf(s, k).slave.j);
    case DeleteOwn(k) => DeleteOwnFrame(s, k, LaneOf(s, k).slave.j);
    case ExitLoop(k) => WithSlaveFrame(s, k, Exited);
    case Continue(k) => WithSlaveFrame(s, k, Idle);
  }

  /** A step of the master other than put and the taking of a waiting job. */
  ghost predicate MasterFrame(s: State, s': State) {
    && SameQueue(s.idx, s'.idx) && s'.idx.slave == s.idx.slave
    && SameQueue(s.qry, s'.qry) && s'.qry.slave == s.qry.slave
    && s'.shallow == s.shallow && s'.issued == s.issued && s'.calls == s.calls
  }

  lemma ConstructFrame(s: State, k: Kind, h: Option<Handle>)
    ensures MasterFrame(s, DoConstruct(s, k, h))
  {
  }

  lemma DeleteFrame(s: State, j: JobId)
    requires j in s.jobs
    ensures MasterFrame(s, Delete(s, j))
    ensures Delete(s, j).jobs == s.jobs - {j} && Delete(s, j).nextId == s.nextId && Delete(s, j).master == s.master
    ensures Delete(s, j).claimed == s.claimed && Delete(s, j).settled == s.settled
      && Delete(s, j).res.slots == s.res.slots
  {
  }

  lemma BeginCancelFrame(s: State, j: JobId)
    ensures MasterFrame(s, DoBeginCancel(s, j))
  {
  }

  lemma LockAndCancelFrame(s: State, j: JobId)
    requires j in s.jobs
    ensures MasterFrame(s, DoLockAndCancel(s, j))
  {
  }

  lemma BeginResultsFrame(s: State, k: Kind, j: JobId)
    ensures MasterFrame(s, DoBeginResults(s, k, j))
  {
  }

  lemma CompleteFrame(s: State, k: Kind, j: JobId)
    ensures MasterFrame(s, DoComplete(s, k, j))
  {
  }

  lemma TakeResultsFrame(s: State, k: Kind, j: JobId, w: Wrapper)
    requires j in s.jobs
    ensures MasterFrame(s, DoTakeResults(s, k, j, w))
  {
  }

  lemma OwnershipFrame(s: State, w: Wrapper, j: JobId, h: Handle, d: int)
    ensures w in s.res.slots ==> MasterFrame(s, DoClearError(s, w))
    ensures MasterFrame(s, DoDestroyHits(s, j))
    ensures MasterFrame(s, DoCount(s, h, d))
  {
  }

  lemma MasterJobAlive(s: State, a: Action)
    requires Control(s) && Enabled(s, a) && !BySlave(a) && !s.master.Free?
    ensures (s.master.CancelDecided? && !s.master.destroy) || s.master.j in s.jobs
  {
    assert JobInv(s, s.master.j);
  }

  lemma MasterStepsFrame(s: State, a: Action)
    requires Enabled(s, a) && !BySlave(a) && !a.Put? && !a.TakeWaiting?
    requires s.master.Free? || (s.master.CancelDecided? && !s.master.destroy) || s.master.j in s.jobs
    ensures MasterFrame(s, Do(s, a))
  {
    match a
    case Construct(k, h) => ConstructFrame(s, k, h);
    case PutRefused => DeleteFrame(s, s.master.j);
    case BeginCancel(j) => BeginCancelFrame(s, j);
    case LockAndCancel => LockAndCancelFrame(s, s.master.j);
    case CompleteCancelled => CompleteFrame(s, Qry, s.master.j);
    case ReleaseCancelled =>
    case BeginResults(k, j) => BeginResultsFrame(s, k, j);
    case LockAndUnlock =>
    case TakeResults(w) => TakeResultsFrame(s, s.master.k, s.master.j, w);
    case CompleteCollected => CompleteFrame(s, s.master.k, s.master.j);
    case Destroy => DeleteFrame(s, s.master.j);
    case Stop =>
    case ClearError(w) => OwnershipFrame(s, w, 0, 0, 0);
    case DestroyHits(j) => OwnershipFrame(s, 0, j, 0, 0);
    case OpenHandle(h) => OwnershipFrame(s, 0, 0, h, 1);
    case CloseHandle(h) => OwnershipFrame(s, 0, 0, h, -1);
  }
}
