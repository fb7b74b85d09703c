/**
 What the flags of the engine state mean: when a step goes wrong, and what has been recorded. The
 guarantee that no fault is ever raised says as much as the steps that raise one, so for each way
 to go wrong there is a lemma that the step which does so raises the fault, and one that no fault
 is forgotten. The rest says when a step can be taken and when a call counts as returned.
*/
module AsyncFaults {
  import opened Options
  import opened AsyncEngine
  import opened AsyncInvariant
  import opened AsyncSafety
  import opened AsyncFrames
  import opened AsyncTheorems

  // ----- when a step raises a fault -----

  /** The job that a step of a slave works on. */
  predicate SlaveUses(s: State, a: Action, j: JobId) {
    && (a.DoJob? || a.Lock? || a.Decide? || a.CallbackReturns? || a.Unlock? || a.DeleteOwn?)
    && Enabled(s, a) && LaneOf(s, a.k).slave.j == j
  }

  /** The job that a step of the master works on. */
  predicate MasterUses(s: State, a: Action, j: JobId) {
    && (a.PutRefused? || a.LockAndCancel? || a.LockAndUnlock? || a.TakeResults? || a.Destroy?)
    && Enabled(s, a) && s.master.j == j
  }

  lemma SlaveFaultsOnDead(s: State, a: Action, j: JobId)
    requires SlaveUses(s, a, j) && j !in s.jobs
    ensures Do(s, a).fault
  {
  }

  /** A step that works on a deleted job, or deletes it again, raises the fault. */
  lemma FaultsOnDead(s: State, a: Action, j: JobId)
    requires (SlaveUses(s, a, j) || MasterUses(s, a, j)) && j !in s.jobs
    ensures Do(s, a).fault
  {
    if SlaveUses(s, a, j) { SlaveFaultsOnDead(s, a, j); }
  }

  /** A deletion raises the fault when the mutex is held, or when what the job owns has been released before. */
  lemma DeletionFaults(s: State, a: Action, j: JobId)
    requires (SlaveUses(s, a, j) && a.DeleteOwn?) || (MasterUses(s, a, j) && (a.PutRefused? || a.Destroy?))
    requires j in s.jobs
    requires s.jobs[j].locked || (s.jobs[j].err && j !in s.res.errors) || (s.jobs[j].hits && j !in s.res.hits)
    ensures Do(s, a).fault
  {
  }

  /** A lookup by id raises the fault when some job in the queue has been deleted, for it reads the id of every job. */
  lemma LookupFaults(s: State, a: Action, i: JobId)
    requires Enabled(s, a) && (a.BeginCancel? || a.TakeWaiting? || a.BeginResults?) && i !in s.jobs
    requires var l := if a.BeginResults? then LaneOf(s, a.rk) else s.qry; i in l.waiting || i in l.started
    ensures Do(s, a).fault
  {
  }

  /** Cancel and Results report a job that is not in the queue they look into. */
  lemma NotFoundIsReported(s: State, a: Action)
    requires Enabled(s, a) && (a.BeginCancel? || a.BeginResults?)
    ensures if a.BeginCancel? then a.cj !in s.qry.waiting && a.cj !in s.qry.started ==> Do(s, a).notFound
            else a.rj !in LaneOf(s, a.rk).started ==> Do(s, a).notFound
  {
  }

  /** The client, or a job, releases an error or hits that are no longer there, or makes them twice. */
  lemma OwnershipFaults(s: State, a: Action)
    requires Enabled(s, a)
    ensures a.ClearError? && s.res.slots[a.cw] !in s.res.errors ==> Do(s, a).fault
    ensures a.DestroyHits? && a.dj !in s.res.hits ==> Do(s, a).fault
    ensures a.DoJob? && a.failed && LaneOf(s, a.k).slave.j in s.res.errors ==> Do(s, a).fault
    ensures a.DoJob? && a.found && a.k.Qry? && LaneOf(s, a.k).slave.j in s.res.hits ==> Do(s, a).fault
  {
  }

  lemma SlaveKeepsFault(s: State, a: Action)
    requires Enabled(s, a) && BySlave(a)
    ensures (s.fault ==> Do(s, a).fault) && (s.notFound ==> Do(s, a).notFound)
  {
  }

  lemma MasterKeepsFault(s: State, a: Action)
    requires Enabled(s, a) && !BySlave(a)
    ensures (s.fault ==> Do(s, a).fault) && (s.notFound ==> Do(s, a).notFound)
  {
  }

  /** No fault is ever forgotten. */
  lemma FaultsStay(s: State, a: Action)
    requires Enabled(s, a)
    ensures (s.fault ==> Do(s, a).fault) && (s.notFound ==> Do(s, a).notFound)
  {
    if BySlave(a) { SlaveKeepsFault(s, a); } else { MasterKeepsFault(s, a); }
    hide Do, Enabled;
  }

  // ----- what the client gives back -----

  /** Clearing a wrapper takes its error out of use, and nothing else. */
  lemma ClearingReleases(s: State, w: Wrapper)
    requires Enabled(s, ClearError(w))
    ensures var s' := Do(s, ClearError(w));
      && w !in s'.res.slots && (forall v | v != w :: (v in s'.res.slots <==> v in s.res.slots))
      && s'.res.errors == s.res.errors - {s.res.slots[w]} && s'.res.hits == s.res.hits
      && s'.res.clientHits == s.res.clientHits && s'.res.refs == s.res.refs
  {
  }

  /** Destroying hits takes them out of use, and nothing else. */
  lemma DestroyingReleases(s: State, j: JobId)
    requires Enabled(s, DestroyHits(j))
    ensures var s' := Do(s, DestroyHits(j));
      && j !in s'.res.clientHits && j !in s'.res.hits
      && (forall i | i != j :: i in s'.res.hits <==> i in s.res.hits)
      && (forall i | i != j :: i in s'.res.clientHits <==> i in s.res.clientHits)
      && s'.res.errors == s.res.errors && s'.res.slots == s.res.slots && s'.res.refs == s.res.refs
  {
  }

  // ----- stopping -----

  /** A stopped queue takes no job, and refuses it at once; a slave leaves its loop only when it is stopped and idle. */
  lemma StoppedIff(s: State, k: Kind)
    ensures Enabled(s, Put) ==> !s.stopped
    ensures s.master.Putting? && s.stopped ==> Enabled(s, PutRefused)
    ensures Enabled(s, PutRefused) ==> s.stopped
    ensures Enabled(s, ExitLoop(k)) <==> s.stopped && LaneOf(s, k).slave.Idle?
  {
  }

  /** A thread goes into the critical section of a live job only when nobody is in it. */
  lemma MutexExcludes(s: State, k: Kind)
    ensures Enabled(s, Lock(k)) && LaneOf(s, k).slave.j in s.jobs ==> !s.jobs[LaneOf(s, k).slave.j].locked
    ensures Enabled(s, LockAndCancel) && s.master.j in s.jobs ==> !s.jobs[s.master.j].locked
    ensures Enabled(s, LockAndUnlock) && s.master.j in s.jobs ==> !s.jobs[s.master.j].locked
  {
  }

  // ----- the queue is bounded -----

  predicate Bounded(s: State) {
    |s.idx.waiting| <= s.idx.capacity && |s.qry.waiting| <= s.qry.capacity
  }

  lemma {:induction false} WithoutIsNoLonger(q: seq<JobId>, j: JobId)
    ensures |Without(q, j)| <= |q|
  {
    if q != [] { WithoutIsNoLonger(q[1..], j); }
  }

  lemma StepKeepsBounds(s: State, a: Action)
    requires Inv(s) && Enabled(s, a) && Bounded(s)
    ensures Bounded(Do(s, a)) && Do(s, a).idx.capacity == s.idx.capacity && Do(s, a).qry.capacity == s.qry.capacity
  {
    if BySlave(a) {
      SlaveKeepsBounds(s, a);
    } else {
      MasterKeepsBounds(s, a);
    }
    hide Inv, Do, Enabled;
  }

  lemma GetKeepsBounds(s: State, k: Kind)
    requires Bounded(s) && LaneOf(s, k).waiting != []
    ensures var s' := DoGet(s, k);
      Bounded(s') && s'.idx.capacity == s.idx.capacity && s'.qry.capacity == s.qry.capacity
  {
  }

  lemma SlaveKeepsBounds(s: State, a: Action)
    requires Inv(s) && Enabled(s, a) && BySlave(a) && Bounded(s)
    ensures Bounded(Do(s, a)) && Do(s, a).idx.capacity == s.idx.capacity && Do(s, a).qry.capacity == s.qry.capacity
  {
    if a.Get? {
      GetKeepsBounds(s, a.k);
    } else {
      if !a.ExitLoop? && !a.Continue? { SlaveJobAlive(s, a); }
      SlaveStepsFrame(s, a);
    }
    hide Inv, DoDoJob, DoLock, DoDecide, DoCallbackReturns, DoUnlock, DoCompleteOwn, DoDeleteOwn, DoGet;
  }

  lemma MasterKeepsBounds(s: State, a: Action)
    requires Enabled(s, a) && !BySlave(a) && Bounded(s)
    ensures Bounded(Do(s, a)) && Do(s, a).idx.capacity == s.idx.capacity && Do(s, a).qry.capacity == s.qry.capacity
  {
    if a.TakeWaiting? { WithoutIsNoLonger(s.qry.waiting, s.master.j); }
  }

  /** No queue ever holds more waiting jobs than its capacity. */
  lemma {:induction false} QueuesAreBounded(tr: seq<State>, acts: seq<Action>, n: nat)
    requires IsRun(tr, acts) && n < |tr|
    ensures Bounded(tr[n]) && tr[n].idx.capacity == tr[0].idx.capacity && tr[n].qry.capacity == tr[0].qry.capacity
    decreases n
  {
    if n > 0 {
      QueuesAreBounded(tr, acts, n - 1);
      BoundedNext(tr, acts, n - 1);
      hide Do, Enabled, Obeys, Init;
    }
  }

  lemma BoundedNext(tr: seq<State>, acts: seq<Action>, i: nat)
    requires IsRun(tr, acts) && i < |acts| && Bounded(tr[i])
    ensures Bounded(tr[i + 1])
    ensures tr[i + 1].idx.capacity == tr[i].idx.capacity && tr[i + 1].qry.capacity == tr[i].qry.capacity
  {
    RunsAreSafe(tr, acts, i);
    StepKeepsBounds(tr[i], acts[i]);
    hide Inv, Do, Enabled, Obeys;
  }

  // ----- what counts as returned -----

  /** A step with which a call of Cancel or Results for job j returns. */
  predicate Returns(s: State, a: Action, j: JobId) {
    (a.Destroy? && s.master == Destroying(j)) || (a.ReleaseCancelled? && s.master == CancelDecided(j, false))
  }

  lemma SlaveSettlesNothing(s: State, a: Action)
    requires Inv(s) && Enabled(s, a) && BySlave(a)
    ensures Do(s, a).settled == s.settled
  {
    if !a.Get? {
      if !a.ExitLoop? && !a.Continue? { SlaveJobAlive(s, a); }
      SlaveStepsFrame(s, a);
    }
    hide Inv;
  }

  lemma StepSettlesIff(s: State, a: Action, j: JobId)
    requires Inv(s) && Enabled(s, a)
    ensures j in Do(s, a).settled <==> j in s.settled || Returns(s, a, j)
  {
    if BySlave(a) {
      SlaveSettlesNothing(s, a);
    } else {
      MasterSettlesIff(s, a, j);
    }
    hide Do, Enabled, Inv;
  }

  lemma MasterSettlesIff(s: State, a: Action, j: JobId)
    requires Inv(s) && Enabled(s, a) && !BySlave(a)
    ensures j in Do(s, a).settled <==> j in s.settled || Returns(s, a, j)
  {
    hide Inv;
  }

  /** Among the first n steps there is one with which a call of Cancel or Results for job j returns. */
  predicate HasReturned(tr: seq<State>, acts: seq<Action>, n: nat, j: JobId)
    requires |tr| == |acts| + 1 && n < |tr|
  {
    exists m :: 0 <= m < n && Returns(tr[m], acts[m], j)
  }

  lemma HasReturnedNext(tr: seq<State>, acts: seq<Action>, n: nat, j: JobId)
    requires |tr| == |acts| + 1 && n < |acts|
    ensures HasReturned(tr, acts, n + 1, j) <==> HasReturned(tr, acts, n, j) || Returns(tr[n], acts[n], j)
  {
    hide Returns;
  }

  /** A job is settled if and only if a call of Cancel or Results for it has returned. */
  lemma {:induction false} SettledIff(tr: seq<State>, acts: seq<Action>, n: nat, j: JobId)
    requires IsRun(tr, acts) && n < |tr|
    ensures j in tr[n].settled <==> HasReturned(tr, acts, n, j)
    decreases n
  {
    if n > 0 {
      SettledIff(tr, acts, n - 1, j);
      SettledNext(tr, acts, n - 1, j);
      HasReturnedNext(tr, acts, n - 1, j);
      hide Do, Enabled, Obeys, Init, Returns, HasReturned;
    }
  }

  lemma SettledNext(tr: seq<State>, acts: seq<Action>, i: nat, j: JobId)
    requires IsRun(tr, acts) && i < |acts|
    ensures j in tr[i + 1].settled <==> j in tr[i].settled || Returns(tr[i], acts[i], j)
  {
    RunsAreSafe(tr, acts, i);
    StepSettlesIff(tr[i], acts[i], j);
    hide Inv, Do, Enabled, Obeys, Returns;
  }
}
