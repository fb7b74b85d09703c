/**
 What a job has found, or failed with, reaches the client that collects it; and what the handles
 count. From its execution on a job holds its outcome until Results takes it or the job is gone;
 from then on the client holds it until it gives it back. Both halves are kept by every step of
 either thread, one lemma for each group of steps, and are put together over a run at the end.
*/
module AsyncDelivery {
  import opened Options
  import opened AsyncEngine
  import opened AsyncInvariant
  import opened AsyncSteps
  import opened AsyncFrames
  import opened AsyncSafety
  import opened AsyncTheorems

  // ----- one call of Results -----

  predicate InSlot(s: State, w: Wrapper, j: JobId) { w in s.res.slots && s.res.slots[w] == j }

  /**
   Collecting destroys nothing: the hits go to the client if and only if the job had any, the error
   goes to the wrapper if and only if the job had one, and the job keeps neither.
  */
  lemma CollectingDelivers(s: State, k: Kind, j: JobId, w: Wrapper)
    requires j in s.jobs && w !in s.res.slots
    ensures var s' := DoTakeResults(s, k, j, w);
      && s'.res.hits == s.res.hits && s'.res.errors == s.res.errors
      && s'.res.refs == s.res.refs && s'.res.opens == s.res.opens
      && s'.res.clientHits == s.res.clientHits + (if s.jobs[j].hits then {j} else {})
      && (forall v, i :: InSlot(s', v, i) <==> InSlot(s, v, i) || (v == w && i == j && s.jobs[j].err))
      && j in s'.jobs && !s'.jobs[j].hits && !s'.jobs[j].err
  {
  }

  // ----- from the execution of the job to the call of Results -----

  /** Job j is alive and has this outcome. */
  predicate HasOutcome(s: State, j: JobId, failed: bool, hits: bool) {
    j in s.jobs && s.jobs[j].err == failed && s.jobs[j].hits == hits
  }

  /** Job j will not be executed from now on. */
  predicate IsPast(s: State, j: JobId) {
    && j !in s.idx.waiting && j !in s.qry.waiting && s.idx.slave != Running(j) && s.qry.slave != Running(j)
    && !(s.master.Putting? && s.master.j == j)
  }

  /** The client owns nothing that job j made. */
  predicate NotTaken(s: State, j: JobId) { j !in s.res.clientHits && j !in s.res.slots.Values }

  /** Job j has been executed with this outcome, which is still its own. */
  predicate HoldsOutcome(s: State, j: JobId, failed: bool, hits: bool) {
    HasOutcome(s, j, failed, hits) && IsPast(s, j) && NotTaken(s, j)
  }

  /** Results has taken what job j had, or the job is gone. */
  predicate Over(s: State, j: JobId) {
    (j !in s.jobs && j < s.nextId) || (s.master.ResultsTaken? && s.master.j == j) || s.master == Destroying(j)
  }

  predicate Takes(s: State, a: Action, j: JobId) { a.TakeResults? && s.master.ResultsSynced? && s.master.j == j }

  lemma OutcomeIsHeld(s: State, a: Action)
    requires Inv(s) && Enabled(s, a) && a.DoJob?
    ensures var j := LaneOf(s, a.k).slave.j;
      j in s.jobs && HoldsOutcome(Do(s, a), j, a.failed, a.found && a.k.Qry?)
  {
    var j := LaneOf(s, a.k).slave.j;
    assert JobInv(s, j) && OneOwner(s, j);
    assert a.k == Idx || a.k == Qry;
  }

  lemma LockKeepsJob(s: State, k: Kind, i: JobId, j: JobId, failed: bool, hits: bool)
    requires HasOutcome(s, j, failed, hits)
    ensures HasOutcome(DoLock(s, k, i), j, failed, hits)
  {
  }

  lemma DecideKeepsJob(s: State, k: Kind, i: JobId, j: JobId, failed: bool, hits: bool)
    requires HasOutcome(s, j, failed, hits)
    ensures HasOutcome(DoDecide(s, k, i), j, failed, hits)
  {
  }

  lemma CallbackKeepsJob(s: State, k: Kind, i: JobId, j: JobId, failed: bool, hits: bool)
    requires HasOutcome(s, j, failed, hits)
    ensures HasOutcome(DoCallbackReturns(s, k, i), j, failed, hits)
  {
  }

  lemma UnlockKeepsJob(s: State, k: Kind, i: JobId, j: JobId, failed: bool, hits: bool, destroy: bool)
    requires HasOutcome(s, j, failed, hits)
    ensures HasOutcome(DoUnlock(s, k, i, destroy), j, failed, hits)
  {
  }

  lemma CompleteKeepsJob(s: State, k: Kind, i: JobId, j: JobId, failed: bool, hits: bool)
    requires HasOutcome(s, j, failed, hits)
    ensures HasOutcome(DoCompleteOwn(s, k, i), j, failed, hits)
  {
  }

  lemma DoJobKeepsJob(s: State, k: Kind, i: JobId, j: JobId, failed: bool, hits: bool, err: bool, found: bool)
    requires HasOutcome(s, j, failed, hits) && i != j
    ensures HasOutcome(DoDoJob(s, k, i, err, found), j, failed, hits)
  {
  }

  lemma DeleteKeepsJob(s: State, i: JobId, j: JobId, failed: bool, hits: bool)
    requires HasOutcome(s, j, failed, hits)
    ensures if i == j then j !in Delete(s, i).jobs else HasOutcome(Delete(s, i), j, failed, hits)
    ensures Delete(s, i).nextId == s.nextId
  {
  }

  lemma SlaveKeepsJob(s: State, a: Action, j: JobId, failed: bool, hits: bool)
    requires Enabled(s, a) && BySlave(a) && HoldsOutcome(s, j, failed, hits) && j < s.nextId
    ensures HasOutcome(Do(s, a), j, failed, hits) || Over(Do(s, a), j)
  {
    var p := LaneOf(s, a.k).slave;
    hide DoDoJob, DoLock, DoDecide, DoCallbackReturns, DoUnlock, DoCompleteOwn, Delete;
    match a
    case DoJob(k, err, found) => DoJobKeepsJob(s, k, p.j, j, failed, hits, err, found);
    case Lock(k) => LockKeepsJob(s, k, p.j, j, failed, hits);
    case Decide(k) => DecideKeepsJob(s, k, p.j, j, failed, hits);
    case CallbackReturns(k) => CallbackKeepsJob(s, k, p.j, j, failed, hits);
    case Unlock(k) => UnlockKeepsJob(s, k, p.j, j, failed, hits, p.destroy);
    case CompleteOwn(k) => CompleteKeepsJob(s, k, p.j, j, failed, hits);
    case DeleteOwn(k) => DeleteKeepsJob(WithSlave(s, k, Idle), p.j, j, failed, hits);
    case _ =>
  }

  /** A slave begins with a job only when it gets it. */
  lemma OnlyGetBegins(s: State, a: Action)
    requires Enabled(s, a) && BySlave(a) && !a.Get?
    ensures LaneOf(Do(s, a), a.k).slave.Running? ==> LaneOf(Do(s, a), a.k).slave == LaneOf(s, a.k).slave
  {
  }

  lemma SlaveKeepsPast(s: State, a: Action, j: JobId)
    requires Inv(s) && Enabled(s, a) && BySlave(a) && IsPast(s, j)
    ensures IsPast(Do(s, a), j)
  {
    if !a.Get? {
      if !a.ExitLoop? && !a.Continue? { SlaveJobAlive(s, a); }
      SlaveStepsFrame(s, a);
      OnlyGetBegins(s, a);
      hide Inv, Do, Enabled;
      if a.k.Idx? {} else {}
    } else {
      var q := LaneOf(s, a.k).waiting;
      assert q[0] in q && forall i | i in q[1..] :: i in q;
      hide Inv;
    }
  }

  lemma SlaveKeepsOutcome(s: State, a: Action, j: JobId, failed: bool, hits: bool)
    requires Inv(s) && Enabled(s, a) && BySlave(a) && HoldsOutcome(s, j, failed, hits)
    ensures HoldsOutcome(Do(s, a), j, failed, hits) || Over(Do(s, a), j)
  {
    assert j < s.nextId by { assert JobInv(s, j); }
    hide Inv, Do, Enabled;
    SlaveKeepsJob(s, a, j, failed, hits);
    SlaveKeepsPast(s, a, j);
    SlaveSparesClient(s, a);
  }

  lemma {:induction false} WithoutMembers(q: seq<JobId>, i: JobId, j: JobId)
    requires j !in q
    ensures j !in Without(q, i)
  {
    if q != [] && q[0] != i { WithoutMembers(q[1..], i, j); }
  }

  lemma MasterKeepsPast(s: State, a: Action, j: JobId)
    requires Enabled(s, a) && !BySlave(a) && IsPast(s, j) && j < s.nextId
    ensures IsPast(Do(s, a), j)
  {
    if a.TakeWaiting? { WithoutMembers(s.qry.waiting, s.master.j, j); }
  }

  lemma CancelKeepsJob(s: State, i: JobId, j: JobId, failed: bool, hits: bool)
    requires HasOutcome(s, j, failed, hits)
    ensures HasOutcome(DoLockAndCancel(s, i), j, failed, hits)
  {
  }

  lemma TakeKeepsJob(s: State, k: Kind, i: JobId, w: Wrapper, j: JobId, failed: bool, hits: bool)
    requires HasOutcome(s, j, failed, hits)
    ensures i != j ==> HasOutcome(DoTakeResults(s, k, i, w), j, failed, hits)
    ensures i in s.jobs ==> DoTakeResults(s, k, i, w).master == ResultsTaken(k, i)
  {
  }

  lemma TakingKeepsJob(s: State, w: Wrapper, j: JobId, failed: bool, hits: bool)
    requires Enabled(s, TakeResults(w)) && HoldsOutcome(s, j, failed, hits) && s.master.j in s.jobs
    ensures var s' := Do(s, TakeResults(w)); if s.master.j == j then Over(s', j) else HasOutcome(s', j, failed, hits)
  {
    TakeKeepsJob(s, s.master.k, s.master.j, w, j, failed, hits);
    hide DoTakeResults;
  }

  lemma DestroyingKeepsJob(s: State, a: Action, j: JobId, failed: bool, hits: bool)
    requires Enabled(s, a) && (a.PutRefused? || a.Destroy?) && HasOutcome(s, j, failed, hits) && j < s.nextId
    ensures HasOutcome(Do(s, a), j, failed, hits) || Over(Do(s, a), j)
  {
    DeleteKeepsJob(s, s.master.j, j, failed, hits);
    hide Delete;
  }

  lemma OtherStepKeepsJob(s: State, a: Action, j: JobId, failed: bool, hits: bool)
    requires Enabled(s, a) && !BySlave(a) && !a.TakeResults? && !a.PutRefused? && !a.Destroy?
    requires HasOutcome(s, j, failed, hits) && j < s.nextId
    ensures HasOutcome(Do(s, a), j, failed, hits)
  {
    if a.LockAndCancel? { CancelKeepsJob(s, s.master.j, j, failed, hits); }
    hide DoLockAndCancel;
  }

  lemma MasterKeepsJob(s: State, a: Action, j: JobId, failed: bool, hits: bool)
    requires Inv(s) && Enabled(s, a) && !BySlave(a) && HoldsOutcome(s, j, failed, hits) && j < s.nextId
    ensures if Takes(s, a, j) then Over(Do(s, a), j) else HasOutcome(Do(s, a), j, failed, hits) || Over(Do(s, a), j)
  {
    var taking := a.TakeResults? ==> s.master.ResultsSynced?;
    assert taking;
    if a.TakeResults? { assert JobInv(s, s.master.j); }
    hide Inv, JobInv, Do, Enabled;
    if a.TakeResults? { TakingKeepsJob(s, a.w, j, failed, hits); }
    else if a.PutRefused? || a.Destroy? { DestroyingKeepsJob(s, a, j, failed, hits); }
    else { OtherStepKeepsJob(s, a, j, failed, hits); }
  }

  lemma MasterTakesOthers(s: State, a: Action, j: JobId)
    requires Enabled(s, a) && !BySlave(a) && NotTaken(s, j) && !Takes(s, a, j)
    ensures NotTaken(Do(s, a), j)
  {
    match a
    case TakeResults(w) => ValuesOf(s.res.slots, w, s.master.j, j);
    case ClearError(w) => ValuesOf(s.res.slots, w, 0, j);
    case _ =>
  }

  lemma ValuesOf(m: map<Wrapper, JobId>, w: Wrapper, i: JobId, j: JobId)
    requires j !in m.Values
    ensures i != j ==> j !in m[w := i].Values
    ensures j !in (m - {w}).Values
  {
  }

  lemma MasterKeepsOutcome(s: State, a: Action, j: JobId, failed: bool, hits: bool)
    requires Inv(s) && Enabled(s, a) && !BySlave(a) && HoldsOutcome(s, j, failed, hits)
    ensures if Takes(s, a, j) then Over(Do(s, a), j)
            else HoldsOutcome(Do(s, a), j, failed, hits) || Over(Do(s, a), j)
  {
    assert j < s.nextId by { assert JobInv(s, j); }
    hide Inv, Do, Enabled;
    MasterKeepsPast(s, a, j);
    MasterKeepsJob(s, a, j, failed, hits);
    if !Takes(s, a, j) { MasterTakesOthers(s, a, j); }
  }

  lemma SlaveKeepsOver(s: State, a: Action, j: JobId)
    requires Inv(s) && Enabled(s, a) && BySlave(a) && Over(s, j)
    ensures Over(Do(s, a), j)
  {
    if !a.Get? {
      if !a.ExitLoop? && !a.Continue? { SlaveJobAlive(s, a); }
      SlaveStepsFrame(s, a);
      hide Inv, Do, Enabled;
    } else {
      hide Inv;
    }
  }

  lemma MasterKeepsOver(s: State, a: Action, j: JobId)
    requires Inv(s) && Enabled(s, a) && !BySlave(a) && Over(s, j)
    ensures Over(Do(s, a), j)
  {
    if !s.master.Free? { assert JobInv(s, s.master.j); }
    hide Inv, JobInv;
  }

  lemma OverStays(s: State, a: Action, j: JobId)
    requires Inv(s) && Enabled(s, a) && Over(s, j)
    ensures Over(Do(s, a), j) && !Takes(s, a, j)
  {
    if BySlave(a) { SlaveKeepsOver(s, a, j); } else { MasterKeepsOver(s, a, j); }
    assert JobInv(s, j);
    hide Do, Enabled, Conserved;
  }

  lemma OutcomeStays(s: State, a: Action, j: JobId, failed: bool, hits: bool)
    requires Inv(s) && Enabled(s, a) && (HoldsOutcome(s, j, failed, hits) || Over(s, j)) && !Takes(s, a, j)
    ensures HoldsOutcome(Do(s, a), j, failed, hits) || Over(Do(s, a), j)
  {
    hide Inv, Do, Enabled, HoldsOutcome, Over;
    if Over(s, j) { OverStays(s, a, j); }
    else if BySlave(a) { SlaveKeepsOutcome(s, a, j, failed, hits); }
    else { MasterKeepsOutcome(s, a, j, failed, hits); }
  }

  // ----- what the client owns afterwards -----

  lemma SlaveSparesClient(s: State, a: Action)
    requires Inv(s) && Enabled(s, a) && BySlave(a)
    ensures Do(s, a).res.clientHits == s.res.clientHits && Do(s, a).res.slots == s.res.slots
  {
    if !a.Get? {
      if !a.ExitLoop? && !a.Continue? { SlaveJobAlive(s, a); }
      SlaveStepsFrame(s, a);
      hide Do, Enabled;
    }
    hide Inv;
  }

  lemma ClientKeepsHits(s: State, a: Action, j: JobId)
    requires Inv(s) && Enabled(s, a) && Over(s, j) && !Takes(s, a, j) && a != DestroyHits(j)
    ensures j in Do(s, a).res.clientHits <==> j in s.res.clientHits
  {
    if BySlave(a) {
      SlaveSparesClient(s, a);
      hide Do, Enabled;
    }
    hide Inv;
  }

  lemma WrapperKeepsError(s: State, a: Action, j: JobId, w: Wrapper)
    requires Inv(s) && Enabled(s, a) && Obeys(s, a) && Over(s, j) && !Takes(s, a, j) && a != ClearError(w)
    ensures InSlot(Do(s, a), w, j) <==> InSlot(s, w, j)
  {
    if BySlave(a) {
      SlaveSparesClient(s, a);
      hide Do, Enabled;
    }
    hide Inv;
  }

  lemma TakingDelivers(s: State, w: Wrapper, j: JobId, failed: bool, hits: bool)
    requires Inv(s) && Enabled(s, TakeResults(w)) && Obeys(s, TakeResults(w)) && s.master.j == j
    requires HoldsOutcome(s, j, failed, hits)
    ensures var s' := Do(s, TakeResults(w));
      Over(s', j) && (j in s'.res.clientHits <==> hits) && (InSlot(s', w, j) <==> failed)
  {
    CollectingDelivers(s, s.master.k, j, w);
    assert !InSlot(s, w, j);
    hide Inv;
  }

  // ----- over a run -----

  lemma StepOf(tr: seq<State>, acts: seq<Action>, i: nat)
    requires IsRun(tr, acts) && i < |acts|
    ensures Inv(tr[i]) && Enabled(tr[i], acts[i]) && Obeys(tr[i], acts[i]) && tr[i + 1] == Do(tr[i], acts[i])
  {
    RunsAreSafe(tr, acts, i);
  }

  ghost predicate KnownOutcome(s: State, j: JobId, failed: bool, hits: bool) {
    HoldsOutcome(s, j, failed, hits) || Over(s, j)
  }

  lemma OutcomeBegins(tr: seq<State>, acts: seq<Action>, m: nat)
    requires IsRun(tr, acts) && m < |acts| && acts[m].DoJob?
    ensures KnownOutcome(tr[m + 1], LaneOf(tr[m], acts[m].k).slave.j, acts[m].failed, acts[m].found && acts[m].k.Qry?)
  {
    StepOf(tr, acts, m);
    hide Inv, Do, Enabled, HoldsOutcome, Over, Obeys;
    OutcomeIsHeld(tr[m], acts[m]);
  }

  lemma OutcomeGoesOn(tr: seq<State>, acts: seq<Action>, i: nat, j: JobId, failed: bool, hits: bool)
    requires IsRun(tr, acts) && i < |acts| && KnownOutcome(tr[i], j, failed, hits)
    ensures KnownOutcome(tr[i + 1], j, failed, hits)
  {
    StepOf(tr, acts, i);
    var s, a := tr[i], acts[i];
    hide Inv, Do, Enabled, HoldsOutcome, Over, Obeys, Takes;
    if Takes(s, a, j) { TakingIsOver(s, a, j, failed, hits); } else { OutcomeStays(s, a, j, failed, hits); }
  }

  lemma {:induction false} OutcomeFrom(tr: seq<State>, acts: seq<Action>, m: nat, n: nat, j: JobId,
                                       failed: bool, hits: bool)
    requires IsRun(tr, acts) && m <= n < |tr| && KnownOutcome(tr[m], j, failed, hits)
    ensures KnownOutcome(tr[n], j, failed, hits)
    decreases n
  {
    hide KnownOutcome, Enabled, Do, Obeys, Init;
    if m < n {
      OutcomeFrom(tr, acts, m, n - 1, j, failed, hits);
      OutcomeGoesOn(tr, acts, n - 1, j, failed, hits);
    }
  }

  lemma OutcomeInRun(tr: seq<State>, acts: seq<Action>, m: nat, n: nat, j: JobId)
    requires IsRun(tr, acts) && m < n < |tr| && acts[m].DoJob? && j == LaneOf(tr[m], acts[m].k).slave.j
    ensures KnownOutcome(tr[n], j, acts[m].failed, acts[m].found && acts[m].k.Qry?)
  {
    hide KnownOutcome, Enabled, Do, Obeys, Init;
    OutcomeBegins(tr, acts, m);
    OutcomeFrom(tr, acts, m + 1, n, j, acts[m].failed, acts[m].found && acts[m].k.Qry?);
  }

  lemma TakingIsOver(s: State, a: Action, j: JobId, failed: bool, hits: bool)
    requires Inv(s) && Enabled(s, a) && Takes(s, a, j) && (HoldsOutcome(s, j, failed, hits) || Over(s, j))
    ensures HoldsOutcome(s, j, failed, hits) && Over(Do(s, a), j)
  {
    if Over(s, j) { OverStays(s, a, j); }
    MasterKeepsOutcome(s, a, j, failed, hits);
  }

  lemma {:induction false} OverInRun(tr: seq<State>, acts: seq<Action>, p: nat, n: nat, j: JobId)
    requires IsRun(tr, acts) && p <= n < |tr| && Over(tr[p], j)
    ensures Over(tr[n], j)
    decreases n
  {
    hide Inv, Do, Enabled, Init, Over;
    if p < n {
      OverInRun(tr, acts, p, n - 1, j);
      StepOf(tr, acts, n - 1);
      OverStays(tr[n - 1], acts[n - 1], j);
    }
  }

  lemma StepKeepsDelivered(tr: seq<State>, acts: seq<Action>, i: nat, j: JobId, w: Wrapper)
    requires IsRun(tr, acts) && i < |acts| && Over(tr[i], j)
    ensures acts[i] != DestroyHits(j) ==> (j in tr[i + 1].res.clientHits <==> j in tr[i].res.clientHits)
    ensures acts[i] != ClearError(w) ==> (InSlot(tr[i + 1], w, j) <==> InSlot(tr[i], w, j))
  {
    StepOf(tr, acts, i);
    hide Inv, Do, Enabled, Over, Obeys, InSlot;
    OverStays(tr[i], acts[i], j);
    if acts[i] != DestroyHits(j) { ClientKeepsHits(tr[i], acts[i], j); }
    if acts[i] != ClearError(w) { WrapperKeepsError(tr[i], acts[i], j, w); }
  }

  lemma {:induction false} HitsStay(tr: seq<State>, acts: seq<Action>, p: nat, n: nat, j: JobId)
    requires IsRun(tr, acts) && p <= n < |tr| && Over(tr[p], j)
    requires forall i | p <= i < n :: acts[i] != DestroyHits(j)
    ensures j in tr[n].res.clientHits <==> j in tr[p].res.clientHits
    decreases n
  {
    hide Do, Enabled, Over, Obeys, Init;
    if p < n {
      HitsStay(tr, acts, p, n - 1, j);
      OverInRun(tr, acts, p, n - 1, j);
      StepKeepsDelivered(tr, acts, n - 1, j, 0);
    }
  }

  lemma {:induction false} ErrorStays(tr: seq<State>, acts: seq<Action>, p: nat, n: nat, j: JobId, w: Wrapper)
    requires IsRun(tr, acts) && p <= n < |tr| && Over(tr[p], j)
    requires forall i | p <= i < n :: acts[i] != ClearError(w)
    ensures InSlot(tr[n], w, j) <==> InSlot(tr[p], w, j)
    decreases n
  {
    hide Do, Enabled, Over, Obeys, Init, InSlot;
    if p < n {
      ErrorStays(tr, acts, p, n - 1, j, w);
      OverInRun(tr, acts, p, n - 1, j);
      StepKeepsDelivered(tr, acts, n - 1, j, w);
    }
  }

  /**
   From the moment Results takes what a job has, the client owns the hits if and only if the job was
   a query that found something, until it destroys them; and the wrapper it collected into carries
   the error of the job if and only if the job failed, until it clears the wrapper.
  */
  lemma ResultsReachTheClient(tr: seq<State>, acts: seq<Action>, m: nat, p: nat, n: nat, w: Wrapper)
    requires IsRun(tr, acts) && m < p < n < |tr| && acts[m].DoJob? && acts[p] == TakeResults(w)
    requires tr[p].master.ResultsSynced? && tr[p].master.j == LaneOf(tr[m], acts[m].k).slave.j
    ensures var j := tr[p].master.j;
      && ((forall i | p < i < n :: acts[i] != DestroyHits(j)) ==>
            (j in tr[n].res.clientHits <==> acts[m].found && acts[m].k.Qry?))
      && ((forall i | p < i < n :: acts[i] != ClearError(w)) ==> (InSlot(tr[n], w, j) <==> acts[m].failed))
  {
    var j := tr[p].master.j;
    var hits := acts[m].found && acts[m].k.Qry?;
    StepOf(tr, acts, p);
    OutcomeInRun(tr, acts, m, p, j);
    hide Inv, Do, Enabled, Init, HoldsOutcome, Over, Obeys, InSlot;
    TakingIsOver(tr[p], acts[p], j, acts[m].failed, hits);
    TakingDelivers(tr[p], w, j, acts[m].failed, hits);
    if forall i | p < i < n :: acts[i] != DestroyHits(j) { HitsStay(tr, acts, p + 1, n, j); }
    if forall i | p < i < n :: acts[i] != ClearError(w) { ErrorStays(tr, acts, p + 1, n, j, w); }
  }

  // ----- Results does take it -----

  /** Results has been called for job j and has not come to the taking yet. */
  predicate InResults(s: State, j: JobId) {
    (s.master.ResultsFound? || s.master.ResultsSynced?) && s.master.j == j && j !in s.settled
  }

  lemma ResultsGoOn(s: State, a: Action, j: JobId)
    requires Inv(s) && Enabled(s, a) && InResults(s, j) && !Takes(s, a, j)
    ensures InResults(Do(s, a), j)
  {
    if BySlave(a) {
      SlaveKeepsMaster(s, a);
      hide Do, Enabled;
    }
    hide Inv;
  }

  lemma SlaveKeepsMaster(s: State, a: Action)
    requires Inv(s) && Enabled(s, a) && BySlave(a)
    ensures Do(s, a).master == s.master && Do(s, a).settled == s.settled
  {
    if !a.Get? {
      if !a.ExitLoop? && !a.Continue? { SlaveJobAlive(s, a); }
      SlaveStepsFrame(s, a);
      hide Do, Enabled;
    }
    hide Inv;
  }

  lemma ResultsBegin(s: State, k: Kind, j: JobId)
    requires Inv(s) && Enabled(s, BeginResults(k, j)) && Obeys(s, BeginResults(k, j))
    requires !Do(s, BeginResults(k, j)).notFound
    ensures InResults(Do(s, BeginResults(k, j)), j)
  {
    assert JobInv(s, j);
  }

  lemma NothingNotFound(tr: seq<State>, acts: seq<Action>, i: nat)
    requires IsRun(tr, acts) && i < |tr|
    ensures !tr[i].notFound
  {
    RunsAreSafe(tr, acts, i);
  }

  lemma ResultsBeginInRun(tr: seq<State>, acts: seq<Action>, b: nat, j: JobId)
    requires IsRun(tr, acts) && b < |acts| && acts[b].BeginResults? && acts[b].rj == j
    ensures InResults(tr[b + 1], j)
  {
    StepOf(tr, acts, b);
    NothingNotFound(tr, acts, b + 1);
    hide Inv, Do, Enabled, InResults, Obeys;
    ResultsBegin(tr[b], acts[b].rk, j);
  }

  lemma ResultsGoOnInRun(tr: seq<State>, acts: seq<Action>, i: nat, j: JobId)
    requires IsRun(tr, acts) && i < |acts| && InResults(tr[i], j) && !Takes(tr[i], acts[i], j)
    ensures InResults(tr[i + 1], j)
  {
    StepOf(tr, acts, i);
    hide Inv, Do, Enabled, InResults, Obeys;
    ResultsGoOn(tr[i], acts[i], j);
  }

  lemma {:induction false} ResultsTake(tr: seq<State>, acts: seq<Action>, b: nat, n: nat, j: JobId) returns (p: nat)
    requires IsRun(tr, acts) && b <= n < |tr| && InResults(tr[b], j)
    ensures InResults(tr[n], j) || (b <= p < n && Takes(tr[p], acts[p], j))
    decreases n
  {
    p := b;
    hide Do, Enabled, InResults, Obeys, Takes, Init;
    if b < n {
      p := ResultsTake(tr, acts, b, n - 1, j);
      if InResults(tr[n - 1], j) { p := TakesOrGoesOn(tr, acts, n - 1, j); }
    }
  }

  lemma TakesOrGoesOn(tr: seq<State>, acts: seq<Action>, i: nat, j: JobId) returns (p: nat)
    requires IsRun(tr, acts) && i < |acts| && InResults(tr[i], j)
    ensures p == i && (InResults(tr[i + 1], j) || Takes(tr[i], acts[i], j))
  {
    p := i;
    if !Takes(tr[i], acts[i], j) { ResultsGoOnInRun(tr, acts, i, j); }
  }

  /**
   When a call of Results has returned, it has taken what the job had exactly as above, into some
   wrapper, after the job was executed.
  */
  lemma ResultsReturnWithOutcome(tr: seq<State>, acts: seq<Action>, m: nat, b: nat, n: nat)
    returns (p: nat, w: Wrapper)
    requires IsRun(tr, acts) && m < n && b < n < |tr| && acts[m].DoJob? && acts[b].BeginResults?
    requires acts[b].rj == LaneOf(tr[m], acts[m].k).slave.j && acts[b].rj in tr[n].settled
    ensures b < p < n && m < p && acts[p] == TakeResults(w)
    ensures var j := acts[b].rj;
      && ((forall i | p < i < n :: acts[i] != DestroyHits(j)) ==>
            (j in tr[n].res.clientHits <==> acts[m].found && acts[m].k.Qry?))
      && ((forall i | p < i < n :: acts[i] != ClearError(w)) ==> (InSlot(tr[n], w, j) <==> acts[m].failed))
  {
    var j := acts[b].rj;
    ResultsBeginInRun(tr, acts, b, j);
    p := ResultsTake(tr, acts, b + 1, n, j);
    w := acts[p].w;
    ExecutedBefore(tr, acts, m, p, j);
    ResultsReachTheClient(tr, acts, m, p, n, w);
  }

  /** A job is executed before anything is taken from it. */
  lemma ExecutedBefore(tr: seq<State>, acts: seq<Action>, m: nat, p: nat, j: JobId)
    requires IsRun(tr, acts) && m < |acts| && p < |acts| && acts[m].DoJob? && j == LaneOf(tr[m], acts[m].k).slave.j
    requires acts[p].TakeResults? && tr[p].master.ResultsSynced? && tr[p].master.j == j
    ensures m < p
  {
    StepOf(tr, acts, m);
    StepOf(tr, acts, p);
    assert JobInv(tr[m], j) && JobInv(tr[p], j);
    if p < m {
      TakenIsOver(tr[p], acts[p], j);
      OverInRun(tr, acts, p + 1, m, j);
    }
  }

  lemma TakenIsOver(s: State, a: Action, j: JobId)
    requires Inv(s) && Enabled(s, a) && Takes(s, a, j)
    ensures Over(Do(s, a), j)
  {
    assert JobInv(s, j);
  }

  // ----- handles -----

  /** How often the client has opened the handle, less how often it has closed it. */
  function Opened(acts: seq<Action>, h: Handle): int {
    if acts == [] then 0 else
    var last := acts[|acts| - 1];
    Opened(acts[..|acts| - 1], h) + (if last == OpenHandle(h) then 1 else if last == CloseHandle(h) then -1 else 0)
  }

  lemma SlaveSparesOpens(s: State, a: Action)
    requires Inv(s) && Enabled(s, a) && BySlave(a)
    ensures Do(s, a).res.opens == s.res.opens
  {
    if !a.Get? {
      if !a.ExitLoop? && !a.Continue? { SlaveJobAlive(s, a); }
      SlaveStepsFrame(s, a);
      hide Do, Enabled;
    }
    hide Inv;
  }

  lemma StepCountsOpens(s: State, a: Action, h: Handle)
    requires Inv(s) && Enabled(s, a)
    ensures Ref(Do(s, a).res.opens, h)
      == Ref(s.res.opens, h) + (if a == OpenHandle(h) then 1 else if a == CloseHandle(h) then -1 else 0)
  {
    if BySlave(a) {
      SlaveSparesOpens(s, a);
      hide Do, Enabled;
    }
    hide Inv;
  }

  /** The references of a handle are what the client has opened and not closed, and the live jobs on it. */
  lemma {:induction false} HandlesAreCounted(tr: seq<State>, acts: seq<Action>, n: nat, h: Handle)
    requires IsRun(tr, acts) && n < |tr|
    ensures Ref(tr[n].res.refs, h) == Opened(acts[..n], h) + |JobsOn(tr[n].jobs, h)|
    decreases n
  {
    RunsAreSafe(tr, acts, n);
    assert Counted(tr[n], h);
    hide Inv, Do, Enabled, Obeys;
    OpensAreCounted(tr, acts, n, h);
  }

  lemma {:induction false} OpensAreCounted(tr: seq<State>, acts: seq<Action>, n: nat, h: Handle)
    requires IsRun(tr, acts) && n < |tr|
    ensures Ref(tr[n].res.opens, h) == Opened(acts[..n], h)
    decreases n
  {
    if n > 0 {
      OpensAreCounted(tr, acts, n - 1, h);
      StepOf(tr, acts, n - 1);
      assert acts[..n][..n - 1] == acts[..n - 1];
      hide Inv, Do, Enabled, Obeys;
      StepCountsOpens(tr[n - 1], acts[n - 1], h);
    }
  }

  /** What a job was constructed with. */
  predicate MadeWith(s: State, j: JobId, k: Kind, h: Option<Handle>) {
    j < s.nextId && (j in s.jobs ==> s.jobs[j].kind == k && s.jobs[j].handle == h)
  }

  lemma ConstructMakes(s: State, k: Kind, h: Option<Handle>)
    requires Inv(s)
    ensures var s' := DoConstruct(s, k, h); s.nextId in s'.jobs && MadeWith(s', s.nextId, k, h)
    ensures forall g: Handle ::
      Ref(DoConstruct(s, k, h).res.refs, g) == Ref(s.res.refs, g) + if h == Some(g) then 1 else 0
  {
  }

  lemma DeleteKeepsMade(s: State, i: JobId, j: JobId, k: Kind, h: Option<Handle>)
    requires MadeWith(s, j, k, h)
    ensures MadeWith(Delete(s, i), j, k, h)
  {
  }

  lemma CallKeepsMade(s: State, l: Kind, i: JobId, w: Wrapper, j: JobId, k: Kind, h: Option<Handle>)
    requires MadeWith(s, j, k, h)
    ensures MadeWith(DoTakeResults(s, l, i, w), j, k, h) && MadeWith(DoLockAndCancel(s, i), j, k, h)
  {
  }

  lemma MasterKeepsMade(s: State, a: Action, j: JobId, k: Kind, h: Option<Handle>)
    requires Enabled(s, a) && !BySlave(a) && MadeWith(s, j, k, h)
    ensures MadeWith(Do(s, a), j, k, h)
  {
    hide Delete, DoTakeResults, DoLockAndCancel;
    match a
    case PutRefused => DeleteKeepsMade(s, s.master.j, j, k, h);
    case Destroy => DeleteKeepsMade(s, s.master.j, j, k, h);
    case TakeResults(w) => CallKeepsMade(s, s.master.k, s.master.j, w, j, k, h);
    case LockAndCancel => CallKeepsMade(s, Idx, s.master.j, 0, j, k, h);
    case _ =>
  }

  lemma SlaveKeepsMade(s: State, a: Action, j: JobId, k: Kind, h: Option<Handle>)
    requires Inv(s) && Enabled(s, a) && BySlave(a) && MadeWith(s, j, k, h)
    ensures MadeWith(Do(s, a), j, k, h)
  {
    if !a.Get? {
      if !a.ExitLoop? && !a.Continue? { SlaveJobAlive(s, a); }
      SlaveStepsFrame(s, a);
    }
    hide Inv;
  }

  lemma StepKeepsMade(tr: seq<State>, acts: seq<Action>, i: nat, j: JobId, k: Kind, h: Option<Handle>)
    requires IsRun(tr, acts) && i < |acts| && MadeWith(tr[i], j, k, h)
    ensures MadeWith(tr[i + 1], j, k, h)
  {
    StepOf(tr, acts, i);
    hide Inv, Do, Enabled, Obeys, MadeWith;
    if BySlave(acts[i]) { SlaveKeepsMade(tr[i], acts[i], j, k, h); } else { MasterKeepsMade(tr[i], acts[i], j, k, h); }
  }

  /** A job keeps its kind and the handle it was constructed on for as long as it is alive. */
  lemma {:induction false} JobsKeepHandles(tr: seq<State>, acts: seq<Action>, m: nat, n: nat)
    requires IsRun(tr, acts) && m < n < |tr| && acts[m].Construct?
    ensures MadeWith(tr[n], tr[m].nextId, acts[m].ck, acts[m].h)
    decreases n
  {
    if m + 1 == n {
      StepOf(tr, acts, m);
      ConstructMakes(tr[m], acts[m].ck, acts[m].h);
    } else {
      hide Do, Enabled, Obeys, Init, MadeWith;
      JobsKeepHandles(tr, acts, m, n - 1);
      StepKeepsMade(tr, acts, n - 1, tr[m].nextId, acts[m].ck, acts[m].h);
    }
  }
}
