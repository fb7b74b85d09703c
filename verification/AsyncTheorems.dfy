/**
 The guarantees of the engine over whole runs.
*/
module AsyncTheorems {
  import opened AsyncEngine
  import opened AsyncInvariant
  import opened AsyncSteps
  import opened AsyncResources
  import opened AsyncSafety
  import opened AsyncFrames

  /** A run: from an empty engine, any interleaving of thread steps with a client that obeys the rules. */
  ghost predicate IsRun(tr: seq<State>, acts: seq<Action>) {
    && |tr| == |acts| + 1
    && tr[0] == Init(tr[0].idx.capacity, tr[0].qry.capacity)
    && (forall i | 0 <= i < |acts| ::
      Enabled(tr[i], acts[i]) && Obeys(tr[i], acts[i]) && tr[i + 1] == Do(tr[i], acts[i]))
  }

  lemma InitIsInv(c: nat, d: nat)
    ensures Inv(Init(c, d))
  {
    var s := Init(c, d);
    forall h: Handle ensures Counted(s, h) { assert JobsOn(s.jobs, h) == {}; }
  }

  /**
   In every state of every run: no deleted job is touched or deleted again, no held mutex is
   destroyed, no lookup by id fails, and handles, errors and hits are conserved.
  */
  lemma {:induction false} RunsAreSafe(tr: seq<State>, acts: seq<Action>, i: nat)
    requires IsRun(tr, acts) && i < |tr|
    ensures Inv(tr[i])
  {
    if i == 0 {
      InitIsInv(tr[0].idx.capacity, tr[0].qry.capacity);
    } else {
      RunsAreSafe(tr, acts, i - 1);
      StepKeepsInv(tr[i - 1], acts[i - 1]);
    }
  }

  // ----- who deletes a job -----

  /** The client still has to call Cancel or Results. */
  predicate ClientOwes(s: State, j: JobId) { j in s.issued && j !in s.claimed }

  /** The slave will find cancelled_ set and delete the job. */
  predicate SlaveOwes(s: State, j: JobId) { j in s.jobs && s.jobs[j].cancelled }

  predicate MasterOwes(s: State, j: JobId) { MasterHas(s.master, j) }

  /** Every live job has exactly one party obliged to get it deleted, and a dead one has none. */
  lemma ExactlyOneOwes(tr: seq<State>, acts: seq<Action>, i: nat, j: JobId)
    requires IsRun(tr, acts) && i < |tr|
    ensures var s := tr[i];
      && (j in s.jobs <==> ClientOwes(s, j) || SlaveOwes(s, j) || MasterOwes(s, j))
      && !(ClientOwes(s, j) && SlaveOwes(s, j))
      && !(ClientOwes(s, j) && MasterOwes(s, j))
      && !(SlaveOwes(s, j) && MasterOwes(s, j))
  {
    RunsAreSafe(tr, acts, i);
    assert JobInv(tr[i], j);
  }

  /** Under the job mutex: after the callback the canceller gets the job, before it the slave does. */
  lemma LockAndCancelSettlesOwner(s: State, j: JobId)
    requires Inv(s) && s.master == CancelStarted(j) && Enabled(s, LockAndCancel)
    ensures j in s.jobs && (s.jobs[j].calledBack <==> j in s.calls)
    ensures var s' := Do(s, LockAndCancel);
      && (if j in s.calls then MasterOwes(s', j) && !SlaveOwes(s', j) else SlaveOwes(s', j) && !MasterOwes(s', j))
      && !ClientOwes(s', j)
  {
    assert JobInv(s, j);
  }

  /** The slave calls back the jobs it finds not cancelled, each for the first time, and takes over the others. */
  lemma DecideCallsBackIff(s: State, k: Kind, j: JobId)
    requires Inv(s) && LaneOf(s, k).slave == Deciding(j)
    ensures j in s.jobs && j !in s.calls
    ensures var s' := Do(s, Decide(k));
      if s.jobs[j].cancelled then s'.calls == s.calls && LaneOf(s', k).slave == Leaving(j, true) && SlaveOwes(s', j)
      else s'.calls == s.calls + [j] && LaneOf(s', k).slave == Calling(j) && !SlaveOwes(s', j)
  {
    assert JobInv(s, j);
  }

  /** A job that still waits leaves the queue unexecuted and is the canceller's alone. */
  lemma TakeWaitingSettlesOwner(s: State, j: JobId)
    requires Inv(s) && s.master == CancelFound(j)
    ensures var s' := Do(s, TakeWaiting);
      if j in s.qry.waiting
      then MasterOwes(s', j) && !SlaveOwes(s', j) && !ClientOwes(s', j) && j !in s'.qry.waiting
        && j !in s'.qry.started && j !in s.calls
      else s'.master == CancelStarted(j) && j in s'.qry.started
  {
    assert JobInv(s, j);
    TakeOut(s.qry.waiting, j, j);
  }

  /** A slave deletes only what it owes, when the job is out of its queue; nobody else owes it. */
  lemma DeleteOwnIsOwed(s: State, k: Kind, j: JobId)
    requires Inv(s) && LaneOf(s, k).slave == Deleting(j)
    ensures SlaveOwes(s, j) && !ClientOwes(s, j) && !MasterOwes(s, j)
    ensures j !in LaneOf(s, k).waiting && j !in LaneOf(s, k).started && !s.jobs[j].locked
    ensures Do(s, DeleteOwn(k)).jobs == s.jobs - {j}
  {
    assert JobInv(s, j);
  }

  /** A job whose Cancel or Results has returned is gone as soon as its slave is not occupied with it. */
  lemma GoneOnceQuiet(tr: seq<State>, acts: seq<Action>, i: nat, j: JobId)
    requires IsRun(tr, acts) && i < |tr| && j in tr[i].settled
    requires forall k :: !SlaveHas(LaneOf(tr[i], k).slave, j) && LaneOf(tr[i], k).slave != Deleting(j)
    ensures j !in tr[i].jobs
  {
    RunsAreSafe(tr, acts, i);
    assert JobInv(tr[i], j);
  }

  /** Results passes lockAndUnlock only when the slave has left the critical section and set calledBack_. */
  lemma ResultsWaitForTheSlave(tr: seq<State>, acts: seq<Action>, i: nat)
    requires IsRun(tr, acts) && i < |tr| && tr[i].master.ResultsSynced?
    ensures var s := tr[i];
      && s.master.j in s.jobs && s.jobs[s.master.j].calledBack && !s.jobs[s.master.j].locked
      && !Holds(LaneOf(s, s.master.k).slave, s.master.j)
  {
    RunsAreSafe(tr, acts, i);
    assert JobInv(tr[i], tr[i].master.j);
  }

  // ----- callbacks -----

  lemma StepKeepsTheDeadDead(s: State, a: Action, j: JobId)
    requires Inv(s) && Enabled(s, a) && j < s.nextId && j !in s.jobs
    ensures j < Do(s, a).nextId && j !in Do(s, a).jobs
  {
    if !BySlave(a) {
      MasterStepAddsOnlyNewJob(s, a);
    } else if !a.Get? {
      if !a.ExitLoop? && !a.Continue? { SlaveJobAlive(s, a); }
      SlaveStepsFrame(s, a);
    }
  }

  lemma MasterStepAddsOnlyNewJob(s: State, a: Action)
    requires Enabled(s, a) && !BySlave(a)
    ensures Do(s, a).jobs.Keys <= s.jobs.Keys + {s.nextId} && Do(s, a).nextId >= s.nextId
  {
  }

  /** No step calls back for a job whose Cancel or Results has returned. */
  lemma StepSparesTheSettled(s: State, a: Action, j: JobId)
    requires Inv(s) && Enabled(s, a) && j in s.settled
    ensures j in Do(s, a).settled && (j in Do(s, a).calls <==> j in s.calls)
  {
    assert JobInv(s, j);
    if a.Decide? {} else {}
  }

  /** A job's callback fires at most once. */
  lemma CalledBackAtMostOnce(tr: seq<State>, acts: seq<Action>, i: nat, m: nat, n: nat)
    requires IsRun(tr, acts) && i < |tr|
    requires m < |tr[i].calls| && n < |tr[i].calls| && tr[i].calls[m] == tr[i].calls[n]
    ensures m == n
  {
    RunsAreSafe(tr, acts, i);
  }

  /** Once Cancel or Results on a job has returned, its callback is never fired afterwards. */
  lemma {:induction false} NeverCalledBackAfterwards(tr: seq<State>, acts: seq<Action>, i: nat, n: nat, j: JobId)
    requires IsRun(tr, acts) && i <= n < |tr| && j in tr[i].settled
    ensures j in tr[n].settled && (j in tr[n].calls <==> j in tr[i].calls)
  {
    if i < n {
      NeverCalledBackAfterwards(tr, acts, i, n - 1, j);
      RunsAreSafe(tr, acts, n - 1);
      StepSparesTheSettled(tr[n - 1], acts[n - 1], j);
    }
  }

  /** A deleted job never comes back: ids are not reused. */
  lemma {:induction false} DeadForGood(tr: seq<State>, acts: seq<Action>, i: nat, n: nat, j: JobId)
    requires IsRun(tr, acts) && i <= n < |tr| && j < tr[i].nextId && j !in tr[i].jobs
    ensures j < tr[n].nextId && j !in tr[n].jobs
  {
    if i < n {
      DeadForGood(tr, acts, i, n - 1, j);
      RunsAreSafe(tr, acts, n - 1);
      StepKeepsTheDeadDead(tr[n - 1], acts[n - 1], j);
    }
  }

  // ----- order of execution -----

  /** The sequence without the members of a set. */
  function Except(q: seq<JobId>, gone: set<JobId>): seq<JobId> {
    if q == [] then [] else Except(q[..|q| - 1], gone) + (if q[|q| - 1] in gone then [] else [q[|q| - 1]])
  }

  /** What was started, followed by what waits, is what was submitted except for the shallow-cancelled. */
  ghost predicate InOrder(s: State) {
    && s.idx.begun + s.idx.waiting == s.idx.submitted
    && s.qry.begun + s.qry.waiting == Except(s.qry.submitted, s.shallow)
    && Distinct(s.qry.submitted)
    && (forall j | j in s.qry.submitted :: j in s.issued)
    && (forall j | j in s.shallow :: j in s.qry.submitted)
  }

  lemma {:induction false} ExceptMembers(q: seq<JobId>, gone: set<JobId>, j: JobId)
    ensures j in Except(q, gone) <==> j in q && j !in gone
  {
    if q != [] {
      ExceptMembers(q[..|q| - 1], gone, j);
      assert q == q[..|q| - 1] + [q[|q| - 1]];
    }
  }

  lemma {:induction false} ExceptUnaffected(q: seq<JobId>, gone: set<JobId>, j: JobId)
    requires j !in q
    ensures Except(q, gone + {j}) == Except(q, gone)
  {
    if q != [] { ExceptUnaffected(q[..|q| - 1], gone, j); }
  }

  lemma WithoutFirst(p: seq<JobId>, j: JobId)
    requires p != []
    ensures Without(p, j) == if p[0] == j then p[1..] else [p[0]] + Without(p[1..], j)
  {
  }

  lemma {:induction false} WithoutAfter(p: seq<JobId>, q: seq<JobId>, j: JobId)
    requires j !in p
    ensures Without(p + q, j) == p + Without(q, j)
  {
    hide Without;
    if p == [] {
      assert p + q == q && p + Without(q, j) == Without(q, j);
    } else {
      assert (p + q)[1..] == p[1..] + q && (p + q)[0] == p[0];
      WithoutAfter(p[1..], q, j);
      WithoutFirst(p + q, j);
      assert [p[0]] + (p[1..] + Without(q, j)) == p + Without(q, j);
    }
  }

  lemma {:induction false} WithoutBefore(p: seq<JobId>, q: seq<JobId>, j: JobId)
    requires j in p
    ensures Without(p + q, j) == Without(p, j) + q
  {
    hide Without;
    assert (p + q)[1..] == p[1..] + q && (p + q)[0] == p[0];
    WithoutFirst(p, j);
    WithoutFirst(p + q, j);
    if p[0] != j {
      WithoutBefore(p[1..], q, j);
      assert [p[0]] + (Without(p[1..], j) + q) == [p[0]] + Without(p[1..], j) + q;
    }
  }

  lemma WithoutAppend(p: seq<JobId>, q: seq<JobId>, j: JobId)
    ensures Without(p + q, j) == if j in p then Without(p, j) + q else p + Without(q, j)
  {
    if j in p { WithoutBefore(p, q, j); } else { WithoutAfter(p, q, j); }
  }

  lemma {:induction false} WithoutAbsent(q: seq<JobId>, j: JobId)
    requires j !in q
    ensures Without(q, j) == q
  {
    if q != [] { WithoutAbsent(q[1..], j); }
  }

  /** Taking one more member out of a duplicate-free sequence removes exactly its occurrence. */
  lemma {:induction false} ExceptOneMore(q: seq<JobId>, gone: set<JobId>, j: JobId)
    requires Distinct(q) && j !in gone
    ensures Except(q, gone + {j}) == Without(Except(q, gone), j)
  {
    if q != [] {
      var p, x := q[..|q| - 1], q[|q| - 1];
      var e := if x in gone then [] else [x];
      WithoutAppend(Except(p, gone), e, j);
      ExceptMembers(p, gone, j);
      if x == j {
        assert j !in p;
        ExceptUnaffected(p, gone, j);
        assert Without([j], j) == [];
        assert Except(p, gone) + [] == Except(p, gone);
      } else {
        ExceptOneMore(p, gone, j);
        WithoutAbsent(e, j);
        if j !in p { WithoutAbsent(Except(p, gone), j); }
      }
    }
  }

  predicate MovesQueues(a: Action) { a.Put? || a.TakeWaiting? || a.Get? }

  lemma NotOnBothSides(p: seq<JobId>, q: seq<JobId>, j: JobId)
    requires Distinct(p + q) && j in q
    ensures j !in p
  {
    var n :| 0 <= n < |q| && q[n] == j;
    forall m | 0 <= m < |p| ensures p[m] != j {
      assert (p + q)[m] == p[m] && (p + q)[|p| + n] == j;
    }
  }

  lemma PutKeepsOrder(s: State)
    requires Inv(s) && Enabled(s, Put) && InOrder(s)
    ensures InOrder(Do(s, Put))
  {
    var k, j := s.master.k, s.master.j;
    var l := LaneOf(s, k);
    assert JobInv(s, j);
    assert l.begun + (l.waiting + [j]) == (l.begun + l.waiting) + [j];
    assert (l.submitted + [j])[..|l.submitted + [j]| - 1] == l.submitted;
  }

  lemma TakeWaitingKeepsOrder(s: State)
    requires Inv(s) && Enabled(s, TakeWaiting) && InOrder(s)
    ensures InOrder(Do(s, TakeWaiting))
  {
    var j := s.master.j;
    var q := s.qry;
    if j in q.waiting {
      assert j in q.begun + q.waiting;
      ExceptMembers(q.submitted, s.shallow, j);
      ExceptOneMore(q.submitted, s.shallow, j);
      ExceptDistinct(q.submitted, s.shallow);
      NotOnBothSides(q.begun, q.waiting, j);
      WithoutAppend(q.begun, q.waiting, j);
    }
  }

  lemma {:induction false} ExceptDistinct(q: seq<JobId>, gone: set<JobId>)
    requires Distinct(q)
    ensures Distinct(Except(q, gone))
  {
    if q != [] {
      ExceptDistinct(q[..|q| - 1], gone);
      ExceptMembers(q[..|q| - 1], gone, q[|q| - 1]);
    }
  }

  lemma GetKeepsOrder(s: State, k: Kind)
    requires Enabled(s, Get(k)) && InOrder(s)
    ensures InOrder(Do(s, Get(k)))
  {
    var l := LaneOf(s, k);
    assert (l.begun + [l.waiting[0]]) + l.waiting[1..] == l.begun + l.waiting;
  }

  lemma OtherStepsKeepOrder(s: State, a: Action)
    requires Inv(s) && Enabled(s, a) && InOrder(s) && !MovesQueues(a)
    ensures InOrder(Do(s, a))
  {
    if BySlave(a) {
      if !a.ExitLoop? && !a.Continue? { SlaveJobAlive(s, a); }
      SlaveStepsFrame(s, a);
    } else {
      if !s.master.Free? { MasterJobAlive(s, a); }
      MasterStepsFrame(s, a);
    }
    hide Inv, Do, Enabled;
  }

  lemma StepKeepsOrder(s: State, a: Action)
    requires Inv(s) && Enabled(s, a) && InOrder(s)
    ensures InOrder(Do(s, a))
  {
    hide Inv, InOrder;
    if a.Put? { PutKeepsOrder(s); }
    else if a.TakeWaiting? { TakeWaitingKeepsOrder(s); }
    else if a.Get? { GetKeepsOrder(s, a.k); }
    else { OtherStepsKeepOrder(s, a); }
  }

  lemma {:induction false} RunsAreInOrder(tr: seq<State>, acts: seq<Action>, i: nat)
    requires IsRun(tr, acts) && i < |tr|
    ensures InOrder(tr[i])
  {
    if i > 0 {
      hide Inv, InOrder, Do, Enabled, Init;
      RunsAreInOrder(tr, acts, i - 1);
      RunsAreSafe(tr, acts, i - 1);
      StepKeepsOrder(tr[i - 1], acts[i - 1]);
    }
  }

  /**
   Index jobs are executed in the order of submission without exception; query jobs are executed
   in the order of submission, leaving out exactly those cancelled before they were started.
  */
  lemma ExecutedInSubmissionOrder(tr: seq<State>, acts: seq<Action>, i: nat)
    requires IsRun(tr, acts) && i < |tr|
    ensures tr[i].idx.begun <= tr[i].idx.submitted
    ensures tr[i].qry.begun <= Except(tr[i].qry.submitted, tr[i].shallow)
  {
    RunsAreInOrder(tr, acts, i);
  }
}
