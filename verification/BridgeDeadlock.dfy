/**
 The one way the bridge can hang. The functions that submit a job hold the static mutex while
 they wait for room in the queue, and the completion callback locks the same mutex: with enough
 client objects the slave that would make room waits for the master that waits for room.
*/
module BridgeDeadlock {
  import opened Options
  import E = AsyncEngine
  import I = AsyncInvariant
  import F = AsyncFrames
  import opened AsyncBridge
  import opened BridgeInvariant
  import opened BridgeSafety
  import opened BridgeTheorems
  import opened BridgeProgress
  import opened BridgeTermination

  // ----- a jam is for good -----

  lemma JammedSlaveIsCalling(s: State, k: Kind)
    requires Inv(s) && Jammed(s, k)
    ensures SlaveOf(s, k).Calling? && SideOf(s, k).mutex.ByMaster? && s.eng.master.Putting? && s.eng.master.k == k
  {
    assert CbInv(s, k) by { assert k == E.Idx || k == E.Qry; }
  }

  lemma OtherLaneStep(e: E.State, a: E.Action, k: Kind)
    requires I.Control(e) && E.Enabled(e, a) && E.BySlave(a) && a.k != k
    ensures E.LaneOf(E.Do(e, a), k) == E.LaneOf(e, k)
  {
    if !a.Get? {
      if !a.Continue? && !a.ExitLoop? { F.SlaveJobAlive(e, a); }
      F.SlaveStepsFrame(e, a);
    }
    hide I.Control;
  }

  lemma OnlySlavesMove(s: State, k: Kind, a: Action)
    requires Inv(s) && Jammed(s, k) && Enabled(s, a)
    ensures (a.SlaveStep? && a.sa.k != k)
      || ((a.CbLock? || a.CbCompare? || a.CbSetWaiting? || a.CbTest? || a.CbPost?) && a.k != k)
  {
    JammedSlaveIsCalling(s, k);
    hide Inv;
  }

  lemma OtherCallbackStep(s: State, a: Action, k: Kind)
    requires Enabled(s, a) && (a.CbLock? || a.CbCompare? || a.CbSetWaiting? || a.CbTest? || a.CbPost?) && a.k != k
    ensures Do(s, a).eng == s.eng && Do(s, a).pc == s.pc && SideOf(Do(s, a), k).cb == SideOf(s, k).cb
  {
  }

  /** Once jammed, the bridge stays jammed whatever step is taken: no later request of any client gets through. */
  lemma JamIsForGood(s: State, k: Kind, a: Action)
    requires Inv(s) && Jammed(s, k) && Enabled(s, a)
    ensures Jammed(Do(s, a), k)
  {
    OnlySlavesMove(s, k, a);
    if a.SlaveStep? {
      OtherLaneStep(s.eng, a.sa, k);
      SlaveStepSides(s, a.sa);
    } else {
      OtherCallbackStep(s, a, k);
    }
    hide Inv, Enabled;
  }

  // ----- a jam takes two more clients than the queue has room for -----

  /** Client object number n of kind k waits for job j. */
  predicate Awaits(s: State, k: Kind, n: nat, j: JobId) {
    IsClient(s, Cid(k, n)) && ClientOf(s, Cid(k, n)).busy && ClientOf(s, Cid(k, n)).job == j
  }

  ghost predicate Awaited(s: State, k: Kind, j: JobId) { exists n: nat :: Awaits(s, k, n, j) }

  lemma WaitingIsAwaited(s: State, k: Kind, j: JobId)
    requires Inv(s) && Jammed(s, k) && j in E.LaneOf(s.eng, k).waiting
    ensures Awaited(s, k, j)
  {
    assert I.JobInv(s.eng, j);
    assert JobLink(s, j);
    assert Awaits(s, k, s.cookie[j].n, j);
  }

  lemma CalledIsAwaited(s: State, k: Kind) returns (n: nat)
    requires Inv(s) && Jammed(s, k)
    ensures SlaveOf(s, k).Calling? && Awaits(s, k, n, SlaveOf(s, k).j)
    ensures SlaveOf(s, k).j !in E.LaneOf(s.eng, k).waiting
  {
    JammedSlaveIsCalling(s, k);
    assert I.JobInv(s.eng, SlaveOf(s, k).j);
    assert CbInv(s, k) by { assert k == E.Idx || k == E.Qry; }
    n := CalledClient(s, k).n;
  }

  /** One client object for each job of a sequence. */
  lemma {:induction false} Waiters(s: State, k: Kind, q: seq<JobId>) returns (ns: set<nat>)
    requires I.Distinct(q) && forall j | j in q :: Awaited(s, k, j)
    ensures |ns| == |q| && forall n | n in ns :: exists j :: j in q && Awaits(s, k, n, j)
  {
    if q == [] {
      ns := {};
    } else {
      var rest := Waiters(s, k, q[1..]);
      assert Awaited(s, k, q[0]);
      var n: nat :| Awaits(s, k, n, q[0]);
      assert q[0] !in q[1..];
      assert n !in rest;
      ns := rest + {n};
    }
  }

  lemma {:induction false} BoundedSet(ns: set<nat>, b: nat)
    requires forall n | n in ns :: n < b
    ensures |ns| <= b
  {
    if b == 0 {
      assert ns == {};
    } else {
      BoundedSet(ns - {b - 1}, b - 1);
    }
  }

  /** Each waiting job, the job whose callback is kept out, and the job being put have each their own client object. */
  lemma JamTakesClients(s: State, k: Kind)
    requires Inv(s) && Jammed(s, k)
    ensures |SideOf(s, k).clients| >= E.LaneOf(s.eng, k).capacity + 2
  {
    var q := E.LaneOf(s.eng, k).waiting;
    assert I.Distinct(q) by { assert k == E.Idx || k == E.Qry; }
    forall j | j in q ensures Awaited(s, k, j) { WaitingIsAwaited(s, k, j); }
    var ns := Waiters(s, k, q);
    var called := CalledIsAwaited(s, k);
    var putting := s.pc.c.n;
    assert IsClient(s, s.pc.c) && !ClientOf(s, s.pc.c).busy;
    hide Inv;
    assert called !in ns;
    assert putting !in ns && putting != called;
    BoundedSet(ns + {called, putting}, |SideOf(s, k).clients|);
  }

  // ----- ... and with that many clients it can happen -----

  ghost predicate Reaches(u: Setup, s: State) {
    exists tr: seq<State>, acts: seq<Action> :: IsRun(u, tr, acts) && tr[|acts|] == s
  }

  lemma StartReaches(u: Setup)
    ensures Reaches(u, Start(u)) && Inv(Start(u)) && Fits(u, Start(u))
  {
    InitIsInv(u);
    assert IsRun(u, [Start(u)], []);
  }

  lemma Extends(u: Setup, tr: seq<State>, acts: seq<Action>, a: Action)
    requires IsRun(u, tr, acts) && Enabled(tr[|acts|], a)
    ensures IsRun(u, tr + [Do(tr[|acts|], a)], acts + [a])
  {
    hide Enabled, Do, Start;
  }

  lemma StepReaches(u: Setup, s: State, a: Action)
    requires Reaches(u, s) && Enabled(s, a)
    ensures Reaches(u, Do(s, a))
  {
    var tr: seq<State>, acts: seq<Action> :| IsRun(u, tr, acts) && tr[|acts|] == s;
    Extends(u, tr, acts, a);
    assert (tr + [Do(s, a)])[|acts + [a]|] == Do(s, a);
  }

  /** A reachable state with its invariants. */
  ghost predicate At(u: Setup, s: State) { Reaches(u, s) && Inv(s) && Fits(u, s) }

  lemma Goes(u: Setup, s: State, a: Action)
    requires At(u, s) && Enabled(s, a)
    ensures At(u, Do(s, a))
  {
    hide Inv, Fits, Reaches, Enabled, Do;
    StepReaches(u, s, a);
    StepKeepsInv(s, a);
    StepFits(u, s, a);
  }

  lemma {:induction false} ReachedIsAt(u: Setup, tr: seq<State>, acts: seq<Action>, i: nat)
    requires IsRun(u, tr, acts) && i < |tr|
    ensures Inv(tr[i]) && Fits(u, tr[i])
  {
    hide Inv, Fits, Do, Enabled, Start;
    if i == 0 {
      StartReaches(u);
    } else {
      ReachedIsAt(u, tr, acts, i - 1);
      StepKeepsInv(tr[i - 1], acts[i - 1]);
      StepFits(u, tr[i - 1], acts[i - 1]);
    }
  }

  /** The clients from number m on have made no request yet. */
  predicate Idling(s: State, k: Kind, m: nat) {
    forall i | m <= i < |SideOf(s, k).clients| :: !SideOf(s, k).clients[i].busy
  }

  /** n jobs wait in the queue of kind k. */
  predicate Queued(s: State, k: Kind, n: nat) { |E.LaneOf(s.eng, k).waiting| == n }

  /** Client m submits as far as put; nothing moves in the slave. */
  lemma SubmitsToPut(u: Setup, s: State, k: Kind, m: nat) returns (s': State)
    requires At(u, s) && s.pc.AtRest? && m < Clients(u, k) && Idling(s, k, m) && !SideOf(s, k).cb.Inside?
    ensures At(u, s') && s'.pc == Putting(Cid(k, m)) && Idling(s', k, m)
    ensures SideOf(s', k).cb == SideOf(s, k).cb && E.LaneOf(s'.eng, k) == E.LaneOf(s.eng, k)
    ensures s'.eng.claimed == s.eng.claimed && s'.eng.master == E.Putting(k, s.eng.nextId)
  {
    var c := Cid(k, m);
    assert Enabled(s, Submit(c));
    Goes(u, s, Submit(c));
    var s1 := Do(s, Submit(c));
    assert CbInv(s, k) by { assert k == E.Idx || k == E.Qry; }
    assert Enabled(s1, TakeMutex);
    Goes(u, s1, TakeMutex);
    var s2 := Do(s1, TakeMutex);
    assert Enabled(s2, Create(None));
    Goes(u, s2, Create(None));
    s' := Do(s2, Create(None));
  }

  /** With room in the queue the submission goes through. */
  lemma PutsThrough(u: Setup, s: State, k: Kind, m: nat) returns (s': State)
    requires At(u, s) && s.pc == Putting(Cid(k, m)) && Idling(s, k, m) && s.eng.master.Putting? && s.eng.master.k == k
    requires |E.LaneOf(s.eng, k).waiting| < E.LaneOf(s.eng, k).capacity && !SideOf(s, k).cb.Inside?
    ensures At(u, s') && s'.pc.AtRest? && Idling(s', k, m + 1) && SideOf(s', k).cb == SideOf(s, k).cb
    ensures SlaveOf(s', k) == SlaveOf(s, k) && s'.eng.claimed == s.eng.claimed
    ensures E.LaneOf(s'.eng, k).waiting == E.LaneOf(s.eng, k).waiting + [s.eng.master.j]
  {
    assert Enabled(s, Put);
    Goes(u, s, Put);
    var s1 := Do(s, Put);
    assert Enabled(s1, Publish);
    Goes(u, s1, Publish);
    s' := Do(s1, Publish);
  }

  /** The slave takes the first job and executes it. */
  lemma RunsJob(u: Setup, s: State, k: Kind) returns (s': State)
    requires At(u, s) && s.pc.AtRest? && Idling(s, k, 1) && s.eng.claimed == {}
    requires SlaveOf(s, k).Idle? && Queued(s, k, 1)
    ensures At(u, s') && s'.pc.AtRest? && Idling(s', k, 1) && s'.eng.claimed == {}
    ensures SlaveOf(s', k).Finished? && Queued(s', k, 0)
  {
    assert E.Enabled(s.eng, E.Get(k));
    hide Inv, Fits, Reaches;
    var s1 := SlaveGoes(u, s, k, E.Get(k));
    s' := SlaveGoes(u, s1, k, E.DoJob(k, false, false));
  }

  lemma LocksJob(u: Setup, s: State, k: Kind) returns (s': State)
    requires At(u, s) && s.pc.AtRest? && Idling(s, k, 1) && s.eng.claimed == {}
    requires SlaveOf(s, k).Finished? && Queued(s, k, 0)
    ensures At(u, s') && s'.pc.AtRest? && Idling(s', k, 1) && s'.eng.claimed == {}
    ensures SlaveOf(s', k).Deciding? && Queued(s', k, 0)
  {
    FinishedCanLock(s, k);
    hide Inv, Fits, Reaches, E.Enabled;
    s' := SlaveGoes(u, s, k, E.Lock(k));
  }

  /** ... and goes as far as its callback. */
  lemma RunsIntoCallback(u: Setup, s: State, k: Kind) returns (s': State)
    requires At(u, s) && s.pc.AtRest? && Idling(s, k, 1) && s.eng.claimed == {}
    requires SlaveOf(s, k).Idle? && Queued(s, k, 1)
    ensures At(u, s') && s'.pc.AtRest? && Idling(s', k, 1) && SideOf(s', k).cb.Entering? && Queued(s', k, 0)
  {
    hide Inv, Fits, Reaches;
    var s1 := RunsJob(u, s, k);
    var s2 := LocksJob(u, s1, k);
    Uncancelled(s2, k);
    s' := SlaveGoes(u, s2, k, E.Decide(k));
  }

  lemma FinishedCanLock(s: State, k: Kind)
    requires Inv(s) && SlaveOf(s, k).Finished?
    ensures E.Enabled(s.eng, E.Lock(k))
  {
    FinishedIsUnlocked(s.eng, k, SlaveOf(s, k).j);
  }

  lemma Uncancelled(s: State, k: Kind)
    requires Inv(s) && SlaveOf(s, k).Deciding? && s.eng.claimed == {}
    ensures SlaveOf(s, k).j in s.eng.jobs && !s.eng.jobs[SlaveOf(s, k).j].cancelled
  {
    assert I.JobInv(s.eng, SlaveOf(s, k).j);
  }

  lemma SlaveGoes(u: Setup, s: State, k: Kind, a: E.Action) returns (s': State)
    requires At(u, s) && s.pc.AtRest? && Idling(s, k, 1) && s.eng.claimed == {}
    requires E.Enabled(s.eng, a) && E.BySlave(a) && a.k == k && (a.Get? || a.DoJob? || a.Lock? || a.Decide?)
    requires a.Decide? ==> SlaveOf(s, k).j in s.eng.jobs && !s.eng.jobs[SlaveOf(s, k).j].cancelled
    ensures At(u, s') && s'.pc.AtRest? && Idling(s', k, 1) && s'.eng.claimed == {}
    ensures a.Get? ==> SlaveOf(s', k).Running?
    ensures a.DoJob? ==> SlaveOf(s', k).Finished?
    ensures a.Lock? ==> SlaveOf(s', k).Deciding?
    ensures a.Decide? ==> SideOf(s', k).cb.Entering?
    ensures |E.LaneOf(s'.eng, k).waiting| == |E.LaneOf(s.eng, k).waiting| - if a.Get? then 1 else 0
  {
    hide Inv, Fits, Reaches, E.Enabled, E.Do, Idling;
    Goes(u, s, SlaveStep(a));
    SlaveStepSeen(s, k, a);
    s' := Do(s, SlaveStep(a));
  }

  /** What such a step of the slave changes, and what not. */
  lemma SlaveStepSeen(s: State, k: Kind, a: E.Action)
    requires Inv(s) && Idling(s, k, 1)
    requires E.Enabled(s.eng, a) && E.BySlave(a) && a.k == k && (a.Get? || a.DoJob? || a.Lock? || a.Decide?)
    requires a.Decide? ==> SlaveOf(s, k).j in s.eng.jobs && !s.eng.jobs[SlaveOf(s, k).j].cancelled
    ensures var s' := DoSlaveStep(s, a);
      && s'.pc == s.pc && Idling(s', k, 1) && s'.eng.claimed == s.eng.claimed
      && (a.Get? ==> SlaveOf(s', k).Running?) && (a.DoJob? ==> SlaveOf(s', k).Finished?)
      && (a.Lock? ==> SlaveOf(s', k).Deciding?) && (a.Decide? ==> SideOf(s', k).cb.Entering?)
      && |E.LaneOf(s'.eng, k).waiting| == |E.LaneOf(s.eng, k).waiting| - if a.Get? then 1 else 0
  {
    if !a.Get? { F.SlaveJobAlive(s.eng, a); }
    hide Inv;
  }

  /** Client 0 submits, and its job runs into the callback. */
  lemma FirstCall(u: Setup, k: Kind) returns (s: State)
    requires Clients(u, k) > 0 && Capacity(u, k) > 0
    ensures At(u, s) && s.pc.AtRest? && Idling(s, k, 1) && SideOf(s, k).cb.Entering? && Queued(s, k, 0)
  {
    StartReaches(u);
    StartIsIdle(u, k);
    hide Inv, Start;
    var s1 := SubmitsToPut(u, Start(u), k, 0);
    var s2 := PutsThrough(u, s1, k, 0);
    s := RunsIntoCallback(u, s2, k);
  }

  lemma StartIsIdle(u: Setup, k: Kind)
    ensures var s := Start(u); s.pc.AtRest? && Idling(s, k, 0) && SlaveOf(s, k).Idle? && SideOf(s, k).cb.Outside?
    ensures var s := Start(u); s.eng.claimed == {} && E.LaneOf(s.eng, k).waiting == []
  {
  }

  /** While the slave stands in that callback, the next clients fill the queue. */
  lemma {:induction false} FillsUp(u: Setup, s: State, k: Kind, n: nat) returns (s': State)
    requires At(u, s) && s.pc.AtRest? && Idling(s, k, n + 1) && SideOf(s, k).cb.Entering? && Queued(s, k, n)
    requires n <= Capacity(u, k) < Clients(u, k)
    ensures At(u, s') && s'.pc.AtRest? && Idling(s', k, Capacity(u, k) + 1) && SideOf(s', k).cb.Entering?
    ensures Queued(s', k, Capacity(u, k))
    decreases Capacity(u, k) - n
  {
    if n == Capacity(u, k) {
      s' := s;
    } else {
      hide Inv, Reaches;
      var s1 := SubmitsToPut(u, s, k, n + 1);
      var s2 := PutsThrough(u, s1, k, n + 1);
      s' := FillsUp(u, s2, k, n + 1);
    }
  }

  /**
   The bridge can hang on the queue of kind k if and only if it serves at least two more client
   objects of that kind than the queue holds jobs.
  */
  lemma JamReachableIff(u: Setup, k: Kind)
    requires Capacity(u, k) > 0
    ensures (exists s :: Reaches(u, s) && Jammed(s, k)) <==> Clients(u, k) >= Capacity(u, k) + 2
  {
    if s :| Reaches(u, s) && Jammed(s, k) {
      ReachedIs(u, s);
      JamTakesClients(s, k);
    }
    if Clients(u, k) >= Capacity(u, k) + 2 {
      var s := JamsUp(u, k);
    }
  }

  lemma ReachedIs(u: Setup, s: State)
    requires Reaches(u, s)
    ensures At(u, s)
  {
    var tr: seq<State>, acts: seq<Action> :| IsRun(u, tr, acts) && tr[|acts|] == s;
    ReachedIsAt(u, tr, acts, |acts|);
  }

  lemma JamsUp(u: Setup, k: Kind) returns (s: State)
    requires Capacity(u, k) > 0 && Clients(u, k) >= Capacity(u, k) + 2
    ensures Reaches(u, s) && Jammed(s, k)
  {
    hide Inv, Reaches;
    var s1 := FirstCall(u, k);
    var s2 := FillsUp(u, s1, k, 0);
    s := SubmitsToPut(u, s2, k, Capacity(u, k) + 1);
  }

  // ----- freedom from deadlock -----

  /** Let the threads run on without new requests until nobody can move. */
  lemma {:induction false} RunsDry(u: Setup, s: State, k: Kind) returns (s': State)
    requires At(u, s) && Jammed(s, k)
    ensures At(u, s') && Jammed(s', k) && !CanMove(s')
    decreases Work(s)
  {
    if CanMove(s) {
      var a :| Internal(a) && Enabled(s, a);
      StepWorks(s, a);
      JamIsForGood(s, k, a);
      Goes(u, s, a);
      s' := RunsDry(u, Do(s, a), k);
    } else {
      s' := s;
    }
  }

  /** In every reachable state there is nothing left to do or somebody can move. */
  ghost predicate NeverStuck(u: Setup) { forall s | Reaches(u, s) :: Quiet(s) || CanMove(s) }

  /**
   The bridge is free from deadlock exactly when neither queue is too small for its clients. The
   lock order alone (job mutex before static mutex) is not enough.
  */
  lemma DeadlockFreeIff(u: Setup)
    requires u.idxCapacity > 0 && u.qryCapacity > 0
    ensures NeverStuck(u) <==> u.idxClients <= u.idxCapacity + 1 && u.qryClients <= u.qryCapacity + 1
  {
    if Clients(u, E.Idx) >= Capacity(u, E.Idx) + 2 { GetsStuck(u, E.Idx); }
    else if Clients(u, E.Qry) >= Capacity(u, E.Qry) + 2 { GetsStuck(u, E.Qry); }
    else {
      forall s | Reaches(u, s) ensures Quiet(s) || CanMove(s) { NotStuck(u, s); }
    }
  }

  lemma GetsStuck(u: Setup, k: Kind)
    requires Capacity(u, k) > 0 && Clients(u, k) >= Capacity(u, k) + 2
    ensures !NeverStuck(u)
  {
    hide Inv, Reaches, CanMove;
    var s := JamsUp(u, k);
    ReachedIs(u, s);
    var s' := RunsDry(u, s, k);
    assert Reaches(u, s') && !Quiet(s') && !CanMove(s');
  }

  lemma NotStuck(u: Setup, s: State)
    requires u.idxCapacity > 0 && u.qryCapacity > 0 && Reaches(u, s)
    requires u.idxClients <= u.idxCapacity + 1 && u.qryClients <= u.qryCapacity + 1
    ensures Quiet(s) || CanMove(s)
  {
    ReachedIs(u, s);
    SomeoneMoves(u, s);
    if s.pc.Putting? && Jammed(s, s.pc.c.k) {
      JamTakesClients(s, s.pc.c.k);
    }
  }
}
