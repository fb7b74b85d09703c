/**
 Every step that is not a new request brings the bridge closer to rest. Work counts the steps that
 the master and each slave still owe: a rank for where a thread stands, and for each kind the jobs
 waiting and the client objects that are active. The ranks are spaced so that a step which hands
 work on to the queue or to an active object pays for it; hence a stretch without new requests is
 no longer than the work at its start.
*/
module BridgeTermination {
  import E = AsyncEngine
  import I = AsyncInvariant
  import F = AsyncFrames
  import opened AsyncBridge
  import opened BridgeInvariant
  import opened BridgeSafety
  import opened BridgeTheorems
  import opened BridgeProgress

  // ----- the measure -----

  /** Steps the slave has left before it is idle again. */
  function SlaveRank(p: E.Slave, cb: Cb): nat {
    match p
    case Running(_) => 12
    case Finished(_) => 11
    case Deciding(_) => 10
    case Calling(_) => CbRank(cb)
    case Leaving(_, _) => 3
    case Left(_, _) => 2
    case Deleting(_) => 1
    case _ => 0
  }

  function CbRank(cb: Cb): nat {
    match cb
    case Entering => 9
    case Inside => 8
    case Matched => 7
    case Testing => 6
    case Posting => 5
    case _ => 4
  }

  function MasterRank(m: E.Master): nat {
    match m
    case CancelFound(_) => 6
    case CancelStarted(_) => 5
    case CancelDecided(_, _) => 4
    case ResultsFound(_, _) => 6
    case ResultsSynced(_, _) => 5
    case ResultsTaken(_, _) => 4
    case Destroying(_) => 3
    case _ => 0
  }

  /** Steps the master has left, counting what a submission adds to the queue and to the active objects. */
  function PcRank(pc: Pc, m: E.Master): nat {
    match pc
    case AtRest => 0
    case Submitting(_) => 25
    case Creating(_) => 24
    case Putting(_) => 23
    case Publishing(_, _) => 9
    case Collecting(_) => MasterRank(m)
    case Clearing(_) => 1
    case CancelStart(_) => 10
    case CancelDoing(_) => 9
    case CancelWaiting(_) => 8
    case CancelReady(_) => 7
    case CancelEngine(_) => MasterRank(m)
  }

  function Active(q: seq<Client>): nat {
    if q == [] then 0 else (if q[0].active then 1 else 0) + Active(q[1..])
  }

  function SideWork(s: State, k: Kind): nat {
    SlaveRank(SlaveOf(s, k), SideOf(s, k).cb) + 13 * |E.LaneOf(s.eng, k).waiting| + 8 * Active(SideOf(s, k).clients)
  }

  function Work(s: State): nat { PcRank(s.pc, s.eng.master) + SideWork(s, E.Idx) + SideWork(s, E.Qry) }

  // ----- it falls with every step -----

  lemma {:induction false} ActiveAt(q: seq<Client>, n: nat, x: Client)
    requires n < |q|
    ensures Active(q[n := x]) + (if q[n].active then 1 else 0) == Active(q) + (if x.active then 1 else 0)
  {
    if n == 0 {
      assert q[n := x][1..] == q[1..];
    } else {
      assert q[n := x][1..] == q[1..][n - 1 := x];
      ActiveAt(q[1..], n - 1, x);
    }
  }

  lemma {:induction false} WithoutIsShorter(q: seq<JobId>, j: JobId)
    ensures |E.Without(q, j)| <= |q|
  {
    if q != [] { WithoutIsShorter(q[1..], j); }
  }

  lemma CallbackStepWorks(s: State, a: Action)
    requires CbInv(s, E.Idx) && CbInv(s, E.Qry) && Enabled(s, a) && (a.CbLock? || a.CbCompare? || a.CbTest?)
    ensures Work(Do(s, a)) < Work(s)
  {
    if a.k.Idx? { CbRankFalls(s, E.Idx, a); } else { CbRankFalls(s, E.Qry, a); }
  }

  lemma CbRankFalls(s: State, k: Kind, a: Action)
    requires CbInv(s, k) && Enabled(s, a) && (a.CbLock? || a.CbCompare? || a.CbTest?) && a.k == k
    ensures Work(Do(s, a)) < Work(s)
  {
  }

  lemma CallbackWriteWorks(s: State, a: Action)
    requires Enabled(s, a) && (a.CbSetWaiting? || a.CbPost?)
    ensures Work(Do(s, a)) < Work(s)
  {
    hide Work, Enabled;
    if a.CbSetWaiting? { SetWaitingWorks(s, a.k); } else { PostWorks(s, a.k); }
  }

  lemma SetWaitingWorks(s: State, k: Kind)
    requires Enabled(s, CbSetWaiting(k))
    ensures Work(DoCbSetWaiting(s, k)) < Work(s)
  {
    var c := CalledClient(s, k);
    ActiveAt(SideOf(s, c.k).clients, c.n, ClientOf(s, c).(waiting := true));
    hide Active;
  }

  lemma PostWorks(s: State, k: Kind)
    requires Enabled(s, CbPost(k))
    ensures Work(DoCbPost(s, k)) < Work(s)
  {
    var c := CalledClient(s, k);
    ActiveAt(SideOf(s, c.k).clients, c.n, ClientOf(s, c).(status := Completed));
    hide Active;
  }

  lemma GetWorks(s: State, k: Kind)
    requires Enabled(s, SlaveStep(E.Get(k)))
    ensures Work(DoSlaveStep(s, E.Get(k))) < Work(s)
  {
  }

  /** The next place of the slave in its loop. */
  lemma LoopGoesOn(e: E.State, a: E.Action)
    requires I.Control(e) && E.Enabled(e, a) && E.BySlave(a) && !a.Get? && !a.ExitLoop?
    ensures SlaveRank(E.LaneOf(E.Do(e, a), a.k).slave, Entering)
      < SlaveRank(E.LaneOf(e, a.k).slave, if a.CallbackReturns? then Done else Outside)
  {
    if !a.Continue? { F.SlaveJobAlive(e, a); }
    hide I.Control;
  }

  lemma LoopStepFrame(s: State, a: E.Action)
    requires Inv(s) && Enabled(s, SlaveStep(a)) && !a.Get?
    ensures F.SlaveFrame(s.eng, E.Do(s.eng, a), a.k)
  {
    if !a.Continue? { F.SlaveJobAlive(s.eng, a); }
    hide Inv;
    F.SlaveStepsFrame(s.eng, a);
  }

  /** A slave step changes the engine and, on entering or leaving the callback, the place in it. */
  lemma SlaveStepSides(s: State, a: E.Action)
    requires Enabled(s, SlaveStep(a))
    ensures var s' := DoSlaveStep(s, a);
      && s'.eng == E.Do(s.eng, a) && s'.pc == s.pc
      && SideOf(s', a.k).clients == SideOf(s, a.k).clients
      && SideOf(s', F.Other(a.k)) == SideOf(s, F.Other(a.k))
  {
    hide E.Do, E.Enabled;
  }

  lemma RankAtMost(p: E.Slave, cb: Cb)
    ensures SlaveRank(p, cb) <= SlaveRank(p, Entering)
  {
  }

  lemma Bystander(s: State, a: E.Action)
    requires Enabled(s, SlaveStep(a)) && !a.Get? && CbInv(s, a.k)
    ensures SideOf(s, a.k).cb == if a.CallbackReturns? then Done else Outside
  {
  }

  lemma LoopStepHere(s: State, a: E.Action)
    requires Inv(s) && Enabled(s, SlaveStep(a)) && !a.Get?
    ensures SideWork(DoSlaveStep(s, a), a.k) < SideWork(s, a.k)
  {
    assert CbInv(s, a.k) by { assert a.k == E.Idx || a.k == E.Qry; }
    LoopGoesOn(s.eng, a);
    Bystander(s, a);
    LoopStepFrame(s, a);
    SlaveStepSides(s, a);
    hide Inv, E.Do, E.Enabled, CbInv, DoSlaveStep, Enabled, SlaveRank;
    RankAtMost(SlaveOf(DoSlaveStep(s, a), a.k), SideOf(DoSlaveStep(s, a), a.k).cb);
  }

  lemma LoopStepElsewhere(s: State, a: E.Action)
    requires Enabled(s, SlaveStep(a)) && !a.Get? && F.SlaveFrame(s.eng, E.Do(s.eng, a), a.k)
    ensures SideWork(DoSlaveStep(s, a), F.Other(a.k)) == SideWork(s, F.Other(a.k))
    ensures PcRank(DoSlaveStep(s, a).pc, DoSlaveStep(s, a).eng.master) == PcRank(s.pc, s.eng.master)
  {
    SlaveStepSides(s, a);
    hide E.Do, E.Enabled, DoSlaveStep, Enabled, SlaveRank, PcRank;
  }

  lemma WorkFalls(s: State, s': State, k: Kind)
    requires SideWork(s', k) < SideWork(s, k) && SideWork(s', F.Other(k)) == SideWork(s, F.Other(k))
    requires PcRank(s'.pc, s'.eng.master) == PcRank(s.pc, s.eng.master)
    ensures Work(s') < Work(s)
  {
    hide SideWork, PcRank;
    assert k == E.Idx || k == E.Qry;
  }

  lemma LoopStepWorks(s: State, a: E.Action)
    requires Inv(s) && Enabled(s, SlaveStep(a)) && !a.Get?
    ensures Work(DoSlaveStep(s, a)) < Work(s)
  {
    hide Inv, E.Do, E.Enabled, DoSlaveStep, SideWork, PcRank, F.SlaveFrame, Work;
    LoopStepFrame(s, a);
    LoopStepHere(s, a);
    LoopStepElsewhere(s, a);
    WorkFalls(s, DoSlaveStep(s, a), a.k);
  }

  lemma SubmissionWorks(s: State, a: Action)
    requires Enabled(s, a) && (a.TakeMutex? || a.Create? || a.Put?) && PcInv(s)
    ensures Work(Do(s, a)) < Work(s)
  {
  }

  lemma PublishWorks(s: State)
    requires Enabled(s, Publish) && PcInv(s)
    ensures Work(DoPublish(s, s.pc.c, s.pc.j)) < Work(s)
  {
    var c := s.pc.c;
    ActiveAt(SideOf(s, c.k).clients, c.n, ClientOf(DoPublish(s, c, s.pc.j), c));
  }

  lemma RunLWorks(s: State, c: Cid)
    requires Enabled(s, RunL(c))
    ensures Work(DoRunL(s, c)) < Work(s)
  {
    ActiveAt(SideOf(s, c.k).clients, c.n, ClientOf(DoRunL(s, c), c));
    BeginResultsFrame(s.eng, c.k, ClientOf(s, c).job);
    hide Active, E.DoBeginResults;
  }

  /** Results begins: the slaves and the queues are as before. */
  lemma BeginResultsFrame(e: E.State, k: Kind, j: JobId)
    ensures var e' := E.DoBeginResults(e, k, j);
      e'.idx == e.idx && e'.qry == e.qry && MasterRank(e'.master) <= MasterRank(e.master) + 6
  {
  }

  lemma CheckErrorWorks(s: State)
    requires Enabled(s, CheckError)
    ensures Work(DoCheckError(s, s.pc.c)) < Work(s)
  {
  }

  lemma CancelWorks(s: State, a: Action)
    requires Enabled(s, a) && (a.CheckActive? || a.CancelJob?)
    ensures Work(Do(s, a)) < Work(s)
  {
  }

  lemma CancelWriteWorks(s: State, a: Action)
    requires Enabled(s, a) && (a.DoCancel? || a.WaitForRequest?)
    ensures Work(Do(s, a)) < Work(s)
  {
    var c := s.pc.c;
    ActiveAt(SideOf(s, c.k).clients, c.n, ClientOf(Do(s, a), c));
  }

  // ----- the steps inside Results and Cancel -----

  /** The engine steps of Results and Cancel leave queues and slaves alone, apart from taking out a waiting job. */
  predicate QueuesShrink(e: E.State, e': E.State) {
    && e'.idx.slave == e.idx.slave && |e'.idx.waiting| <= |e.idx.waiting|
    && e'.qry.slave == e.qry.slave && |e'.qry.waiting| <= |e.qry.waiting|
  }

  lemma MasterStepShrinks(e: E.State, a: E.Action)
    requires I.Control(e) && E.Enabled(e, a) && IsMasterStep(a)
    ensures QueuesShrink(e, E.Do(e, a)) && MasterRank(E.Do(e, a).master) < MasterRank(e.master)
  {
    if a.TakeWaiting? {
      WithoutIsShorter(e.qry.waiting, e.master.j);
    } else {
      F.MasterJobAlive(e, a);
      F.MasterStepsFrame(e, a);
    }
    hide I.Control;
  }

  lemma MasterStepWorks(s: State, a: E.Action)
    requires Inv(s) && Enabled(s, MasterStep(a))
    ensures Work(AfterEngineStep(s, s.pc.c, E.Do(s.eng, a))) < Work(s)
  {
    MasterStepShrinks(s.eng, a);
    ReturnsFromTheEnd(s, a);
    hide Inv, E.Do, E.Enabled;
    EngineCallWorks(s, E.Do(s.eng, a));
  }

  lemma ReturnsFromTheEnd(s: State, a: E.Action)
    requires Enabled(s, MasterStep(a))
    ensures E.Do(s.eng, a).master.Free? ==> s.eng.master.Destroying? || s.eng.master.CancelDecided?
  {
  }

  lemma EngineCallWorks(s: State, e: E.State)
    requires (s.pc.Collecting? || s.pc.CancelEngine?) && IsClient(s, s.pc.c)
    requires QueuesShrink(s.eng, e) && MasterRank(e.master) < MasterRank(s.eng.master)
    requires e.master.Free? ==> s.eng.master.Destroying? || s.eng.master.CancelDecided?
    ensures Work(AfterEngineStep(s, s.pc.c, e)) < Work(s)
  {
    var c := s.pc.c;
    if e.master.Free? && s.pc.CancelEngine? {
      ActiveAt(SideOf(s, c.k).clients, c.n, ClientOf(s, c).(busy := false));
    }
  }

  lemma CallbackWorks(s: State, a: Action)
    requires Inv(s) && Enabled(s, a) && (a.CbLock? || a.CbCompare? || a.CbSetWaiting? || a.CbTest? || a.CbPost?)
    ensures Work(Do(s, a)) < Work(s)
  {
    if a.CbSetWaiting? || a.CbPost? { CallbackWriteWorks(s, a); } else { CallbackStepWorks(s, a); }
  }

  lemma RequestWorks(s: State, a: Action)
    requires Inv(s) && Enabled(s, a) && (a.TakeMutex? || a.Create? || a.Put? || a.Publish? || a.RunL? || a.CheckError?)
    ensures Work(Do(s, a)) < Work(s)
  {
    assert PcInv(s);
    hide Inv, PcInv, Work, Enabled;
    if a.Publish? { PublishWorks(s); }
    else if a.RunL? { RunLWorks(s, a.c); }
    else if a.CheckError? { CheckErrorWorks(s); }
    else { SubmissionWorks(s, a); }
  }

  lemma CancellationWorks(s: State, a: Action)
    requires Enabled(s, a) && (a.CheckActive? || a.DoCancel? || a.WaitForRequest? || a.CancelJob?)
    ensures Work(Do(s, a)) < Work(s)
  {
    hide Work, Enabled;
    if a.CheckActive? || a.CancelJob? { CancelWorks(s, a); } else { CancelWriteWorks(s, a); }
  }

  lemma SlaveWorks(s: State, a: E.Action)
    requires Inv(s) && Enabled(s, SlaveStep(a))
    ensures Work(DoSlaveStep(s, a)) < Work(s)
  {
    hide Inv, Work;
    if a.Get? { GetWorks(s, a.k); } else { LoopStepWorks(s, a); }
  }

  /** Whatever thread moves, unless it is a new request, there is less left to do. */
  lemma StepWorks(s: State, a: Action)
    requires Inv(s) && Enabled(s, a) && Internal(a)
    ensures Work(Do(s, a)) < Work(s)
  {
    hide Inv, Work, Enabled;
    match a
    case SlaveStep(e) => SlaveWorks(s, e);
    case MasterStep(e) => MasterStepWorks(s, e);
    case CheckActive => CancellationWorks(s, a);
    case DoCancel => CancellationWorks(s, a);
    case WaitForRequest => CancellationWorks(s, a);
    case CancelJob => CancellationWorks(s, a);
    case CbLock(_) => CallbackWorks(s, a);
    case CbCompare(_) => CallbackWorks(s, a);
    case CbSetWaiting(_) => CallbackWorks(s, a);
    case CbTest(_) => CallbackWorks(s, a);
    case CbPost(_) => CallbackWorks(s, a);
    case _ => RequestWorks(s, a);
  }

  // ----- every run drains -----

  /** A stretch of run in which no new request is made. */
  ghost predicate IsStretch(tr: seq<State>, acts: seq<Action>) {
    && |tr| == |acts| + 1
    && (forall i | 0 <= i < |acts| :: Internal(acts[i]) && Enabled(tr[i], acts[i]) && tr[i + 1] == Do(tr[i], acts[i]))
  }

  lemma StepStays(u: Setup, s: State, a: Action)
    requires Inv(s) && Fits(u, s) && Internal(a) && Enabled(s, a)
    ensures Inv(Do(s, a)) && Fits(u, Do(s, a)) && Work(Do(s, a)) < Work(s)
  {
    hide Inv, Do, Enabled, Fits, Work;
    StepKeepsInv(s, a);
    StepFits(u, s, a);
    StepWorks(s, a);
  }

  lemma {:induction false} StretchesAreShort(u: Setup, tr: seq<State>, acts: seq<Action>, i: nat)
    requires IsStretch(tr, acts) && Inv(tr[0]) && Fits(u, tr[0]) && i < |tr|
    ensures Inv(tr[i]) && Fits(u, tr[i]) && i + Work(tr[i]) <= Work(tr[0])
  {
    hide Inv, Do, Enabled, Fits, Work;
    if i > 0 {
      StretchesAreShort(u, tr, acts, i - 1);
      StepStays(u, tr[i - 1], acts[i - 1]);
    }
  }

  /** Every request made so far has been answered: its observer was notified, or silenced by CancelAll. */
  ghost predicate AllAnswered(s: State) {
    forall c: Cid | IsClient(s, c) ::
      && ClientOf(s, c).starts == ClientOf(s, c).notified + ClientOf(s, c).silenced
      && (s.cancels == 0 ==> ClientOf(s, c).silenced == 0)
  }

  lemma QuietIsAnswered(s: State)
    requires Inv(s) && Quiet(s)
    ensures AllAnswered(s)
  {
    forall c: Cid | IsClient(s, c)
      ensures ClientOf(s, c).starts == ClientOf(s, c).notified + ClientOf(s, c).silenced
      ensures s.cancels == 0 ==> ClientOf(s, c).silenced == 0
    {
      assert ClientOf(s, c) in s.idx.clients + s.qry.clients;
      assert ClientInv(s, c);
    }
  }

  /**
   Without new requests the bridge makes at most Work steps, in whatever interleaving; and when
   nobody can move any more, either every request has been answered or the master is jammed.
  */
  lemma EveryRunDrains(u: Setup, tr: seq<State>, acts: seq<Action>)
    requires IsStretch(tr, acts) && Inv(tr[0]) && Fits(u, tr[0]) && u.idxCapacity > 0 && u.qryCapacity > 0
    ensures |acts| <= Work(tr[0])
    ensures var s := tr[|acts|];
      !CanMove(s) ==> (Quiet(s) && AllAnswered(s)) || (s.pc.Putting? && Jammed(s, s.pc.c.k))
  {
    StretchesAreShort(u, tr, acts, |acts|);
    SomeoneMoves(u, tr[|acts|]);
    if Quiet(tr[|acts|]) { QuietIsAnswered(tr[|acts|]); }
  }
}
