/**
 The steps of the bridge that are engine steps keep the invariant, and obey the client rules. What
 the bridge needs to know of the engine is a view of it: the jobs issued, claimed and alive, the
 callbacks made, and the callback each slave is in. Steps of a slave that change nothing in this
 view are dealt with together; for each of the others the parts of the invariant are shown one at a
 time, for the client objects, the links, the callbacks and the master.
*/
module BridgeEngineSteps {
  import opened Options
  import E = AsyncEngine
  import I = AsyncInvariant
  import Safety = AsyncSafety
  import F = AsyncFrames
  import opened AsyncBridge
  import opened BridgeInvariant
  import opened BridgeSteps

  // ----- engine steps the bridge does not notice -----

  ghost predicate SameCalls(e: E.State, e': E.State, k: Kind) {
    || E.LaneOf(e', k).slave == E.LaneOf(e, k).slave
    || (!E.LaneOf(e, k).slave.Calling? && !E.LaneOf(e', k).slave.Calling?)
  }

  /** The bridge sees no difference between the engine states, apart from where the engine's master stands. */
  ghost predicate SameView(e: E.State, e': E.State) {
    && e'.issued == e.issued && e'.claimed == e.claimed && e'.calls == e.calls
    && (forall i | i in e'.jobs :: i in e.jobs && e'.jobs[i].kind == e.jobs[i].kind)
    && SameCalls(e, e', E.Idx) && SameCalls(e, e', E.Qry)
  }

  lemma ViewClients(s: State, e': E.State)
    requires Inv(s) && SameView(s.eng, e')
    ensures forall c: Cid | IsClient(s, c) :: ClientInv(s.(eng := e'), c)
  {
    forall c: Cid | IsClient(s, c) ensures ClientInv(s.(eng := e'), c) {
      assert ClientInv(s, c);
      if c.k.Idx? {} else {}
      ClientElsewhere(s, s.(eng := e'), c);
    }
  }

  lemma ViewLinks(s: State, e': E.State)
    requires Inv(s) && SameView(s.eng, e')
    ensures forall j: JobId :: JobLink(s.(eng := e'), j)
  {
    forall j: JobId ensures JobLink(s.(eng := e'), j) { assert JobLink(s, j); }
  }

  lemma ViewCb(s: State, e': E.State, k: Kind)
    requires CbInv(s, k) && SameCalls(s.eng, e', k)
    ensures CbInv(s.(eng := e'), k)
  {
  }

  /** A slave step outside the callback. */
  lemma QuietStepKeeps(s: State, e': E.State)
    requires Inv(s) && I.Inv(e') && SameView(s.eng, e')
    requires e'.master == s.eng.master && e'.res.slots == s.eng.res.slots
    ensures Inv(s.(eng := e'))
  {
    ViewClients(s, e');
    ViewLinks(s, e');
    ViewCb(s, e', E.Idx);
    ViewCb(s, e', E.Qry);
    PcElsewhere(s, s.(eng := e'));
  }

  lemma GetView(e: E.State, k: Kind)
    requires E.LaneOf(e, k).waiting != [] && E.LaneOf(e, k).slave.Idle?
    ensures SameView(e, E.DoGet(e, k))
    ensures E.DoGet(e, k).master == e.master && E.DoGet(e, k).res.slots == e.res.slots
  {
  }

  lemma QuietSlaveStepKeeps(s: State, a: E.Action)
    requires Inv(s) && Enabled(s, SlaveStep(a))
    requires a.DoJob? || a.Lock? || a.Unlock? || a.Continue? || a.CompleteOwn? || a.DeleteOwn?
    ensures Inv(DoSlaveStep(s, a))
  {
    Safety.StepKeepsInv(s.eng, a);
    if !a.Continue? { F.SlaveJobAlive(s.eng, a); }
    F.SlaveStepsFrame(s.eng, a);
    QuietView(s.eng, a);
    QuietStepKeeps(s, E.Do(s.eng, a));
  }

  lemma QuietView(e: E.State, a: E.Action)
    requires E.Enabled(e, a)
    requires a.DoJob? || a.Lock? || a.Unlock? || a.Continue? || a.CompleteOwn? || a.DeleteOwn?
    requires a.Continue? || E.LaneOf(e, a.k).slave.j in e.jobs
    ensures SameView(e, E.Do(e, a))
    ensures E.Do(e, a).master == e.master && E.Do(e, a).res.slots == e.res.slots
  {
    F.SlaveStepsFrame(e, a);
  }

  lemma GetKeeps(s: State, k: Kind)
    requires Inv(s) && Enabled(s, SlaveStep(E.Get(k)))
    ensures Inv(DoSlaveStep(s, E.Get(k)))
  {
    Safety.StepKeepsInv(s.eng, E.Get(k));
    GetView(s.eng, k);
    QuietStepKeeps(s, E.DoGet(s.eng, k));
  }

  // ----- the slave enters and leaves the callback -----

  lemma DeclineKeeps(s: State, k: Kind, j: JobId)
    requires Inv(s) && SlaveOf(s, k) == E.Deciding(j) && j in s.eng.jobs && s.eng.jobs[j].cancelled
    ensures Inv(DoSlaveStep(s, E.Decide(k)))
  {
    Safety.StepKeepsInv(s.eng, E.Decide(k));
    QuietStepKeeps(s, E.WithSlave(s.eng, k, E.Leaving(j, true)));
  }

  function Called(s: State, k: Kind, j: JobId): State {
    WithCb(s.(eng := E.WithSlave(s.eng, k, E.Calling(j)).(calls := s.eng.calls + [j])), k, Entering)
  }

  /** What the callback of j finds: an uncancelled job is still awaited by the client object of its cookie. */
  lemma UncancelledIsLinked(s: State, k: Kind, j: JobId)
    requires Inv(s) && SlaveOf(s, k) == E.Deciding(j) && j in s.eng.jobs && !s.eng.jobs[j].cancelled
    ensures j in s.cookie && s.cookie[j].k == k && IsClient(s, s.cookie[j]) && Linked(s, s.cookie[j], j)
    ensures j !in s.eng.calls
  {
    assert I.JobInv(s.eng, j);
    assert JobLink(s, j);
  }

  lemma CalledSees(s: State, k: Kind, j: JobId, d: Kind, i: JobId)
    requires CbInv(s, k) && SlaveOf(s, k) == E.Deciding(j) && j !in s.eng.calls && (i == j ==> d == k)
    ensures CallDone(Called(s, k, j), d, i) == CallDone(s, d, i)
  {
  }

  lemma CalledClients(s: State, k: Kind, j: JobId)
    requires Inv(s) && SlaveOf(s, k) == E.Deciding(j) && j in s.eng.jobs && !s.eng.jobs[j].cancelled
    ensures forall c: Cid | IsClient(Called(s, k, j), c) :: ClientInv(Called(s, k, j), c)
  {
    UncancelledIsLinked(s, k, j);
    forall c: Cid | IsClient(s, c) ensures ClientInv(Called(s, k, j), c) {
      assert ClientInv(s, c);
      if ClientOf(s, c).busy { CalledSees(s, k, j, c.k, ClientOf(s, c).job); }
      ClientElsewhere(s, Called(s, k, j), c);
    }
  }

  lemma CalledLinks(s: State, k: Kind, j: JobId)
    requires forall i: JobId :: JobLink(s, i)
    ensures forall i: JobId :: JobLink(Called(s, k, j), i)
  {
    forall i: JobId ensures JobLink(Called(s, k, j), i) { assert JobLink(s, i); }
  }

  lemma CalledMaster(s: State, k: Kind, j: JobId)
    requires Inv(s) && SlaveOf(s, k) == E.Deciding(j) && j in s.eng.jobs && !s.eng.jobs[j].cancelled
    ensures PcInv(Called(s, k, j))
  {
    UncancelledIsLinked(s, k, j);
    if s.pc.Publishing? { CalledSees(s, k, j, s.pc.c.k, s.pc.j); }
    PcElsewhere(s, Called(s, k, j));
  }

  lemma CallKeeps(s: State, k: Kind, j: JobId)
    requires Inv(s) && SlaveOf(s, k) == E.Deciding(j) && j in s.eng.jobs && !s.eng.jobs[j].cancelled
    ensures Inv(DoSlaveStep(s, E.Decide(k)))
  {
    Safety.StepKeepsInv(s.eng, E.Decide(k));
    CalledClients(s, k, j);
    CalledLinks(s, k, j);
    CalledMaster(s, k, j);
    UncancelledIsLinked(s, k, j);
    CbElsewhere(s, Called(s, k, j), Other(k));
    assert CbInv(s, k);
    assert CbInv(Called(s, k, j), k);
    assert k == E.Idx || k == E.Qry;
  }

  lemma DecideKeeps(s: State, k: Kind)
    requires Inv(s) && Enabled(s, SlaveStep(E.Decide(k)))
    ensures Inv(DoSlaveStep(s, E.Decide(k)))
  {
    var j := SlaveOf(s, k).j;
    assert I.JobInv(s.eng, j);
    if s.eng.jobs[j].cancelled { DeclineKeeps(s, k, j); } else { CallKeeps(s, k, j); }
  }

  function Returned(s: State, k: Kind, j: JobId): State {
    WithCb(s.(eng := E.DoCallbackReturns(s.eng, k, j)), k, Outside)
  }

  lemma ReturnedSees(s: State, k: Kind, j: JobId, d: Kind, i: JobId)
    requires SlaveOf(s, k) == E.Calling(j) && SideOf(s, k).cb.Done? && j in s.eng.jobs
    ensures CallDone(Returned(s, k, j), d, i) == CallDone(s, d, i)
  {
  }

  lemma ReturnedClients(s: State, k: Kind, j: JobId)
    requires Inv(s) && SlaveOf(s, k) == E.Calling(j) && SideOf(s, k).cb.Done? && j in s.eng.jobs
    ensures forall c: Cid | IsClient(Returned(s, k, j), c) :: ClientInv(Returned(s, k, j), c)
  {
    forall c: Cid | IsClient(s, c) ensures ClientInv(Returned(s, k, j), c) {
      ReturnedSees(s, k, j, c.k, ClientOf(s, c).job);
      ClientElsewhere(s, Returned(s, k, j), c);
    }
  }

  lemma ReturnedLinks(s: State, k: Kind, j: JobId)
    requires (forall i: JobId :: JobLink(s, i)) && j in s.eng.jobs
    ensures forall i: JobId :: JobLink(Returned(s, k, j), i)
  {
    forall i: JobId ensures JobLink(Returned(s, k, j), i) { assert JobLink(s, i) && JobLink(s, j); }
  }

  lemma ReturnedMaster(s: State, k: Kind, j: JobId)
    requires Inv(s) && SlaveOf(s, k) == E.Calling(j) && SideOf(s, k).cb.Done? && j in s.eng.jobs
    ensures PcInv(Returned(s, k, j))
  {
    if s.pc.Publishing? { ReturnedSees(s, k, j, s.pc.c.k, s.pc.j); }
    PcElsewhere(s, Returned(s, k, j));
  }

  lemma ReturnedCb(s: State, k: Kind, j: JobId)
    requires CbInv(s, E.Idx) && CbInv(s, E.Qry)
    requires SlaveOf(s, k) == E.Calling(j) && SideOf(s, k).cb.Done? && j in s.eng.jobs
    ensures CbInv(Returned(s, k, j), E.Idx) && CbInv(Returned(s, k, j), E.Qry)
  {
    CbElsewhere(s, Returned(s, k, j), Other(k));
    assert CbInv(Returned(s, k, j), k);
    assert k == E.Idx || k == E.Qry;
  }

  lemma CallbackReturnsKeeps(s: State, k: Kind)
    requires Inv(s) && Enabled(s, SlaveStep(E.CallbackReturns(k)))
    ensures Inv(DoSlaveStep(s, E.CallbackReturns(k)))
  {
    var j := SlaveOf(s, k).j;
    assert I.JobInv(s.eng, j);
    Safety.StepKeepsInv(s.eng, E.CallbackReturns(k));
    ReturnedClients(s, k, j);
    ReturnedLinks(s, k, j);
    ReturnedMaster(s, k, j);
    ReturnedCb(s, k, j);
  }

  // ----- submitting -----

  lemma CreateEngine(s: State, h: Option<E.Handle>)
    requires Inv(s) && Enabled(s, Create(h))
    ensures I.Inv(DoCreate(s, s.pc.c, h).eng)
    ensures s.eng.nextId !in s.eng.issued && s.eng.nextId !in s.eng.jobs
    ensures SlaveOf(s, s.pc.c.k).Calling? ==> SlaveOf(s, s.pc.c.k).j != s.eng.nextId
  {
    Safety.StepKeepsInv(s.eng, E.Construct(s.pc.c.k, h));
    assert I.JobInv(s.eng, s.eng.nextId);
  }

  lemma CreateClients(s: State, h: Option<E.Handle>)
    requires Inv(s) && Enabled(s, Create(h))
    ensures forall d: Cid | IsClient(DoCreate(s, s.pc.c, h), d) :: ClientInv(DoCreate(s, s.pc.c, h), d)
  {
    CreateEngine(s, h);
    forall d: Cid | IsClient(s, d) ensures ClientInv(DoCreate(s, s.pc.c, h), d) {
      assert ClientInv(s, d);
      ClientElsewhere(s, DoCreate(s, s.pc.c, h), d);
    }
  }

  lemma CreateLinks(s: State, h: Option<E.Handle>)
    requires Inv(s) && Enabled(s, Create(h))
    ensures forall i: JobId :: JobLink(DoCreate(s, s.pc.c, h), i)
  {
    CreateEngine(s, h);
    forall i: JobId ensures JobLink(DoCreate(s, s.pc.c, h), i) { assert JobLink(s, i); }
  }

  lemma CreateCb(s: State, h: Option<E.Handle>, k: Kind)
    requires Inv(s) && Enabled(s, Create(h))
    ensures CbInv(DoCreate(s, s.pc.c, h), k)
  {
    assert I.JobInv(s.eng, s.eng.nextId);
    assert k == E.Idx || k == E.Qry;
    CbElsewhere(s, DoCreate(s, s.pc.c, h), k);
  }

  lemma CreateKeeps(s: State, h: Option<E.Handle>)
    requires Inv(s) && Enabled(s, Create(h))
    ensures Inv(DoCreate(s, s.pc.c, h))
  {
    CreateEngine(s, h);
    CreateClients(s, h);
    CreateLinks(s, h);
    CreateCb(s, h, E.Idx);
    CreateCb(s, h, E.Qry);
  }

  lemma PutClients(s: State, j: JobId)
    requires Inv(s) && Enabled(s, Put) && j == s.eng.master.j
    ensures forall d: Cid | IsClient(DoPut(s, s.pc.c, j), d) :: ClientInv(DoPut(s, s.pc.c, j), d)
  {
    forall d: Cid | IsClient(s, d) ensures ClientInv(DoPut(s, s.pc.c, j), d) {
      ClientElsewhere(s, DoPut(s, s.pc.c, j), d);
    }
  }

  lemma PutLinks(s: State, j: JobId)
    requires Inv(s) && Enabled(s, Put) && j == s.eng.master.j
    ensures forall i: JobId :: JobLink(DoPut(s, s.pc.c, j), i)
  {
    assert I.JobInv(s.eng, j);
    forall i: JobId ensures JobLink(DoPut(s, s.pc.c, j), i) { assert JobLink(s, i); }
  }

  lemma PutKeeps(s: State)
    requires Inv(s) && Enabled(s, Put)
    ensures Inv(DoPut(s, s.pc.c, s.eng.master.j))
  {
    var j := s.eng.master.j;
    Safety.StepKeepsInv(s.eng, E.Put);
    assert I.JobInv(s.eng, j);
    PutClients(s, j);
    PutLinks(s, j);
    CbElsewhere(s, DoPut(s, s.pc.c, j), E.Idx);
    CbElsewhere(s, DoPut(s, s.pc.c, j), E.Qry);
  }

  // ----- collecting -----

  /** A request that RunL finds completed: its job has called back and nobody has claimed it. */
  lemma RunLFinds(s: State, c: Cid)
    requires Inv(s) && Enabled(s, RunL(c))
    ensures ClientOf(s, c).status.Completed? && ClientOf(s, c).observer && ClientOf(s, c).busy
    ensures E.Obeys(s.eng, E.BeginResults(c.k, ClientOf(s, c).job))
    ensures ClientOf(s, c).job in E.LaneOf(s.eng, c.k).started && CallDone(s, c.k, ClientOf(s, c).job)
    ensures ClientOf(s, c).job in s.cookie && s.cookie[ClientOf(s, c).job] == c
  {
    var j := ClientOf(s, c).job;
    assert ClientInv(s, c);
    assert JobLink(s, j);
    assert I.JobInv(s.eng, j);
  }

  lemma RunLClients(s: State, c: Cid)
    requires Inv(s) && Enabled(s, RunL(c))
    ensures forall d: Cid | IsClient(DoRunL(s, c), d) :: ClientInv(DoRunL(s, c), d)
  {
    RunLFinds(s, c);
    assert ClientInv(s, c);
    forall d: Cid | IsClient(DoRunL(s, c), d) && d != c ensures SameClient(s, DoRunL(s, c), d) {
      assert ClientInv(s, d);
    }
    ClientsKept(s, DoRunL(s, c), c);
  }

  lemma RunLLinks(s: State, c: Cid)
    requires Inv(s) && Enabled(s, RunL(c))
    ensures forall i: JobId :: JobLink(DoRunL(s, c), i)
  {
    RunLFinds(s, c);
    forall i: JobId ensures JobLink(DoRunL(s, c), i) { assert JobLink(s, i); }
  }

  lemma RunLCb(s: State, c: Cid, k: Kind)
    requires Inv(s) && Enabled(s, RunL(c))
    ensures CbInv(DoRunL(s, c), k)
  {
    RunLFinds(s, c);
    assert k == E.Idx || k == E.Qry;
    CbElsewhere(s, DoRunL(s, c), k);
  }

  lemma RunLKeeps(s: State, c: Cid)
    requires Inv(s) && Enabled(s, RunL(c))
    ensures Inv(DoRunL(s, c))
  {
    RunLFinds(s, c);
    Safety.StepKeepsInv(s.eng, E.BeginResults(c.k, ClientOf(s, c).job));
    RunLClients(s, c);
    RunLLinks(s, c);
    RunLCb(s, c, E.Idx);
    RunLCb(s, c, E.Qry);
  }

  lemma CheckErrorKeeps(s: State)
    requires Inv(s) && Enabled(s, CheckError)
    ensures Inv(DoCheckError(s, s.pc.c))
  {
    var s' := DoCheckError(s, s.pc.c);
    if WrapperOf(s.pc.c) in s.eng.res.slots { Safety.StepKeepsInv(s.eng, E.ClearError(WrapperOf(s.pc.c))); }
    ViewClients(s, s'.eng);
    ViewLinks(s, s'.eng);
    AtRestAgain(s, s'.eng);
  }

  /** Coming to rest after the results are collected. */
  lemma AtRestAgain(s: State, e: E.State)
    requires Inv(s) && s.pc.Clearing? && I.Inv(e) && SameView(s.eng, e)
    requires e.master.Free? && e.res.slots == map[]
    ensures Inv(s.(eng := e, pc := AtRest))
  {
    ViewClients(s, e);
    ViewLinks(s, e);
    ViewCb(s, e, E.Idx);
    ViewCb(s, e, E.Qry);
    forall c: Cid | IsClient(s, c) ensures ClientInv(s.(eng := e, pc := AtRest), c) {
      ClientElsewhere(s.(eng := e), s.(eng := e, pc := AtRest), c);
    }
    forall j: JobId ensures JobLink(s.(eng := e, pc := AtRest), j) { assert JobLink(s.(eng := e), j); }
  }

  // ----- cancelling -----

  lemma CancelJobObeys(s: State)
    requires Inv(s) && Enabled(s, CancelJob)
    ensures E.Obeys(s.eng, E.BeginCancel(ClientOf(s, s.pc.c).job))
    ensures var j := ClientOf(s, s.pc.c).job; j in s.eng.qry.waiting || j in s.eng.qry.started
    ensures var j := ClientOf(s, s.pc.c).job; j in s.cookie && s.cookie[j] == s.pc.c
  {
    assert ClientInv(s, s.pc.c);
    assert JobLink(s, ClientOf(s, s.pc.c).job);
    assert I.JobInv(s.eng, ClientOf(s, s.pc.c).job);
  }

  lemma CancelJobClients(s: State)
    requires Inv(s) && Enabled(s, CancelJob)
    ensures forall d: Cid | IsClient(s, d) :: ClientInv(DoCancelJob(s, s.pc.c), d)
  {
    CancelJobObeys(s);
    assert ClientInv(s, s.pc.c);
    forall d: Cid | IsClient(s, d) && d != s.pc.c ensures SameClient(s, DoCancelJob(s, s.pc.c), d) {
      assert ClientInv(s, d);
    }
    ClientsKept(s, DoCancelJob(s, s.pc.c), s.pc.c);
  }

  lemma CancelJobLinks(s: State)
    requires Inv(s) && Enabled(s, CancelJob)
    ensures forall i: JobId :: JobLink(DoCancelJob(s, s.pc.c), i)
  {
    CancelJobObeys(s);
    forall i: JobId ensures JobLink(DoCancelJob(s, s.pc.c), i) { assert JobLink(s, i); }
  }

  lemma CancelJobCb(s: State)
    requires Inv(s) && Enabled(s, CancelJob)
    ensures CbInv(DoCancelJob(s, s.pc.c), E.Idx) && CbInv(DoCancelJob(s, s.pc.c), E.Qry)
  {
    CbElsewhere(s, DoCancelJob(s, s.pc.c), E.Idx);
    CbElsewhere(s, DoCancelJob(s, s.pc.c), E.Qry);
  }

  lemma CancelJobEngine(s: State)
    requires Inv(s) && Enabled(s, CancelJob)
    ensures I.Inv(DoCancelJob(s, s.pc.c).eng) && PcInv(DoCancelJob(s, s.pc.c))
  {
    CancelJobObeys(s);
    Safety.StepKeepsInv(s.eng, E.BeginCancel(ClientOf(s, s.pc.c).job));
  }

  lemma CancelJobKeeps(s: State)
    requires Inv(s) && Enabled(s, CancelJob)
    ensures Inv(DoCancelJob(s, s.pc.c))
  {
    CancelJobEngine(s);
    CancelJobClients(s);
    CancelJobLinks(s);
    CancelJobCb(s);
  }

  // ----- the steps inside Results and Cancel -----

  /** The engine call goes on. */
  lemma CallGoesOn(s: State, e: E.State)
    requires Inv(s) && I.Inv(e) && SameView(s.eng, e)
    requires PcInv(s.(eng := e))
    ensures Inv(s.(eng := e))
  {
    ViewClients(s, e);
    ViewLinks(s, e);
    ViewCb(s, e, E.Idx);
    ViewCb(s, e, E.Qry);
  }

  /** Results has returned. */
  lemma ResultsReturn(s: State, e: E.State)
    requires Inv(s) && I.Inv(e) && SameView(s.eng, e) && s.pc.Collecting?
    requires e.master.Free? && e.res.slots == s.eng.res.slots
    ensures Inv(s.(eng := e, pc := Clearing(s.pc.c)))
  {
    ResultsReturnClients(s, e);
    ViewCb(s, e, E.Idx);
    ViewCb(s, e, E.Qry);
  }

  lemma ResultsReturnClients(s: State, e: E.State)
    requires Inv(s) && SameView(s.eng, e) && s.pc.Collecting?
    ensures var s' := s.(eng := e, pc := Clearing(s.pc.c));
      (forall c: Cid | IsClient(s', c) :: ClientInv(s', c)) && (forall j: JobId :: JobLink(s', j))
  {
    var s' := s.(eng := e, pc := Clearing(s.pc.c));
    ViewClients(s, e);
    ViewLinks(s, e);
    forall c: Cid | IsClient(s, c) ensures ClientInv(s', c) { ClientElsewhere(s.(eng := e), s', c); }
    forall j: JobId ensures JobLink(s', j) { assert JobLink(s.(eng := e), j); }
  }

  function CancelReturned(s: State, e: E.State, c: Cid): State
    requires IsClient(s, c)
  {
    WithClient(s, c, ClientOf(s, c).(busy := false)).(eng := e, pc := AtRest)
  }

  /** The slave is not inside the callback of the job. */
  ghost predicate NotCalling(s: State, j: JobId) {
    SlaveOf(s, E.Qry) != E.Calling(j) && SlaveOf(s, E.Idx) != E.Calling(j)
  }

  lemma CancelReturnClients(s: State, e: E.State, c: Cid)
    requires Inv(s) && SameView(s.eng, e) && s.pc == CancelEngine(c)
    ensures forall d: Cid | IsClient(CancelReturned(s, e, c), d) :: ClientInv(CancelReturned(s, e, c), d)
  {
    ViewClients(s, e);
    ClientsKept(s.(eng := e), CancelReturned(s, e, c), c);
  }

  lemma CancelReturnLinks(s: State, e: E.State, c: Cid)
    requires Inv(s) && SameView(s.eng, e) && s.pc == CancelEngine(c) && s.eng.master.j in s.eng.claimed
    ensures forall i: JobId :: JobLink(CancelReturned(s, e, c), i)
  {
    ViewLinks(s, e);
    forall i: JobId ensures JobLink(CancelReturned(s, e, c), i) { assert JobLink(s.(eng := e), i); }
  }

  lemma CancelReturnCb(s: State, e: E.State, c: Cid, k: Kind)
    requires Inv(s) && SameView(s.eng, e) && s.pc == CancelEngine(c) && NotCalling(s, s.eng.master.j)
    ensures CbInv(CancelReturned(s, e, c), k)
  {
    assert k == E.Idx || k == E.Qry;
    ViewCb(s, e, k);
    CbElsewhere(s.(eng := e), CancelReturned(s, e, c), k);
  }

  lemma CancelReturns(s: State, e: E.State, c: Cid)
    requires Inv(s) && I.Inv(e) && SameView(s.eng, e) && s.pc == CancelEngine(c)
    requires e.master.Free? && e.res.slots == map[]
    requires NotCalling(s, s.eng.master.j) && s.eng.master.j in s.eng.claimed
    ensures Inv(CancelReturned(s, e, c))
  {
    CancelReturnClients(s, e, c);
    CancelReturnLinks(s, e, c);
    CancelReturnCb(s, e, c, E.Idx);
    CancelReturnCb(s, e, c, E.Qry);
  }
}
