/**
 The Symbian side of the job engine: CCPixSearch and CCPixIdxDb objects with their
 CCPixAsyncronizer, driving the engine from the master thread, and the completion callback that
 a slave thread runs under the mutex of its job. The state of the engine is embedded, so every
 run of the bridge is at the same time a sequence of engine steps.
*/
module AsyncBridge {
  import opened Options
  import E = AsyncEngine

  type JobId = E.JobId
  type Kind = E.Kind

  /** A client object: the n-th CCPixIdxDb (Idx) or the n-th CCPixSearch (Qry). */
  datatype Cid = Cid(k: Kind, n: nat)

  /** iStatus of the active object. */
  datatype Status = Pending | Completed | Cancelled

  datatype Client = Client(
    busy: bool,        // iPendingTask != EPendingTaskNone, or iIsPending
    job: JobId,        // iPendingJobId
    active: bool,      // the asyncronizer is active
    status: Status,    // iStatus
    waiting: bool,     // iWaitingForCompletion
    observer: bool,    // iObserver != NULL
    starts: nat,       // calls of Start so far
    notified: nat,     // calls of HandleAsyncronizerComplete so far
    silenced: nat)     // requests cancelled without notifying their observer

  /** hitMutex_ (Qry) or idxMutex_ (Idx): shared by all client objects of that kind. */
  datatype Holder = Nobody | ByMaster | BySlave

  /** Where the slave stands inside the completion callback. */
  datatype Cb =
    | Outside
    | Entering   // about to lock the static mutex
    | Inside     // holds it, about to compare the job ids
    | Matched    // about to set iWaitingForCompletion
    | Testing    // about to read iStatus
    | Posting    // iStatus was pending: about to complete it
    | Done

  datatype Side = Side(clients: seq<Client>, mutex: Holder, cb: Cb)

  /** Where the master thread stands. */
  datatype Pc =
    | AtRest                     // in the active scheduler
    | Submitting(c: Cid)         // request checked, about to lock the static mutex
    | Creating(c: Cid)           // holds it, about to create the job
    | Putting(c: Cid)            // job created, about to put it
    | Publishing(c: Cid, j: JobId)  // job put, about to store the id and call Start
    | Collecting(c: Cid)         // in the Results call of a ...CompleteL function
    | Clearing(c: Cid)           // Results returned, about to check and clear the error
    | CancelStart(c: Cid)        // CancelAll: about to call iAsyncronizer->Cancel()
    | CancelDoing(c: Cid)        // DoCancel: iWaitingForCompletion was not set
    | CancelWaiting(c: Cid)      // WaitForRequest
    | CancelReady(c: Cid)        // about to cancel the job
    | CancelEngine(c: Cid)       // in the Cancel call of the engine

  datatype State = State(eng: E.State, idx: Side, qry: Side, cookie: map<JobId, Cid>, pc: Pc, cancels: nat)

  datatype Action =
    | Submit(c: Cid)
    | TakeMutex
    | Create(h: Option<E.Handle>)
    | Put
    | Publish
    | RunL(c: Cid)
    | MasterStep(a: E.Action)    // the next engine step of the running Results or Cancel call
    | CheckError
    | CancelAll(c: Cid)
    | CheckActive
    | DoCancel
    | WaitForRequest
    | CancelJob
    | SlaveStep(sa: E.Action)    // the next engine step of a slave
    | CbLock(k: Kind)
    | CbCompare(k: Kind)
    | CbSetWaiting(k: Kind)
    | CbTest(k: Kind)
    | CbPost(k: Kind)

  // ----- access -----

  function SideOf(s: State, k: Kind): Side { if k.Idx? then s.idx else s.qry }

  function WithSide(s: State, k: Kind, d: Side): State { if k.Idx? then s.(idx := d) else s.(qry := d) }

  predicate IsClient(s: State, c: Cid) { c.n < |SideOf(s, c.k).clients| }

  function ClientOf(s: State, c: Cid): Client
    requires IsClient(s, c)
  {
    SideOf(s, c.k).clients[c.n]
  }

  function WithClient(s: State, c: Cid, x: Client): State
    requires IsClient(s, c)
  {
    WithSide(s, c.k, SideOf(s, c.k).(clients := SideOf(s, c.k).clients[c.n := x]))
  }

  function WithMutex(s: State, k: Kind, h: Holder): State { WithSide(s, k, SideOf(s, k).(mutex := h)) }

  function WithCb(s: State, k: Kind, cb: Cb): State { WithSide(s, k, SideOf(s, k).(cb := cb)) }

  /** The job whose callback the slave of lane k is running. */
  function CalledJob(s: State, k: Kind): JobId
    requires E.LaneOf(s.eng, k).slave.Calling?
  {
    E.LaneOf(s.eng, k).slave.j
  }

  /** The client object that the callback receives as its cookie. */
  predicate HasCookie(s: State, k: Kind) {
    && E.LaneOf(s.eng, k).slave.Calling?
    && CalledJob(s, k) in s.cookie
    && s.cookie[CalledJob(s, k)].k == k
    && IsClient(s, s.cookie[CalledJob(s, k)])
  }

  function CalledClient(s: State, k: Kind): Cid
    requires HasCookie(s, k)
  {
    s.cookie[CalledJob(s, k)]
  }

  /** The error slot (err_) of the cpix handle that client c owns. */
  function WrapperOf(c: Cid): E.Wrapper { 2 * c.n + (if c.k.Idx? then 0 else 1) }

  const NEW_CLIENT := Client(false, 0, false, Completed, false, false, 0, 0, 0)

  function NewSide(n: nat): Side { Side(seq(n, _ => NEW_CLIENT), Nobody, Outside) }

  function Init(idxCapacity: nat, qryCapacity: nat, idxClients: nat, qryClients: nat): State {
    State(E.Init(idxCapacity, qryCapacity), NewSide(idxClients), NewSide(qryClients), map[], AtRest, 0)
  }

  // ----- steps -----

  predicate IsMasterStep(a: E.Action) {
    a.TakeWaiting? || a.LockAndCancel? || a.CompleteCancelled? || a.ReleaseCancelled?
    || a.LockAndUnlock? || a.TakeResults? || a.CompleteCollected? || a.Destroy?
  }

  predicate Enabled(s: State, a: Action) {
    match a
    case Submit(c) => s.pc.AtRest? && IsClient(s, c) && !ClientOf(s, c).busy
    case TakeMutex => s.pc.Submitting? && SideOf(s, s.pc.c.k).mutex.Nobody?
    case Create(_) => s.pc.Creating? && E.Enabled(s.eng, E.Construct(s.pc.c.k, a.h))
    case Put => s.pc.Putting? && E.Enabled(s.eng, E.Put)
    case Publish => s.pc.Publishing? && IsClient(s, s.pc.c)
    case RunL(c) => s.pc.AtRest? && IsClient(s, c) && ClientOf(s, c).active && !ClientOf(s, c).status.Pending?
      && s.eng.master.Free?
    case MasterStep(e) =>
      && (s.pc.Collecting? || s.pc.CancelEngine?) && IsClient(s, s.pc.c) && IsMasterStep(e) && E.Enabled(s.eng, e)
      && (e.TakeResults? ==> e.w == WrapperOf(s.pc.c))
    case CheckError => s.pc.Clearing?
    case CancelAll(c) => s.pc.AtRest? && c.k.Qry? && IsClient(s, c) && ClientOf(s, c).busy
    case CheckActive => s.pc.CancelStart? && IsClient(s, s.pc.c)
    case DoCancel => s.pc.CancelDoing? && IsClient(s, s.pc.c)
    case WaitForRequest => s.pc.CancelWaiting? && IsClient(s, s.pc.c) && !ClientOf(s, s.pc.c).status.Pending?
    case CancelJob => s.pc.CancelReady? && IsClient(s, s.pc.c) && s.eng.master.Free?
    case SlaveStep(e) =>
      && E.BySlave(e) && !e.ExitLoop? && E.Enabled(s.eng, e)
      && (e.CallbackReturns? ==> SideOf(s, e.k).cb.Done?)
    case CbLock(k) => SideOf(s, k).cb.Entering? && SideOf(s, k).mutex.Nobody?
    case CbCompare(k) => SideOf(s, k).cb.Inside? && HasCookie(s, k)
    case CbSetWaiting(k) => SideOf(s, k).cb.Matched? && HasCookie(s, k)
    case CbTest(k) => SideOf(s, k).cb.Testing? && HasCookie(s, k)
    case CbPost(k) => SideOf(s, k).cb.Posting? && HasCookie(s, k)
  }

  /** SearchL and its like, under the static mutex: create the job. */
  function DoCreate(s: State, c: Cid, h: Option<E.Handle>): State {
    s.(eng := E.DoConstruct(s.eng, c.k, h), cookie := s.cookie[s.eng.nextId := c], pc := Putting(c))
  }

  function DoPut(s: State, c: Cid, j: JobId): State {
    s.(eng := E.DoPut(s.eng, c.k, j), pc := Publishing(c, j))
  }

  /** Store the job id, mark its request pending, start the asyncronizer, and unlock the mutex. */
  function DoPublish(s: State, c: Cid, j: JobId): State
    requires IsClient(s, c)
  {
    var x := ClientOf(s, c);
    WithMutex(WithClient(s, c, x.(busy := true, job := j, active := true, status := Pending, observer := true,
      starts := x.starts + 1)),
              c.k, Nobody).(pc := AtRest)
  }

  /** RunL: notify the observer; a completed request goes on to collect its results. */
  function DoRunL(s: State, c: Cid): State
    requires IsClient(s, c)
  {
    var x := ClientOf(s, c);
    var x' := x.(active := false, waiting := false, observer := false,
      notified := x.notified + (if x.observer then 1 else 0));
    if x.status.Completed? && x.observer
    then WithClient(s, c, x'.(busy := false)).(eng := E.DoBeginResults(s.eng, c.k, x.job), pc := Collecting(c))
    else WithClient(s, c, x')
  }

  /** The engine call of the master has returned when the engine's master is free again. */
  function AfterEngineStep(s: State, c: Cid, eng: E.State): State
    requires IsClient(s, c)
  {
    if !eng.master.Free? then s.(eng := eng)
    else if s.pc.Collecting? then s.(eng := eng, pc := Clearing(c))
    else WithClient(s, c, ClientOf(s, c).(busy := false)).(eng := eng, pc := AtRest)
  }

  function DoCheckError(s: State, c: Cid): State {
    (if WrapperOf(c) in s.eng.res.slots then s.(eng := E.DoClearError(s.eng, WrapperOf(c))) else s).(pc := AtRest)
  }

  function DoCancelAll(s: State, c: Cid): State { s.(pc := CancelStart(c), cancels := s.cancels + 1) }

  /** CActive::Cancel and the first lines of DoCancel. */
  function DoCheckActive(s: State, c: Cid): State
    requires IsClient(s, c)
  {
    s.(pc := if !ClientOf(s, c).active then CancelReady(c) else if ClientOf(s, c).waiting then CancelWaiting(c)
      else CancelDoing(c))
  }

  function DoDoCancel(s: State, c: Cid): State
    requires IsClient(s, c)
  {
    var x := ClientOf(s, c);
    WithClient(s, c, x.(status := Cancelled, observer := false, notified := x.notified + (if x.observer then 1 else 0)))
      .(pc := CancelWaiting(c))
  }

  function DoWaitForRequest(s: State, c: Cid): State
    requires IsClient(s, c)
  {
    var x := ClientOf(s, c);
    WithClient(s, c, x.(active := false, silenced := x.silenced + (if x.observer then 1 else 0))).(pc := CancelReady(c))
  }

  /** cpix_..._cancel...: when the job is not found the call throws at once. */
  function DoCancelJob(s: State, c: Cid): State
    requires IsClient(s, c)
  {
    s.(eng := E.DoBeginCancel(s.eng, ClientOf(s, c).job), pc := CancelEngine(c))
  }

  /** A slave step; entering and leaving the callback are steps of the engine. */
  function DoSlaveStep(s: State, a: E.Action): State
    requires E.Enabled(s.eng, a) && E.BySlave(a)
  {
    var eng := E.Do(s.eng, a);
    var s1 := s.(eng := eng);
    if a.Decide? && E.LaneOf(eng, a.k).slave.Calling? then WithCb(s1, a.k, Entering)
    else if a.CallbackReturns? then WithCb(s1, a.k, Outside)
    else s1
  }

  function DoCbCompare(s: State, k: Kind): State
    requires HasCookie(s, k)
  {
    var same := ClientOf(s, CalledClient(s, k)).job == CalledJob(s, k);
    WithCb(WithMutex(s, k, Nobody), k, if same then Matched else Done)
  }

  function DoCbSetWaiting(s: State, k: Kind): State
    requires HasCookie(s, k)
  {
    var c := CalledClient(s, k);
    WithCb(WithClient(s, c, ClientOf(s, c).(waiting := true)), k, Testing)
  }

  function DoCbTest(s: State, k: Kind): State
    requires HasCookie(s, k)
  {
    WithCb(s, k, if ClientOf(s, CalledClient(s, k)).status.Pending? then Posting else Done)
  }

  function DoCbPost(s: State, k: Kind): State
    requires HasCookie(s, k)
  {
    var c := CalledClient(s, k);
    WithCb(WithClient(s, c, ClientOf(s, c).(status := Completed)), k, Done)
  }

  function Do(s: State, a: Action): State
    requires Enabled(s, a)
  {
    match a
    case Submit(c) => s.(pc := Submitting(c))
    case TakeMutex => WithMutex(s, s.pc.c.k, ByMaster).(pc := Creating(s.pc.c))
    case Create(h) => DoCreate(s, s.pc.c, h)
    case Put => DoPut(s, s.pc.c, s.eng.master.j)
    case Publish => DoPublish(s, s.pc.c, s.pc.j)
    case RunL(c) => DoRunL(s, c)
    case MasterStep(e) => AfterEngineStep(s, s.pc.c, E.Do(s.eng, e))
    case CheckError => DoCheckError(s, s.pc.c)
    case CancelAll(c) => DoCancelAll(s, c)
    case CheckActive => DoCheckActive(s, s.pc.c)
    case DoCancel => DoDoCancel(s, s.pc.c)
    case WaitForRequest => DoWaitForRequest(s, s.pc.c)
    case CancelJob => DoCancelJob(s, s.pc.c)
    case SlaveStep(e) => DoSlaveStep(s, e)
    case CbLock(k) => WithCb(WithMutex(s, k, BySlave), k, Inside)
    case CbCompare(k) => DoCbCompare(s, k)
    case CbSetWaiting(k) => DoCbSetWaiting(s, k)
    case CbTest(k) => DoCbTest(s, k)
    case CbPost(k) => DoCbPost(s, k)
  }
}
