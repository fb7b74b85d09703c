/**
 The asynchronous job engine of cpix_async.cpp as a state machine. One master thread submits,
 cancels and collects jobs; one slave thread per queue (index, query) executes them and calls
 back under the mutex of the job. A job is named by its id; the map `jobs` is the heap, so a
 job that has been deleted is no longer a key, and a step of any thread that dereferences such
 a job (or deletes a job whose mutex is held) raises `fault`.
*/
module AsyncEngine {
  import opened Options

  type JobId = nat
  type Handle = nat
  type Wrapper = nat

  datatype Kind = Idx | Qry

  datatype Job = Job(
    kind: Kind,
    handle: Option<Handle>,  // the handle the constructor took a reference on, if any
    cancelled: bool,         // cancelled_
    calledBack: bool,        // calledBack_
    locked: bool,            // mutex_ is held (only a slave holds it across steps)
    err: bool,               // err_ != NULL
    hits: bool)              // hits_ != NULL (search jobs)

  /** Where a slave thread stands in its loop and in AsyncJob::doJob. */
  datatype Slave =
    | Idle                          // about to call queue->get
    | Exited                        // get returned false
    | Running(j: JobId)             // executing doJob_
    | Finished(j: JobId)            // doJob_ done, about to lock mutex_
    | Deciding(j: JobId)            // holds mutex_, about to read cancelled_
    | Calling(j: JobId)             // holds mutex_, inside the client's callback
    | Leaving(j: JobId, destroy: bool)  // holds mutex_, about to unlock it
    | Left(j: JobId, destroy: bool)     // doJob returned `destroy`
    | Deleting(j: JobId)            // jobCompleted done, about to delete the job

  /** Where the master thread stands. */
  datatype Master =
    | Free
    | Putting(k: Kind, j: JobId)         // job constructed, about to put it
    | CancelFound(j: JobId)              // Cancel: findJob returned the job
    | CancelStarted(j: JobId)            // Cancel: the job was not waiting any more
    | CancelDecided(j: JobId, destroy: bool)  // Cancel: AsyncJob::cancel returned `destroy`
    | ResultsFound(k: Kind, j: JobId)    // Results: findStartedJob returned the job
    | ResultsSynced(k: Kind, j: JobId)   // Results: lockAndUnlock returned
    | ResultsTaken(k: Kind, j: JobId)    // Results: error and hits taken out of the job
    | Destroying(j: JobId)               // the auto_ptr is about to delete the job

  /** One job queue with its slave thread; `submitted` and `begun` are its history. */
  datatype Lane = Lane(
    capacity: nat,
    waiting: seq<JobId>,
    started: set<JobId>,
    slave: Slave,
    submitted: seq<JobId>,
    begun: seq<JobId>)

  /** What the jobs and the client own. An error or hits object is named by the job that made it. */
  datatype Resources = Resources(
    opens: map<Handle, int>,         // references the client opened itself
    refs: map<Handle, int>,          // reference count of each handle
    errors: set<JobId>,              // error objects taken out of the pool
    slots: map<Wrapper, JobId>,      // error objects stored in client wrappers
    hits: set<JobId>,                // live search results
    clientHits: set<JobId>)          // search results handed to the client

  datatype State = State(
    nextId: JobId,
    jobs: map<JobId, Job>,
    idx: Lane,
    qry: Lane,
    stopped: bool,
    master: Master,
    res: Resources,
    fault: bool,                     // a deleted job was used, or a held mutex was destroyed
    notFound: bool,                  // a lookup by id found nothing ("AsyncJob not found")
    issued: set<JobId>,              // jobs whose submission succeeded
    claimed: set<JobId>,             // jobs for which Cancel or Results was called
    settled: set<JobId>,             // ... and has returned
    shallow: set<JobId>,             // jobs cancelled before they were started
    calls: seq<JobId>)               // callbacks fired, in order

  datatype Action =
    // master thread
    | Construct(ck: Kind, h: Option<Handle>)
    | Put
    | PutRefused
    | BeginCancel(cj: JobId)
    | TakeWaiting
    | LockAndCancel
    | CompleteCancelled
    | ReleaseCancelled
    | BeginResults(rk: Kind, rj: JobId)
    | LockAndUnlock
    | TakeResults(w: Wrapper)
    | CompleteCollected
    | Destroy
    | Stop
    | ClearError(cw: Wrapper)
    | DestroyHits(dj: JobId)
    | OpenHandle(oh: Handle)
    | CloseHandle(xh: Handle)
    // slave thread of a lane
    | Get(k: Kind)
    | ExitLoop(k: Kind)
    | DoJob(k: Kind, failed: bool, found: bool)
    | Lock(k: Kind)
    | Decide(k: Kind)
    | CallbackReturns(k: Kind)
    | Unlock(k: Kind)
    | Continue(k: Kind)
    | CompleteOwn(k: Kind)
    | DeleteOwn(k: Kind)

  predicate BySlave(a: Action) {
    a.Get? || a.ExitLoop? || a.DoJob? || a.Lock? || a.Decide? || a.CallbackReturns? || a.Unlock? || a.Continue?
      || a.CompleteOwn? || a.DeleteOwn?
  }

  function LaneOf(s: State, k: Kind): Lane { if k.Idx? then s.idx else s.qry }

  function WithLane(s: State, k: Kind, l: Lane): State { if k.Idx? then s.(idx := l) else s.(qry := l) }

  function WithSlave(s: State, k: Kind, p: Slave): State { WithLane(s, k, LaneOf(s, k).(slave := p)) }

  function Ref(m: map<Handle, int>, h: Handle): int { if h in m then m[h] else 0 }

  function Init(idxCapacity: nat, qryCapacity: nat): State {
    State(0, map[], Lane(idxCapacity, [], {}, Idle, [], []), Lane(qryCapacity, [], {}, Idle, [], []),
          false, Free, Resources(map[], map[], {}, map[], {}, {}), false, false, {}, {}, {}, {}, [])
  }

  // ----- the effect of each step -----

  /** Uses job j: a fault when it has been deleted. */
  function Touch(s: State, j: JobId): State { s.(fault := s.fault || j !in s.jobs) }

  function Modify(s: State, j: JobId, job: Job): State { s.(jobs := s.jobs[j := job]) }

  /** `delete job`: the destructor releases the handle, the error and the hits the job still owns. */
  function Delete(s: State, j: JobId): State {
    if j !in s.jobs then s.(fault := true) else
    var job := s.jobs[j];
    var r := s.res;
    var refs := if job.handle.Some? then r.refs[job.handle.value := Ref(r.refs, job.handle.value) - 1] else r.refs;
    s.(jobs := s.jobs - {j},
       fault := s.fault || job.locked || (job.err && j !in r.errors) || (job.hits && j !in r.hits),
       res := r.(refs := refs,
                 errors := if job.err then r.errors - {j} else r.errors,
                 hits := if job.hits then r.hits - {j} else r.hits))
  }

  /** findJob and findStartedJob evaluate the id of every job in the queue. */
  predicate LookupSafe(s: State, k: Kind) {
    (forall j | j in LaneOf(s, k).waiting :: j in s.jobs) && LaneOf(s, k).started <= s.jobs.Keys
  }

  function Without(q: seq<JobId>, j: JobId): seq<JobId> {
    if q == [] then [] else if q[0] == j then q[1..] else [q[0]] + Without(q[1..], j)
  }

  /** Can the thread take this step: it stands there and is not blocked. */
  predicate Enabled(s: State, a: Action) {
    match a
    case Construct(_, _) => s.master.Free?
    case Put => s.master.Putting? && !s.stopped && |LaneOf(s, s.master.k).waiting| != LaneOf(s, s.master.k).capacity
    case PutRefused => s.master.Putting? && s.stopped
    case BeginCancel(_) => s.master.Free?
    case TakeWaiting => s.master.CancelFound?
    case LockAndCancel => s.master.CancelStarted? && (s.master.j in s.jobs ==> !s.jobs[s.master.j].locked)
    case CompleteCancelled => s.master.CancelDecided? && s.master.destroy
    case ReleaseCancelled => s.master.CancelDecided? && !s.master.destroy
    case BeginResults(_, _) => s.master.Free?
    case LockAndUnlock => s.master.ResultsFound? && (s.master.j in s.jobs ==> !s.jobs[s.master.j].locked)
    case TakeResults(_) => s.master.ResultsSynced?
    case CompleteCollected => s.master.ResultsTaken?
    case Destroy => s.master.Destroying?
    case Stop => s.master.Free?
    case ClearError(w) => s.master.Free? && w in s.res.slots
    case DestroyHits(j) => s.master.Free? && j in s.res.clientHits
    case OpenHandle(_) => s.master.Free?
    case CloseHandle(_) => s.master.Free?
    case Get(k) => LaneOf(s, k).slave.Idle? && !s.stopped && LaneOf(s, k).waiting != []
    case ExitLoop(k) => LaneOf(s, k).slave.Idle? && s.stopped
    case DoJob(k, _, _) => LaneOf(s, k).slave.Running?
    case Lock(k) => var p := LaneOf(s, k).slave; p.Finished? && (p.j in s.jobs ==> !s.jobs[p.j].locked)
    case Decide(k) => LaneOf(s, k).slave.Deciding?
    case CallbackReturns(k) => LaneOf(s, k).slave.Calling?
    case Unlock(k) => LaneOf(s, k).slave.Leaving?
    case Continue(k) => LaneOf(s, k).slave.Left? && !LaneOf(s, k).slave.destroy
    case CompleteOwn(k) => LaneOf(s, k).slave.Left? && LaneOf(s, k).slave.destroy
    case DeleteOwn(k) => LaneOf(s, k).slave.Deleting?
  }

  /**
   The rules cpix_async.h states for clients: exactly one of Cancel and Results per submitted
   job, Results only after the callback of that job was called, the error of a wrapper is
   cleared before the next results are collected into it, and a handle is closed at most as
   often as it was opened.
  */
  predicate Obeys(s: State, a: Action) {
    match a
    case BeginCancel(j) => j in s.issued && j !in s.claimed && (j in s.jobs ==> s.jobs[j].kind.Qry?)
    case BeginResults(k, j) => j in s.calls && j !in s.claimed && (j in s.jobs ==> s.jobs[j].kind == k)
    case TakeResults(w) => w !in s.res.slots
    case CloseHandle(h) => Ref(s.res.opens, h) > 0
    case _ => true
  }

  // ----- steps of the master thread -----

  function DoConstruct(s: State, k: Kind, h: Option<Handle>): State {
    var refs := if h.Some? then s.res.refs[h.value := Ref(s.res.refs, h.value) + 1] else s.res.refs;
    Modify(s, s.nextId, Job(k, h, false, false, false, false, false))
      .(nextId := s.nextId + 1, res := s.res.(refs := refs), master := Putting(k, s.nextId))
  }

  function DoPut(s: State, k: Kind, j: JobId): State {
    var l := LaneOf(s, k);
    WithLane(s, k, l.(waiting := l.waiting + [j], submitted := l.submitted + [j])).(master := Free,
      issued := s.issued + {j})
  }

  function DoBeginCancel(s: State, j: JobId): State {
    var s1 := s.(fault := s.fault || !LookupSafe(s, Qry));
    if j in s.qry.waiting || j in s.qry.started
    then s1.(claimed := s.claimed + {j}, master := CancelFound(j))
    else s1.(notFound := true)
  }

  function DoTakeWaiting(s: State, j: JobId): State {
    var s1 := s.(fault := s.fault || !LookupSafe(s, Qry));
    if j in s.qry.waiting
    then s1.(qry := s.qry.(waiting := Without(s.qry.waiting, j)), shallow := s.shallow + {j}, master := Destroying(j))
    else s1.(master := CancelStarted(j))
  }

  function DoLockAndCancel(s: State, j: JobId): State {
    if j !in s.jobs then s.(fault := true) else
    var destroy := s.jobs[j].calledBack;
    Modify(s, j, if destroy then s.jobs[j] else s.jobs[j].(cancelled := true)).(master := CancelDecided(j, destroy))
  }

  function DoBeginResults(s: State, k: Kind, j: JobId): State {
    var s1 := s.(fault := s.fault || !LookupSafe(s, k));
    if j in LaneOf(s, k).started
    then s1.(claimed := s.claimed + {j}, master := ResultsFound(k, j))
    else s1.(notFound := true)
  }

  function DoTakeResults(s: State, k: Kind, j: JobId, w: Wrapper): State {
    if j !in s.jobs then s.(fault := true) else
    var job := s.jobs[j];
    Modify(s, j, job.(err := false, hits := false))
      .(res := s.res.(slots := if job.err then s.res.slots[w := j] else s.res.slots - {w},
                      clientHits := if job.hits then s.res.clientHits + {j} else s.res.clientHits),
        master := ResultsTaken(k, j))
  }

  function DoComplete(s: State, k: Kind, j: JobId): State {
    var l := LaneOf(s, k);
    WithLane(s, k, l.(started := l.started - {j})).(master := Destroying(j))
  }

  function DoDestroy(s: State, j: JobId): State { Delete(s, j).(master := Free, settled := s.settled + {j}) }

  function DoClearError(s: State, w: Wrapper): State
    requires w in s.res.slots
  {
    s.(res := s.res.(slots := s.res.slots - {w}, errors := s.res.errors - {s.res.slots[w]}),
       fault := s.fault || s.res.slots[w] !in s.res.errors)
  }

  function DoDestroyHits(s: State, j: JobId): State {
    s.(res := s.res.(clientHits := s.res.clientHits - {j}, hits := s.res.hits - {j}),
       fault := s.fault || j !in s.res.hits)
  }

  function DoCount(s: State, h: Handle, d: int): State {
    s.(res := s.res.(opens := s.res.opens[h := Ref(s.res.opens, h) + d],
      refs := s.res.refs[h := Ref(s.res.refs, h) + d]))
  }

  // ----- steps of the slave thread of lane k -----

  function DoGet(s: State, k: Kind): State
    requires LaneOf(s, k).waiting != []
  {
    var l := LaneOf(s, k);
    var j := l.waiting[0];
    WithLane(s, k, l.(waiting := l.waiting[1..], started := l.started + {j}, slave := Running(j),
      begun := l.begun + [j]))
  }

  function DoDoJob(s: State, k: Kind, j: JobId, failed: bool, found: bool): State {
    if j !in s.jobs then s.(fault := true) else
    var hits := found && k.Qry?;
    Modify(WithSlave(s, k, Finished(j)), j, s.jobs[j].(err := failed, hits := hits))
      .(res := s.res.(errors := if failed then s.res.errors + {j} else s.res.errors,
                      hits := if hits then s.res.hits + {j} else s.res.hits),
        fault := s.fault || (failed && j in s.res.errors) || (hits && j in s.res.hits))
  }

  function DoLock(s: State, k: Kind, j: JobId): State {
    if j !in s.jobs then s.(fault := true) else
    Modify(WithSlave(s, k, Deciding(j)), j, s.jobs[j].(locked := true))
  }

  function DoDecide(s: State, k: Kind, j: JobId): State {
    if j !in s.jobs then s.(fault := true) else
    if !s.jobs[j].cancelled
    then WithSlave(s, k, Calling(j)).(calls := s.calls + [j])
    else WithSlave(s, k, Leaving(j, true))
  }

  function DoCallbackReturns(s: State, k: Kind, j: JobId): State {
    if j !in s.jobs then s.(fault := true) else
    Modify(WithSlave(s, k, Leaving(j, false)), j, s.jobs[j].(calledBack := true))
  }

  function DoUnlock(s: State, k: Kind, j: JobId, destroy: bool): State {
    if j !in s.jobs then s.(fault := true) else
    Modify(WithSlave(s, k, Left(j, destroy)), j, s.jobs[j].(locked := false))
  }

  function DoCompleteOwn(s: State, k: Kind, j: JobId): State {
    var l := LaneOf(s, k);
    WithLane(s, k, l.(started := l.started - {j}, slave := Deleting(j)))
  }

  function DoDeleteOwn(s: State, k: Kind, j: JobId): State { Delete(WithSlave(s, k, Idle), j) }

  function Do(s: State, a: Action): State
    requires Enabled(s, a)
  {
    match a
    case Construct(k, h) => DoConstruct(s, k, h)
    case Put => DoPut(s, s.master.k, s.master.j)
    case PutRefused => Delete(s, s.master.j).(master := Free)
    case BeginCancel(j) => DoBeginCancel(s, j)
    case TakeWaiting => DoTakeWaiting(s, s.master.j)
    case LockAndCancel => DoLockAndCancel(s, s.master.j)
    case CompleteCancelled => DoComplete(s, Qry, s.master.j)
    case ReleaseCancelled => s.(master := Free, settled := s.settled + {s.master.j})
    case BeginResults(k, j) => DoBeginResults(s, k, j)
    case LockAndUnlock => Touch(s, s.master.j).(master := ResultsSynced(s.master.k, s.master.j))
    case TakeResults(w) => DoTakeResults(s, s.master.k, s.master.j, w)
    case CompleteCollected => DoComplete(s, s.master.k, s.master.j)
    case Destroy => DoDestroy(s, s.master.j)
    case Stop => s.(stopped := true)
    case ClearError(w) => DoClearError(s, w)
    case DestroyHits(j) => DoDestroyHits(s, j)
    case OpenHandle(h) => DoCount(s, h, 1)
    case CloseHandle(h) => DoCount(s, h, -1)
    case Get(k) => DoGet(s, k)
    case ExitLoop(k) => WithSlave(s, k, Exited)
    case DoJob(k, failed, found) => DoDoJob(s, k, LaneOf(s, k).slave.j, failed, found)
    case Lock(k) => DoLock(s, k, LaneOf(s, k).slave.j)
    case Decide(k) => DoDecide(s, k, LaneOf(s, k).slave.j)
    case CallbackReturns(k) => DoCallbackReturns(s, k, LaneOf(s, k).slave.j)
    case Unlock(k) => DoUnlock(s, k, LaneOf(s, k).slave.j, LaneOf(s, k).slave.destroy)
    case Continue(k) => WithSlave(s, k, Idle)
    case CompleteOwn(k) => DoCompleteOwn(s, k, LaneOf(s, k).slave.j)
    case DeleteOwn(k) => DoDeleteOwn(s, k, LaneOf(s, k).slave.j)
  }
}
