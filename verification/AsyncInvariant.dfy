/**
 The inductive invariant of the job engine, stated job by job: where a live job is, who may
 touch it and who is obliged to delete it.
*/
module AsyncInvariant {
  import opened Options
  import opened AsyncEngine

  /** The slave still has to finish with job j. */
  predicate SlaveHas(p: Slave, j: JobId) {
    match p
    case Idle => false
    case Exited => false
    case Left(i, destroy) => i == j && destroy
    case Deleting(_) => false
    case _ => p.j == j
  }

  /** The slave holds the mutex of job j. */
  predicate Holds(p: Slave, j: JobId) { (p.Deciding? || p.Calling? || p.Leaving?) && p.j == j }

  /** The master's current call is about to delete job j or to hand it over. */
  predicate MasterHas(m: Master, j: JobId) {
    match m
    case Free => false
    case CancelDecided(i, destroy) => i == j && destroy
    case _ => m.j == j
  }

  /** Job j in the queue of lane k. */
  ghost predicate InLane(s: State, k: Kind, j: JobId) {
    var l := LaneOf(s, k);
    && (j in l.waiting ==> j in s.jobs && s.jobs[j].kind == k && j !in l.started && j in s.issued)
    && (j in l.started ==> j in s.jobs && s.jobs[j].kind == k && j in s.issued)
  }

  /** What holds of job j when the slave of lane k stands at p. */
  ghost predicate AtSlave(s: State, k: Kind, p: Slave, j: JobId) {
    var l := LaneOf(s, k);
    && (p == Running(j) ==>
      j in l.started && j in s.jobs && !s.jobs[j].locked && !s.jobs[j].calledBack
      && j !in s.calls && !s.jobs[j].err && !s.jobs[j].hits)
    && (p == Finished(j) ==>
      j in l.started && j in s.jobs && !s.jobs[j].locked && !s.jobs[j].calledBack && j !in s.calls)
    && (p == Deciding(j) ==>
      j in l.started && j in s.jobs && s.jobs[j].locked && !s.jobs[j].calledBack && j !in s.calls)
    && (p == Calling(j) ==>
      j in l.started && j in s.jobs && s.jobs[j].locked && !s.jobs[j].cancelled
      && !s.jobs[j].calledBack && j in s.calls)
    && (p == Leaving(j, true) ==>
      j in l.started && j in s.jobs && s.jobs[j].locked && s.jobs[j].cancelled && !s.jobs[j].calledBack)
    && (p == Leaving(j, false) ==> j in l.started && j in s.jobs && s.jobs[j].locked && s.jobs[j].calledBack)
    && (p == Left(j, true) ==> j in l.started && j in s.jobs && !s.jobs[j].locked && s.jobs[j].cancelled)
    && (p == Deleting(j) ==>
      j in s.jobs && s.jobs[j].kind == k && j !in l.started && j !in l.waiting
      && !s.jobs[j].locked && s.jobs[j].cancelled)
  }

  ghost predicate Collecting(s: State, k: Kind, j: JobId) {
    j in s.jobs && s.jobs[j].kind == k && j in s.claimed && j !in s.settled && j in LaneOf(s, k).started && j in s.calls
  }

  /** What holds of job j when the master stands at m. */
  ghost predicate AtMaster(s: State, m: Master, j: JobId) {
    && (m.Putting? && m.j == j ==>
          j in s.jobs && j !in s.issued && s.jobs[j] == Job(m.k, s.jobs[j].handle, false, false, false, false, false))
    && (m == CancelFound(j) ==>
          j in s.jobs && j in s.claimed && j !in s.settled && !s.jobs[j].cancelled
            && (j in s.qry.waiting || j in s.qry.started))
    && (m == CancelStarted(j) ==>
          j in s.jobs && j in s.claimed && j !in s.settled && !s.jobs[j].cancelled && j in s.qry.started)
    && (m == CancelDecided(j, true) ==>
          j in s.jobs && j in s.claimed && j !in s.settled && s.jobs[j].calledBack && !s.jobs[j].locked
            && j in s.qry.started)
    && (m == CancelDecided(j, false) ==>
          j in s.claimed && j !in s.settled && j !in s.calls && (j in s.jobs ==> s.jobs[j].cancelled))
    && (m.ResultsFound? && m.j == j ==> Collecting(s, m.k, j))
    && (m.ResultsSynced? && m.j == j ==> Collecting(s, m.k, j) && s.jobs[j].calledBack && !s.jobs[j].locked)
    && (m.ResultsTaken? && m.j == j ==> Collecting(s, m.k, j) && s.jobs[j].calledBack && !s.jobs[j].locked)
    && (m == Destroying(j) ==>
          && j in s.jobs && j in s.claimed && j !in s.settled && !s.jobs[j].locked && !s.jobs[j].cancelled
          && (var l := LaneOf(s, s.jobs[j].kind);
              j !in l.waiting && j !in l.started && !SlaveHas(l.slave, j) && l.slave != Deleting(j)))
  }

  /** What holds of a live job, wherever the threads stand. */
  ghost predicate Alive(s: State, j: JobId)
    requires j in s.jobs
  {
    var job := s.jobs[j];
    var l := LaneOf(s, job.kind);
    && j < s.nextId
    && (j in l.waiting || j in l.started || s.master == Putting(job.kind, j) || s.master == Destroying(j)
      || l.slave == Deleting(j))
    && (j in l.waiting ==> !job.cancelled && !job.calledBack && !job.locked && !job.err && !job.hits && j !in s.calls)
    && (job.locked ==> Holds(l.slave, j))
    && (j in l.started ==> SlaveHas(l.slave, j) || job.calledBack)
    && (job.calledBack ==> j in s.calls && !job.cancelled)
    && (j in s.calls ==> job.calledBack || l.slave == Calling(j))
    && (job.cancelled ==> j in s.claimed && (SlaveHas(l.slave, j) || l.slave == Deleting(j)))
    && (j in s.claimed ==> MasterHas(s.master, j) || job.cancelled)
    && (j !in s.claimed ==> j in l.waiting || j in l.started || s.master == Putting(job.kind, j))
    && (j in s.settled ==> job.cancelled)
  }

  /** Everything that holds of the id j. */
  ghost predicate JobInv(s: State, j: JobId) {
    && InLane(s, Idx, j) && InLane(s, Qry, j)
    && AtSlave(s, Idx, s.idx.slave, j) && AtSlave(s, Qry, s.qry.slave, j)
    && AtMaster(s, s.master, j)
    && (j in s.jobs ==> Alive(s, j))
    && (j in s.issued ==> j < s.nextId)
    && (j in s.issued && j !in s.claimed ==> j in s.jobs)
    && (j in s.claimed ==> j in s.issued)
    && (j in s.settled ==> j in s.claimed)
    && (j in s.calls ==> j in s.issued)
  }

  ghost predicate Distinct(q: seq<JobId>) { forall i, j | 0 <= i < j < |q| :: q[i] != q[j] }

  ghost predicate Control(s: State) {
    && Distinct(s.idx.waiting) && Distinct(s.qry.waiting) && Distinct(s.calls)
    && (forall j: JobId :: JobInv(s, j))
  }

  // ----- resources -----

  predicate JobErr(s: State, j: JobId) { j in s.jobs && s.jobs[j].err }

  predicate JobHits(s: State, j: JobId) { j in s.jobs && s.jobs[j].hits }

  /** The error and the hits that job j made have exactly one owner for as long as they exist. */
  ghost predicate OneOwner(s: State, j: JobId) {
    && (j in s.res.errors <==> JobErr(s, j) || j in s.res.slots.Values)
    && !(JobErr(s, j) && j in s.res.slots.Values)
    && (j in s.res.hits <==> JobHits(s, j) || j in s.res.clientHits)
    && !(JobHits(s, j) && j in s.res.clientHits)
    && (j in s.res.slots.Values || j in s.res.clientHits ==> j in s.calls)
  }

  ghost function JobsOn(jobs: map<JobId, Job>, h: Handle): set<JobId> {
    set j | j in jobs && jobs[j].handle == Some(h)
  }

  /** A handle has one reference for each client open and one for each live job on it. */
  ghost predicate Counted(s: State, h: Handle) {
    Ref(s.res.refs, h) == Ref(s.res.opens, h) + |JobsOn(s.jobs, h)|
  }

  ghost predicate OneSlotEach(m: map<Wrapper, JobId>) {
    forall v, w | v in m && w in m && v != w :: m[v] != m[w]
  }

  ghost predicate Conserved(s: State) {
    && (forall j: JobId :: OneOwner(s, j))
    && (forall h: Handle :: Counted(s, h))
    && OneSlotEach(s.res.slots)
  }

  ghost predicate Inv(s: State) {
    !s.fault && !s.notFound && Control(s) && Conserved(s)
  }
}
