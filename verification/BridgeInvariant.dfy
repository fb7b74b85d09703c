/**
 The inductive invariant of the bridge: which job belongs to which client object, what the
 asyncronizer of that object says about it, and who holds the static mutexes.
*/
module BridgeInvariant {
  import E = AsyncEngine
  import I = AsyncInvariant
  import opened AsyncBridge

  function SlaveOf(s: State, k: Kind): E.Slave { E.LaneOf(s.eng, k).slave }

  /** The slave is inside the callback and has not yet posted the completion. */
  predicate InCallback(s: State, k: Kind) {
    !SideOf(s, k).cb.Outside? && !SideOf(s, k).cb.Done?
  }

  /** The callback of job j has done all it will do to the client object. */
  ghost predicate CallDone(s: State, k: Kind, j: JobId) {
    j in s.eng.calls && !(SlaveOf(s, k) == E.Calling(j) && InCallback(s, k))
  }

  /** Client object c and the job it waits for. */
  ghost predicate ClientInv(s: State, c: Cid)
    requires IsClient(s, c)
  {
    var x := ClientOf(s, c);
    && (x.busy ==> x.job in s.eng.issued && x.job in s.cookie && s.cookie[x.job] == c)
    && (x.busy ==> x.job !in s.eng.claimed || s.pc == CancelEngine(c))
    && (x.active ==> x.busy)
    && (x.busy ==> x.active || s.pc == CancelReady(c) || s.pc == CancelEngine(c))
    && (x.active && x.status.Completed? ==> CallDone(s, c.k, x.job))
    && (x.active && x.status.Pending? ==> !CallDone(s, c.k, x.job))
    && (x.active && (x.status.Cancelled? || !x.observer)
      ==> s.pc == CancelWaiting(c) && !x.status.Pending? && !x.observer)
    && x.starts == x.notified + x.silenced + (if x.active && x.observer then 1 else 0)
    && (s.cancels == 0 ==> x.silenced == 0)
    && (s.cancels == 0 && x.waiting ==> x.active)
  }

  /** Client object c waits for job j, or is about to be told its id. */
  ghost predicate Linked(s: State, c: Cid, j: JobId) {
    || (IsClient(s, c) && ClientOf(s, c).busy && ClientOf(s, c).job == j)
    || s.pc == Publishing(c, j)
  }

  ghost predicate JobLink(s: State, j: JobId) {
    && (j in s.eng.issued || j in s.eng.jobs ==> j in s.cookie && IsClient(s, s.cookie[j]))
    && (j in s.eng.jobs ==> s.cookie[j].k == s.eng.jobs[j].kind)
    && (j in s.eng.issued && j !in s.eng.claimed ==> Linked(s, s.cookie[j], j))
  }

  ghost predicate CbInv(s: State, k: Kind) {
    var d := SideOf(s, k);
    && (d.cb.Outside? <==> !SlaveOf(s, k).Calling?)
    && (d.cb.Inside? <==> d.mutex.BySlave?)
    && (d.mutex.ByMaster? <==> (s.pc.Creating? || s.pc.Putting? || s.pc.Publishing?) && s.pc.c.k == k)
    && (InCallback(s, k) ==> HasCookie(s, k) && Linked(s, CalledClient(s, k), CalledJob(s, k)))
    && (InCallback(s, k) && !d.cb.Entering? ==>
          ClientOf(s, CalledClient(s, k)).busy && ClientOf(s, CalledClient(s, k)).job == CalledJob(s, k))
  }

  predicate Cancelling(p: Pc) {
    p.CancelStart? || p.CancelDoing? || p.CancelWaiting? || p.CancelReady? || p.CancelEngine?
  }

  ghost predicate PcInv(s: State) {
    && (!s.pc.AtRest? ==> IsClient(s, s.pc.c))
    && (Cancelling(s.pc) ==> s.cancels > 0)
    && match s.pc
       case AtRest => s.eng.master.Free? && s.eng.res.slots == map[]
       case Submitting(c) => s.eng.master.Free? && s.eng.res.slots == map[] && !ClientOf(s, c).busy
       case Creating(c) => s.eng.master.Free? && s.eng.res.slots == map[] && !ClientOf(s, c).busy
       case Putting(c) =>
         && s.eng.master.Putting? && s.eng.res.slots == map[] && !ClientOf(s, c).busy
         && s.eng.master.k == c.k && s.eng.master.j in s.cookie && s.cookie[s.eng.master.j] == c
       case Publishing(c, j) =>
         && s.eng.master.Free? && s.eng.res.slots == map[] && !ClientOf(s, c).busy
         && j in s.eng.issued && j !in s.eng.claimed && j in s.cookie && s.cookie[j] == c && !CallDone(s, c.k, j)
       case Collecting(c) =>
         && (s.eng.master.ResultsFound? || s.eng.master.ResultsSynced? || s.eng.master.ResultsTaken?
           || s.eng.master.Destroying?)
         && s.eng.res.slots.Keys <= {WrapperOf(c)} && !ClientOf(s, c).busy
         && (s.eng.master.ResultsFound? || s.eng.master.ResultsSynced? ==> s.eng.res.slots == map[])
       case Clearing(c) => s.eng.master.Free? && s.eng.res.slots.Keys <= {WrapperOf(c)}
       case CancelStart(c) => s.eng.master.Free? && s.eng.res.slots == map[] && c.k.Qry? && ClientOf(s, c).active
       case CancelDoing(c) => s.eng.master.Free? && s.eng.res.slots == map[] && c.k.Qry? && ClientOf(s, c).active
       case CancelWaiting(c) => s.eng.master.Free? && s.eng.res.slots == map[] && c.k.Qry? && ClientOf(s, c).active
       case CancelReady(c) => s.eng.master.Free? && s.eng.res.slots == map[] && c.k.Qry? && ClientOf(s, c).busy
         && !ClientOf(s, c).active
       case CancelEngine(c) =>
         && (s.eng.master.CancelFound? || s.eng.master.CancelStarted? || s.eng.master.CancelDecided?
           || s.eng.master.Destroying?)
         && s.eng.res.slots == map[] && c.k.Qry? && ClientOf(s, c).busy && !ClientOf(s, c).active
         && s.eng.master.j == ClientOf(s, c).job
  }

  ghost predicate Inv(s: State) {
    && I.Inv(s.eng)
    && (forall c: Cid | IsClient(s, c) :: ClientInv(s, c))
    && (forall j: JobId :: JobLink(s, j))
    && CbInv(s, E.Idx) && CbInv(s, E.Qry)
    && PcInv(s)
  }
}
