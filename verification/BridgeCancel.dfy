/** What becomes of a request that CancelAll cancels while its asyncronizer is active. */
module BridgeCancel {
  import opened Options
  import E = AsyncEngine
  import I = AsyncInvariant
  import opened AsyncBridge
  import opened BridgeInvariant
  import opened BridgeSteps
  import opened BridgeSafety
  import opened BridgeTheorems
  import opened BridgeProgress
  import opened BridgeTermination
  import opened BridgeDeadlock

  /** The client object c as CActive::Cancel found it was x; WaitForRequest has not returned yet. */
  predicate Waits(s: State, c: Cid, x: Client) {
    && IsClient(s, c) && ClientOf(s, c).silenced == x.silenced
    && (if x.waiting
        then s.pc == CancelWaiting(c) && ClientOf(s, c).observer && ClientOf(s, c).notified == x.notified
        else || (s.pc == CancelDoing(c) && ClientOf(s, c).observer && ClientOf(s, c).notified == x.notified)
             || (s.pc == CancelWaiting(c) && !ClientOf(s, c).observer && ClientOf(s, c).notified == x.notified + 1))
  }

  lemma BeginsToWait(s: State)
    requires Inv(s) && Enabled(s, CheckActive)
    ensures Waits(Do(s, CheckActive), s.pc.c, ClientOf(s, s.pc.c))
  {
    assert ClientInv(s, s.pc.c);
    hide I.Inv;
  }

  /** The fields of client c that only the master writes. */
  predicate SameToMaster(s: State, s': State, c: Cid) {
    && s'.pc == s.pc && IsClient(s, c) && IsClient(s', c)
    && ClientOf(s', c).notified == ClientOf(s, c).notified
    && ClientOf(s', c).silenced == ClientOf(s, c).silenced
    && ClientOf(s', c).observer == ClientOf(s, c).observer
  }

  lemma SlavesSpareTheObserver(s: State, a: Action, c: Cid)
    requires Enabled(s, a) && IsClient(s, c)
    requires a.SlaveStep? || a.CbLock? || a.CbCompare? || a.CbSetWaiting? || a.CbTest? || a.CbPost?
    ensures SameToMaster(s, Do(s, a), c)
  {
    hide E.Do, E.Enabled;
  }

  lemma KeepsWaiting(s: State, a: Action, c: Cid, x: Client)
    requires Inv(s) && Enabled(s, a) && Waits(s, c, x) && !a.WaitForRequest?
    ensures Waits(Do(s, a), c, x)
  {
    if a.SlaveStep? || a.CbLock? || a.CbCompare? || a.CbSetWaiting? || a.CbTest? || a.CbPost? {
      SlavesSpareTheObserver(s, a, c);
      hide Inv, Enabled, Do;
    } else {
      hide Inv;
    }
  }

  lemma CheckActiveStands(s: State)
    requires Enabled(s, CheckActive)
    ensures s.pc.CancelStart? && IsClient(s, s.pc.c)
  {
  }

  lemma {:induction false} WaitsOn(u: Setup, tr: seq<State>, acts: seq<Action>, i: nat, n: nat)
    requires IsRun(u, tr, acts) && i < n < |tr| && acts[i].CheckActive?
    requires forall m | i < m < n :: !acts[m].WaitForRequest?
    ensures tr[i].pc.CancelStart? && IsClient(tr[i], tr[i].pc.c)
    ensures Waits(tr[n], tr[i].pc.c, ClientOf(tr[i], tr[i].pc.c))
  {
    hide Inv, Do, Enabled, Waits, Start;
    CheckActiveStands(tr[i]);
    RunsAreSafe(u, tr, acts, n - 1);
    if n == i + 1 {
      BeginsToWait(tr[i]);
    } else {
      WaitsOn(u, tr, acts, i, n - 1);
      KeepsWaiting(tr[n - 1], acts[n - 1], tr[i].pc.c, ClientOf(tr[i], tr[i].pc.c));
    }
  }

  lemma WaitingEnds(s: State, c: Cid, x: Client)
    requires Waits(s, c, x) && Enabled(s, WaitForRequest)
    ensures var y := ClientOf(Do(s, WaitForRequest), c);
      y.notified == x.notified + (if x.waiting then 0 else 1) && y.silenced == x.silenced + (if x.waiting then 1 else 0)
  {
  }

  /**
   A request that CancelAll finds active is answered by exactly one notification, unless the
   callback of its job had already set iWaitingForCompletion: then DoCancel returns at once, the
   completion is swallowed by the wait, and the observer is never told.
  */
  lemma CancelNotifiesIff(u: Setup, tr: seq<State>, acts: seq<Action>, i: nat, n: nat)
    requires IsRun(u, tr, acts) && i < n < |acts| && acts[i].CheckActive? && acts[n].WaitForRequest?
    requires forall m | i < m < n :: !acts[m].WaitForRequest?
    ensures tr[i].pc.CancelStart? && IsClient(tr[i], tr[i].pc.c) && IsClient(tr[n + 1], tr[i].pc.c)
    ensures var c := tr[i].pc.c; var x, y := ClientOf(tr[i], c), ClientOf(tr[n + 1], c);
      && (y.notified == x.notified + 1 <==> !x.waiting)
      && (y.silenced == x.silenced + 1 <==> x.waiting)
  {
    WaitsOn(u, tr, acts, i, n);
    WaitingEnds(tr[n], tr[i].pc.c, ClientOf(tr[i], tr[i].pc.c));
  }

  /**
   A request is silenced only after its callback has done its work: until then the master stands
   in the cancellation.
  */
  lemma SilencedAfterCallback(u: Setup, tr: seq<State>, acts: seq<Action>, n: nat)
    requires IsRun(u, tr, acts) && n < |acts| && acts[n].WaitForRequest? && tr[n].pc.CancelWaiting?
    requires IsClient(tr[n], tr[n].pc.c) && ClientOf(tr[n], tr[n].pc.c).observer
    ensures var c := tr[n].pc.c; CallDone(tr[n], c.k, ClientOf(tr[n], c).job)
  {
    RunsAreSafe(u, tr, acts, n);
    assert PcInv(tr[n]) && ClientInv(tr[n], tr[n].pc.c) && Enabled(tr[n], acts[n]);
    hide I.Inv;
  }

  /** The callback goes on only for the job that its client object waits for. */
  lemma CompareMeans(s: State, k: Kind)
    requires Enabled(s, CbCompare(k))
    ensures SideOf(Do(s, CbCompare(k)), k).cb == Matched <==> ClientOf(s, CalledClient(s, k)).job == CalledJob(s, k)
  {
    hide E.Enabled;
  }

  /** It completes the request only if it finds it pending: after DoCancel it leaves the status alone. */
  lemma TestMeans(s: State, k: Kind)
    requires Enabled(s, CbTest(k))
    ensures var s' := Do(s, CbTest(k));
      && s'.idx.clients == s.idx.clients && s'.qry.clients == s.qry.clients
      && SideOf(s', k).cb == if ClientOf(s, CalledClient(s, k)).status == Pending then Posting else Done
  {
    hide E.Enabled;
  }

  // ----- when the flag is set -----

  /** The callback sets iWaitingForCompletion of client c. */
  predicate SetsFlag(s: State, a: Action, c: Cid) { a.CbSetWaiting? && HasCookie(s, a.k) && CalledClient(s, a.k) == c }

  predicate FlagIsSet(s: State, c: Cid) { IsClient(s, c) && ClientOf(s, c).waiting }

  lemma SlaveStepKeepsFlag(s: State, a: Action, c: Cid)
    requires Enabled(s, a) && a.SlaveStep?
    ensures FlagIsSet(Do(s, a), c) <==> FlagIsSet(s, c)
  {
    hide E.Do, E.Enabled;
  }

  lemma FlagChanges(s: State, a: Action, c: Cid)
    requires Enabled(s, a)
    ensures FlagIsSet(Do(s, a), c) <==> SetsFlag(s, a, c) || (FlagIsSet(s, c) && a != RunL(c))
  {
    if a.SlaveStep? {
      SlaveStepKeepsFlag(s, a, c);
    } else {
      OtherStepFlag(s, a, c);
    }
    hide Do, Enabled;
  }

  lemma OtherStepFlag(s: State, a: Action, c: Cid)
    requires Enabled(s, a) && !a.SlaveStep?
    ensures FlagIsSet(Do(s, a), c) <==> SetsFlag(s, a, c) || (FlagIsSet(s, c) && a != RunL(c))
  {
    hide E.Do, E.Enabled, E.DoConstruct, E.DoPut, E.DoBeginCancel, E.DoBeginResults, E.DoClearError;
  }

  /**
   In any run the flag of a client object is set if and only if a callback has set it since it was
   clear, as at the start, with no RunL of that object meanwhile: Start does not clear it.
  */
  lemma {:induction false} FlagIsSetIff(u: Setup, tr: seq<State>, acts: seq<Action>, r: nat, i: nat, c: Cid)
    requires IsRun(u, tr, acts) && r <= i < |tr| && !FlagIsSet(tr[r], c) && forall m | r <= m < i :: acts[m] != RunL(c)
    ensures FlagIsSet(tr[i], c) <==> exists m :: r <= m < i && SetsFlag(tr[m], acts[m], c)
    decreases i
  {
    hide Do, FlagIsSet, SetsFlag, Start;
    if r < i {
      FlagIsSetIff(u, tr, acts, r, i - 1, c);
      FlagChanges(tr[i - 1], acts[i - 1], c);
    }
  }

  lemma RunLClearsFlag(s: State, c: Cid)
    requires Enabled(s, RunL(c))
    ensures !FlagIsSet(Do(s, RunL(c)), c)
  {
  }

  /**
   A request that follows an ordinary completion and is cancelled before its own callback has set
   the flag is answered by exactly one notification.
  */
  lemma NotifiedAfterRunL(u: Setup, tr: seq<State>, acts: seq<Action>, r: nat, i: nat, n: nat, c: Cid)
    requires IsRun(u, tr, acts) && r < i < n < |acts| && acts[r] == RunL(c)
    requires acts[i].CheckActive? && tr[i].pc == CancelStart(c) && acts[n].WaitForRequest?
    requires forall m | r < m < i :: acts[m] != RunL(c) && !SetsFlag(tr[m], acts[m], c)
    requires forall m | i < m < n :: !acts[m].WaitForRequest?
    ensures IsClient(tr[i], c) && IsClient(tr[n + 1], c)
    ensures var x, y := ClientOf(tr[i], c), ClientOf(tr[n + 1], c);
      y.notified == x.notified + 1 && y.silenced == x.silenced
  {
    assert Enabled(tr[r], acts[r]) && Enabled(tr[i], acts[i]);
    RunLClearsFlag(tr[r], c);
    FlagIsSetIff(u, tr, acts, r + 1, i, c);
    CancelNotifiesIff(u, tr, acts, i, n);
    WaitsOn(u, tr, acts, i, n);
    WaitingEnds(tr[n], c, ClientOf(tr[i], c));
  }

  /** As long as nothing has been cancelled, the flag is set only while the request is active. */
  lemma FlagOnlyWhileActive(u: Setup, tr: seq<State>, acts: seq<Action>, i: nat, c: Cid)
    requires IsRun(u, tr, acts) && i < |tr| && tr[i].cancels == 0 && FlagIsSet(tr[i], c)
    ensures ClientOf(tr[i], c).active
  {
    RunsAreSafe(u, tr, acts, i);
    assert ClientInv(tr[i], c);
  }

  // ----- the silent case does happen -----

  /** The slave stands in the callback of a query job, in the place given, and the master is at rest. */
  ghost predicate CallsAtRest(u: Setup, s: State, cb: Cb, c: Cid) {
    At(u, s) && s.pc.AtRest? && s.qry.cb == cb && HasCookie(s, E.Qry) && CalledClient(s, E.Qry) == c && c.k.Qry?
  }

  lemma CallbackBegins(u: Setup, s: State) returns (s': State, c: Cid)
    requires At(u, s) && s.pc.AtRest? && s.qry.cb.Entering?
    ensures CallsAtRest(u, s', Matched, c)
  {
    assert CbInv(s, E.Qry);
    hide Reaches, Fits, I.Inv, PcInv, ClientInv, JobLink;
    c := CalledClient(s, E.Qry);
    assert Enabled(s, CbLock(E.Qry));
    Goes(u, s, CbLock(E.Qry));
    var s1 := Do(s, CbLock(E.Qry));
    assert CbInv(s1, E.Qry);
    hide Inv;
    assert Enabled(s1, CbCompare(E.Qry));
    Goes(u, s1, CbCompare(E.Qry));
    s' := Do(s1, CbCompare(E.Qry));
  }

  /** CancelAll comes when iWaitingForCompletion is set but the completion is not posted yet. */
  lemma CancelComesBetween(u: Setup, s: State, c: Cid) returns (s': State)
    requires CallsAtRest(u, s, Matched, c)
    ensures At(u, s') && s'.pc == CancelWaiting(c) && IsClient(s', c) && s'.qry.cb.Testing? && HasCookie(s', E.Qry)
      && CalledClient(s', E.Qry) == c
    ensures ClientOf(s', c).status.Pending? && ClientOf(s', c).observer && ClientOf(s', c).waiting
  {
    hide Reaches, Fits, I.Inv, PcInv, JobLink;
    Goes(u, s, CbSetWaiting(E.Qry));
    var s1 := Do(s, CbSetWaiting(E.Qry));
    assert CbInv(s1, E.Qry) && ClientInv(s1, c);
    hide Inv;
    assert Enabled(s1, CancelAll(c));
    Goes(u, s1, CancelAll(c));
    var s2 := Do(s1, CancelAll(c));
    assert Enabled(s2, CheckActive);
    Goes(u, s2, CheckActive);
    s' := Do(s2, CheckActive);
  }

  lemma CompletionIsSwallowed(u: Setup, s: State, c: Cid) returns (s': State)
    requires At(u, s) && s.pc == CancelWaiting(c) && IsClient(s, c) && s.qry.cb.Testing? && HasCookie(s, E.Qry)
      && CalledClient(s, E.Qry) == c
    requires ClientOf(s, c).status.Pending? && ClientOf(s, c).observer && ClientOf(s, c).waiting
    ensures At(u, s') && IsClient(s', c) && ClientOf(s', c).silenced > 0 && Stale(s', c)
  {
    hide Inv, Reaches, Fits;
    Goes(u, s, CbTest(E.Qry));
    var s1 := Do(s, CbTest(E.Qry));
    Goes(u, s1, CbPost(E.Qry));
    var s2 := Do(s1, CbPost(E.Qry));
    Goes(u, s2, WaitForRequest);
    s' := Do(s2, WaitForRequest);
  }

  /** With a single search object already, a request can be cancelled without its observer ever being told. */
  lemma SilencingHappens(u: Setup) returns (s: State, c: Cid)
    requires u.qryClients > 0 && u.qryCapacity > 0
    ensures At(u, s) && IsClient(s, c) && ClientOf(s, c).silenced > 0 && c.k.Qry? && Stale(s, c)
  {
    hide Inv, Reaches;
    var s0 := FirstCall(u, E.Qry);
    var s1, c1 := CallbackBegins(u, s0);
    var s2 := CancelComesBetween(u, s1, c1);
    s := CompletionIsSwallowed(u, s2, c1);
    c := c1;
  }

  // ----- the flag outlives its request -----

  predicate NotSubmitting(p: Pc) { !p.Submitting? && !p.Creating? && !p.Putting? && !p.Publishing? }

  /** iWaitingForCompletion of client c is still set although its request is over. */
  predicate Stale(s: State, c: Cid) {
    IsClient(s, c) && ClientOf(s, c).waiting && !ClientOf(s, c).active && NotSubmitting(s.pc)
  }

  lemma SlavesKeepStale(s: State, a: Action, c: Cid)
    requires Enabled(s, a) && Stale(s, c)
    requires a.SlaveStep? || a.CbLock? || a.CbCompare? || a.CbSetWaiting? || a.CbTest? || a.CbPost?
    ensures Stale(Do(s, a), c)
  {
    hide E.Do, E.Enabled;
  }

  lemma KeepsStale(s: State, a: Action, c: Cid)
    requires Enabled(s, a) && Stale(s, c) && Internal(a)
    ensures Stale(Do(s, a), c)
  {
    if a.SlaveStep? || a.CbLock? || a.CbCompare? || a.CbSetWaiting? || a.CbTest? || a.CbPost? {
      SlavesKeepStale(s, a, c);
      hide Do, Enabled;
    } else {
      hide E.Do, E.Enabled;
    }
  }

  /** Everything else runs to its end; the flag stays. */
  lemma {:induction false} DrainsStale(u: Setup, s: State, c: Cid) returns (s': State)
    requires At(u, s) && Stale(s, c) && u.idxCapacity > 0 && u.qryCapacity > 0
    ensures At(u, s') && Stale(s', c) && Quiet(s')
    decreases Work(s)
  {
    if Quiet(s) {
      s' := s;
    } else {
      SomeoneMoves(u, s);
      var a :| Internal(a) && Enabled(s, a);
      hide Inv, Do, Enabled, Fits, Reaches, Work;
      StepWorks(s, a);
      KeepsStale(s, a, c);
      Goes(u, s, a);
      s' := DrainsStale(u, Do(s, a), c);
    }
  }

  lemma QuietIsIdle(s: State)
    requires Quiet(s)
    ensures forall c: Cid | IsClient(s, c) :: !ClientOf(s, c).busy
  {
    forall c: Cid | IsClient(s, c) ensures !ClientOf(s, c).busy {
      assert ClientOf(s, c) in s.idx.clients + s.qry.clients;
    }
  }

  lemma QuietHasNoJobs(s: State, k: Kind)
    requires Inv(s) && Quiet(s)
    ensures E.LaneOf(s.eng, k).waiting == [] && !SideOf(s, k).cb.Inside?
  {
    QuietIsIdle(s);
    assert CbInv(s, k) by { assert k == E.Idx || k == E.Qry; }
    forall j: JobId ensures j !in E.LaneOf(s.eng, k).waiting { assert I.JobInv(s.eng, j) && JobLink(s, j); }
    SomeMember(E.LaneOf(s.eng, k).waiting);
  }

  lemma SomeMember(q: seq<JobId>)
    ensures q != [] ==> exists j :: j in q
  {
    if q != [] { assert q[0] in q; }
  }

  /** A new request of client c has been started; the flag is the one left by the request before. */
  ghost predicate StartedStale(s: State, c: Cid) {
    && IsClient(s, c) && ClientOf(s, c).waiting && ClientOf(s, c).active && ClientOf(s, c).observer
    && ClientOf(s, c).job !in s.eng.calls
  }

  lemma StartsStale(u: Setup, s: State, c: Cid) returns (s': State)
    requires At(u, s) && Stale(s, c) && Quiet(s) && c.k.Qry? && u.qryCapacity > 0
    ensures At(u, s') && StartedStale(s', c) && s'.pc.AtRest?
  {
    QuietHasNoJobs(s, E.Qry);
    QuietIsIdle(s);
    assert CbInv(s, E.Qry);
    NewJobHasNotCalled(s);
    assert Enabled(s, Submit(c));
    Goes(u, s, Submit(c));
    var s1 := Do(s, Submit(c));
    hide Inv, Reaches;
    assert Enabled(s1, TakeMutex);
    Goes(u, s1, TakeMutex);
    var s2 := Do(s1, TakeMutex);
    assert Enabled(s2, Create(None));
    Goes(u, s2, Create(None));
    s' := PublishesStale(u, Do(s2, Create(None)), c);
  }

  lemma NewJobHasNotCalled(s: State)
    requires Inv(s)
    ensures s.eng.nextId !in s.eng.calls
  {
    assert I.JobInv(s.eng, s.eng.nextId);
  }

  lemma PublishesStale(u: Setup, s: State, c: Cid) returns (s': State)
    requires At(u, s) && s.pc == Putting(c) && c.k.Qry? && IsClient(s, c) && ClientOf(s, c).waiting
    requires s.eng.master.Putting? && s.eng.master.k == c.k && s.eng.master.j !in s.eng.calls
    requires |s.eng.qry.waiting| < s.eng.qry.capacity
    ensures At(u, s') && StartedStale(s', c) && s'.pc.AtRest?
  {
    hide Inv, Reaches;
    assert Enabled(s, Put);
    Goes(u, s, Put);
    var s1 := Do(s, Put);
    assert Enabled(s1, Publish);
    Goes(u, s1, Publish);
    s' := Do(s1, Publish);
  }

  /** Without a new request in between, s' comes after s. */
  ghost predicate Leads(s: State, s': State) {
    exists tr: seq<State>, acts: seq<Action> :: IsStretch(tr, acts) && tr[0] == s && tr[|acts|] == s'
  }

  lemma LeadsToItself(s: State)
    ensures Leads(s, s)
  {
    assert IsStretch([s], []);
  }

  lemma LeadsOn(s: State, s': State, a: Action)
    requires Leads(s, s') && Internal(a) && Enabled(s', a)
    ensures Leads(s, Do(s', a))
  {
    hide Enabled, Do;
    var tr: seq<State>, acts: seq<Action> :| IsStretch(tr, acts) && tr[0] == s && tr[|acts|] == s';
    var tr', acts' := tr + [Do(s', a)], acts + [a];
    assert IsStretch(tr', acts') && tr'[0] == s && tr'[|acts'|] == Do(s', a);
  }

  /** While the master waits in DoCancel the slaves go on, until it can go on too. */
  lemma {:induction false} WaitIsOver(u: Setup, s0: State, s: State, c: Cid, x: Client) returns (s': State)
    requires At(u, s) && Waits(s, c, x) && s.pc.CancelWaiting? && u.idxCapacity > 0 && u.qryCapacity > 0 && Leads(s0, s)
    ensures At(u, s') && Waits(s', c, x) && Enabled(s', WaitForRequest) && Leads(s0, s')
    decreases Work(s)
  {
    if Enabled(s, WaitForRequest) {
      s' := s;
    } else {
      SomeoneMoves(u, s);
      var a :| Internal(a) && Enabled(s, a);
      StaysInWait(s, a);
      hide Inv, Do, Enabled, Fits, Reaches, Work, Waits, Leads;
      StepWorks(s, a);
      KeepsWaiting(s, a, c, x);
      Goes(u, s, a);
      LeadsOn(s0, s, a);
      s' := WaitIsOver(u, s0, Do(s, a), c, x);
    }
  }

  lemma StaysInWait(s: State, a: Action)
    requires Enabled(s, a) && s.pc.CancelWaiting? && !a.WaitForRequest?
    ensures Do(s, a).pc == s.pc
  {
    hide E.Do, E.Enabled;
  }

  /**
   A cancelled request leaves iWaitingForCompletion set, and Start does not clear it. So the next
   request of that object is silenced too when it is cancelled, even long before its own callback:
   DoCancel returns at once, and the master waits until the job has run after all.
  */
  lemma StaleFlagSilencesTheNext(u: Setup) returns (s: State, s': State, c: Cid)
    requires u.qryClients > 0 && u.qryCapacity > 0 && u.idxCapacity > 0
    ensures Reaches(u, s) && s.pc == CancelStart(c) && IsClient(s, c) && ClientOf(s, c).waiting
      && ClientOf(s, c).job !in s.eng.calls
    ensures Leads(s, s') && IsClient(s', c)
    ensures ClientOf(s', c).silenced == ClientOf(s, c).silenced + 1
      && ClientOf(s', c).notified == ClientOf(s, c).notified
  {
    hide Inv, Reaches, Fits, Waits, Do, Enabled, Stale, StartedStale, Leads;
    var s1;
    s1, c := SilencingHappens(u);
    var s2 := DrainsStale(u, s1, c);
    var s3 := StartsStale(u, s2, c);
    s, s' := CancelsStale(u, s3, c);
  }

  lemma CancelsStale(u: Setup, s: State, c: Cid) returns (s1: State, s': State)
    requires At(u, s) && StartedStale(s, c) && s.pc.AtRest? && c.k.Qry? && u.idxCapacity > 0 && u.qryCapacity > 0
    ensures Reaches(u, s1) && s1.pc == CancelStart(c) && IsClient(s1, c) && ClientOf(s1, c).waiting
      && ClientOf(s1, c).job !in s1.eng.calls
    ensures Leads(s1, s') && IsClient(s', c)
    ensures ClientOf(s', c).silenced == ClientOf(s1, c).silenced + 1
      && ClientOf(s', c).notified == ClientOf(s1, c).notified
  {
    assert ClientInv(s, c);
    hide Inv, Reaches, Leads;
    assert Enabled(s, CancelAll(c));
    Goes(u, s, CancelAll(c));
    s1 := Do(s, CancelAll(c));
    assert Enabled(s1, CheckActive);
    Goes(u, s1, CheckActive);
    BeginsToWait(s1);
    var s2 := Do(s1, CheckActive);
    LeadsToItself(s1);
    LeadsOn(s1, s1, CheckActive);
    var s3 := WaitIsOver(u, s1, s2, c, ClientOf(s1, c));
    LeadsOn(s1, s3, WaitForRequest);
    WaitingEnds(s3, c, ClientOf(s1, c));
    s' := Do(s3, WaitForRequest);
  }
}
