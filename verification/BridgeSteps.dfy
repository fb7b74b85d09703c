/**
 The steps of the bridge that leave the engine alone keep the invariant. The invariant has a part
 for the client objects, one for the links between jobs and clients, one for the master and one for
 each completion callback. A step changes what one thread knows, so for each step there is a lemma
 for the part it changes, and the lemmas at the top carry the other parts over unchanged; the last
 lemma of each group puts the parts together.
*/
module BridgeSteps {
  import E = AsyncEngine
  import I = AsyncInvariant
  import opened AsyncBridge
  import opened BridgeInvariant

  // ----- what a step does not concern -----

  /** Nothing changes that ClientInv says about c, except that c may no longer be the one being cancelled. */
  ghost predicate SameClient(s: State, s': State, c: Cid)
    requires IsClient(s, c)
  {
    && IsClient(s', c) && ClientOf(s', c) == ClientOf(s, c)
    && (ClientOf(s, c).busy ==> SameJobView(s, s', c.k, ClientOf(s, c).job))
    && (s.pc == CancelEngine(c) ==> s'.pc == CancelEngine(c))
    && (s.pc == CancelReady(c) ==> s'.pc == CancelReady(c))
    && (s.pc == CancelWaiting(c) ==> s'.pc == CancelWaiting(c))
    && s.cancels <= s'.cancels
  }

  ghost predicate SameJobView(s: State, s': State, k: Kind, j: JobId) {
    && (j in s.eng.issued ==> j in s'.eng.issued)
    && (j in s'.eng.claimed <==> j in s.eng.claimed)
    && (j in s.cookie ==> j in s'.cookie && s'.cookie[j] == s.cookie[j])
    && CallDone(s', k, j) == CallDone(s, k, j)
  }

  lemma ClientElsewhere(s: State, s': State, c: Cid)
    requires IsClient(s, c) && SameClient(s, s', c) && ClientInv(s, c)
    ensures ClientInv(s', c)
  {
  }

  /** The same engine, the same cookies, and every client waits for the job it waited for. */
  ghost predicate KeepsLinks(s: State, s': State) {
    && s'.eng == s.eng && s'.cookie == s.cookie
    && |s'.idx.clients| == |s.idx.clients| && |s'.qry.clients| == |s.qry.clients|
    && (forall c | IsClient(s, c) ::
      ClientOf(s', c).busy == ClientOf(s, c).busy && ClientOf(s', c).job == ClientOf(s, c).job)
    && (s.pc.Publishing? ==> s'.pc == s.pc)
  }

  lemma LinksKept(s: State, s': State)
    requires (forall j: JobId :: JobLink(s, j)) && KeepsLinks(s, s')
    ensures forall j: JobId :: JobLink(s', j)
  {
    forall j: JobId ensures JobLink(s', j) {
      assert JobLink(s, j);
    }
  }

  /** All clients but c are as before. */
  lemma ClientsKept(s: State, s': State, c: Cid)
    requires forall d: Cid | IsClient(s, d) :: ClientInv(s, d)
    requires forall d: Cid | IsClient(s', d) && d != c :: IsClient(s, d) && SameClient(s, s', d)
    requires IsClient(s', c) ==> ClientInv(s', c)
    ensures forall d: Cid | IsClient(s', d) :: ClientInv(s', d)
  {
    forall d: Cid | IsClient(s', d) && d != c ensures ClientInv(s', d) { ClientElsewhere(s, s', d); }
  }

  /** The master stands where it stood, and nothing it relies on has changed. */
  lemma PcElsewhere(s: State, s': State)
    requires PcInv(s) && s'.pc == s.pc && s'.cookie == s.cookie && s'.cancels == s.cancels
    requires s'.eng.master == s.eng.master && s'.eng.res.slots == s.eng.res.slots
    requires !s.pc.AtRest? ==>
      && IsClient(s', s.pc.c)
      && ClientOf(s', s.pc.c).busy == ClientOf(s, s.pc.c).busy
      && ClientOf(s', s.pc.c).active == ClientOf(s, s.pc.c).active
      && ClientOf(s', s.pc.c).job == ClientOf(s, s.pc.c).job
    requires s.pc.Publishing? ==>
      && s.pc.j in s'.eng.issued && s.pc.j !in s'.eng.claimed && !CallDone(s', s.pc.c.k, s.pc.j)
    ensures PcInv(s')
  {
  }

  predicate MasterLocks(p: Pc, k: Kind) { (p.Creating? || p.Putting? || p.Publishing?) && p.c.k == k }

  /** The callback of lane k stands where it stood. */
  lemma CbElsewhere(s: State, s': State, k: Kind)
    requires CbInv(s, k)
    requires SideOf(s', k).cb == SideOf(s, k).cb && SideOf(s', k).mutex == SideOf(s, k).mutex
    requires SlaveOf(s', k) == SlaveOf(s, k)
    requires MasterLocks(s'.pc, k) == MasterLocks(s.pc, k)
    requires InCallback(s, k) ==>
      && HasCookie(s', k) && CalledClient(s', k) == CalledClient(s, k)
      && ClientOf(s', CalledClient(s, k)).busy == ClientOf(s, CalledClient(s, k)).busy
      && ClientOf(s', CalledClient(s, k)).job == ClientOf(s, CalledClient(s, k)).job
      && (s'.pc == s.pc || s.pc != Publishing(CalledClient(s, k), CalledJob(s, k)))
    ensures CbInv(s', k)
  {
  }

  function Other(k: Kind): Kind { if k.Idx? then E.Qry else E.Idx }

  // ----- the master, outside the engine -----

  lemma SubmitKeeps(s: State, c: Cid)
    requires Inv(s) && Enabled(s, Submit(c))
    ensures Inv(s.(pc := Submitting(c)))
  {
    forall d: Cid | IsClient(s, d) ensures ClientInv(s.(pc := Submitting(c)), d) {
      ClientElsewhere(s, s.(pc := Submitting(c)), d);
    }
    LinksKept(s, s.(pc := Submitting(c)));
  }

  lemma TakeMutexClients(s: State)
    requires Inv(s) && Enabled(s, TakeMutex)
    ensures forall d: Cid | IsClient(WithMutex(s, s.pc.c.k, ByMaster).(pc := Creating(s.pc.c)), d) ::
      ClientInv(WithMutex(s, s.pc.c.k, ByMaster).(pc := Creating(s.pc.c)), d)
  {
    forall d: Cid | IsClient(s, d) ensures ClientInv(WithMutex(s, s.pc.c.k, ByMaster).(pc := Creating(s.pc.c)), d) {
      ClientElsewhere(s, WithMutex(s, s.pc.c.k, ByMaster).(pc := Creating(s.pc.c)), d);
    }
  }

  lemma TakeMutexCb(s: State)
    requires Inv(s) && Enabled(s, TakeMutex)
    ensures CbInv(WithMutex(s, s.pc.c.k, ByMaster).(pc := Creating(s.pc.c)), E.Idx)
      && CbInv(WithMutex(s, s.pc.c.k, ByMaster).(pc := Creating(s.pc.c)), E.Qry)
  {
    CbElsewhere(s, WithMutex(s, s.pc.c.k, ByMaster).(pc := Creating(s.pc.c)), Other(s.pc.c.k));
    assert CbInv(s, s.pc.c.k);
    assert CbInv(WithMutex(s, s.pc.c.k, ByMaster).(pc := Creating(s.pc.c)), s.pc.c.k);
    assert s.pc.c.k == E.Idx || s.pc.c.k == E.Qry;
  }

  lemma TakeMutexKeeps(s: State)
    requires Inv(s) && Enabled(s, TakeMutex)
    ensures Inv(WithMutex(s, s.pc.c.k, ByMaster).(pc := Creating(s.pc.c)))
  {
    TakeMutexClients(s);
    LinksKept(s, WithMutex(s, s.pc.c.k, ByMaster).(pc := Creating(s.pc.c)));
    TakeMutexCb(s);
  }

  lemma PublishClients(s: State)
    requires Inv(s) && Enabled(s, Publish)
    ensures forall d: Cid | IsClient(DoPublish(s, s.pc.c, s.pc.j), d) :: ClientInv(DoPublish(s, s.pc.c, s.pc.j), d)
  {
    ClientsKept(s, DoPublish(s, s.pc.c, s.pc.j), s.pc.c);
  }

  lemma PublishKeeps(s: State)
    requires Inv(s) && Enabled(s, Publish)
    ensures Inv(DoPublish(s, s.pc.c, s.pc.j))
  {
    PublishClients(s);
    forall j: JobId ensures JobLink(DoPublish(s, s.pc.c, s.pc.j), j) { assert JobLink(s, j); }
    CbElsewhere(s, DoPublish(s, s.pc.c, s.pc.j), Other(s.pc.c.k));
  }

  lemma CancelAllClients(s: State, c: Cid)
    requires Inv(s) && Enabled(s, CancelAll(c))
    ensures forall d: Cid | IsClient(DoCancelAll(s, c), d) :: ClientInv(DoCancelAll(s, c), d)
    ensures PcInv(DoCancelAll(s, c))
  {
    assert ClientInv(s, c);
    forall d: Cid | IsClient(s, d) ensures ClientInv(DoCancelAll(s, c), d) { ClientElsewhere(s, DoCancelAll(s, c), d); }
  }

  lemma CancelAllKeeps(s: State, c: Cid)
    requires Inv(s) && Enabled(s, CancelAll(c))
    ensures Inv(DoCancelAll(s, c))
  {
    CancelAllClients(s, c);
    LinksKept(s, DoCancelAll(s, c));
    CbElsewhere(s, DoCancelAll(s, c), E.Idx);
    CbElsewhere(s, DoCancelAll(s, c), E.Qry);
  }

  lemma CheckActiveKeeps(s: State)
    requires Inv(s) && Enabled(s, CheckActive)
    ensures Inv(DoCheckActive(s, s.pc.c))
  {
    forall d: Cid | IsClient(s, d) ensures ClientInv(DoCheckActive(s, s.pc.c), d) {
      ClientElsewhere(s, DoCheckActive(s, s.pc.c), d);
    }
    LinksKept(s, DoCheckActive(s, s.pc.c));
    CbElsewhere(s, DoCheckActive(s, s.pc.c), E.Idx);
    CbElsewhere(s, DoCheckActive(s, s.pc.c), E.Qry);
  }

  lemma DoCancelClients(s: State)
    requires Inv(s) && Enabled(s, DoCancel)
    ensures forall d: Cid | IsClient(DoDoCancel(s, s.pc.c), d) :: ClientInv(DoDoCancel(s, s.pc.c), d)
  {
    ClientsKept(s, DoDoCancel(s, s.pc.c), s.pc.c);
  }

  lemma DoCancelKeeps(s: State)
    requires Inv(s) && Enabled(s, DoCancel)
    ensures Inv(DoDoCancel(s, s.pc.c))
  {
    DoCancelClients(s);
    LinksKept(s, DoDoCancel(s, s.pc.c));
    CbElsewhere(s, DoDoCancel(s, s.pc.c), E.Idx);
    CbElsewhere(s, DoDoCancel(s, s.pc.c), E.Qry);
  }

  lemma WaitForRequestClients(s: State)
    requires Inv(s) && Enabled(s, WaitForRequest)
    ensures forall d: Cid | IsClient(DoWaitForRequest(s, s.pc.c), d) :: ClientInv(DoWaitForRequest(s, s.pc.c), d)
  {
    ClientsKept(s, DoWaitForRequest(s, s.pc.c), s.pc.c);
  }

  lemma WaitForRequestKeeps(s: State)
    requires Inv(s) && Enabled(s, WaitForRequest)
    ensures Inv(DoWaitForRequest(s, s.pc.c))
  {
    WaitForRequestClients(s);
    LinksKept(s, DoWaitForRequest(s, s.pc.c));
    CbElsewhere(s, DoWaitForRequest(s, s.pc.c), E.Idx);
    CbElsewhere(s, DoWaitForRequest(s, s.pc.c), E.Qry);
  }

  // ----- the slave, inside the callback -----

  lemma CbLockHere(s: State, k: Kind)
    requires Enabled(s, CbLock(k)) && CbInv(s, k)
    ensures CbInv(WithCb(WithMutex(s, k, BySlave), k, Inside), k)
  {
  }

  lemma CbLockCb(s: State, k: Kind)
    requires Inv(s) && Enabled(s, CbLock(k))
    ensures CbInv(WithCb(WithMutex(s, k, BySlave), k, Inside), E.Idx)
      && CbInv(WithCb(WithMutex(s, k, BySlave), k, Inside), E.Qry)
  {
    CbLockHere(s, k);
    CbElsewhere(s, WithCb(WithMutex(s, k, BySlave), k, Inside), Other(k));
    assert k == E.Idx || k == E.Qry;
  }

  lemma CbLockClients(s: State, k: Kind)
    requires Inv(s) && Enabled(s, CbLock(k))
    ensures forall d: Cid | IsClient(WithCb(WithMutex(s, k, BySlave), k, Inside), d) ::
      ClientInv(WithCb(WithMutex(s, k, BySlave), k, Inside), d)
  {
    forall d: Cid | IsClient(s, d) ensures ClientInv(WithCb(WithMutex(s, k, BySlave), k, Inside), d) {
      ClientElsewhere(s, WithCb(WithMutex(s, k, BySlave), k, Inside), d);
    }
  }

  lemma CbLockMaster(s: State, k: Kind)
    requires Inv(s) && Enabled(s, CbLock(k))
    ensures PcInv(WithCb(WithMutex(s, k, BySlave), k, Inside))
  {
    PcElsewhere(s, WithCb(WithMutex(s, k, BySlave), k, Inside));
  }

  lemma CbLockKeeps(s: State, k: Kind)
    requires Inv(s) && Enabled(s, CbLock(k))
    ensures Inv(WithCb(WithMutex(s, k, BySlave), k, Inside))
  {
    CbLockClients(s, k);
    CbLockMaster(s, k);
    CbLockCb(s, k);
    LinksKept(s, WithCb(WithMutex(s, k, BySlave), k, Inside));
  }

  lemma CbCompareHere(s: State, k: Kind)
    requires Enabled(s, CbCompare(k)) && CbInv(s, k)
    ensures CbInv(DoCbCompare(s, k), k)
  {
  }

  lemma CbCompareCb(s: State, k: Kind)
    requires Inv(s) && Enabled(s, CbCompare(k))
    ensures CbInv(DoCbCompare(s, k), E.Idx) && CbInv(DoCbCompare(s, k), E.Qry)
  {
    CbCompareHere(s, k);
    CbElsewhere(s, DoCbCompare(s, k), Other(k));
    assert k == E.Idx || k == E.Qry;
  }

  lemma CbCompareClients(s: State, k: Kind)
    requires Inv(s) && Enabled(s, CbCompare(k))
    ensures forall d: Cid | IsClient(DoCbCompare(s, k), d) :: ClientInv(DoCbCompare(s, k), d)
  {
    forall d: Cid | IsClient(s, d) ensures ClientInv(DoCbCompare(s, k), d) { ClientElsewhere(s, DoCbCompare(s, k), d); }
  }

  lemma CbCompareMaster(s: State, k: Kind)
    requires Inv(s) && Enabled(s, CbCompare(k))
    ensures PcInv(DoCbCompare(s, k))
  {
    PcElsewhere(s, DoCbCompare(s, k));
  }

  lemma CbCompareKeeps(s: State, k: Kind)
    requires Inv(s) && Enabled(s, CbCompare(k))
    ensures Inv(DoCbCompare(s, k))
  {
    CbCompareClients(s, k);
    CbCompareMaster(s, k);
    CbCompareCb(s, k);
    LinksKept(s, DoCbCompare(s, k));
  }

  lemma CbSetWaitingClients(s: State, k: Kind)
    requires Inv(s) && Enabled(s, CbSetWaiting(k))
    ensures forall d: Cid | IsClient(DoCbSetWaiting(s, k), d) :: ClientInv(DoCbSetWaiting(s, k), d)
  {
    ClientsKept(s, DoCbSetWaiting(s, k), CalledClient(s, k));
  }

  lemma CbSetWaitingHere(s: State, k: Kind)
    requires Enabled(s, CbSetWaiting(k)) && CbInv(s, k)
    ensures CbInv(DoCbSetWaiting(s, k), k)
  {
  }

  lemma CbSetWaitingCb(s: State, k: Kind)
    requires Inv(s) && Enabled(s, CbSetWaiting(k))
    ensures CbInv(DoCbSetWaiting(s, k), E.Idx) && CbInv(DoCbSetWaiting(s, k), E.Qry)
  {
    CbSetWaitingHere(s, k);
    CbElsewhere(s, DoCbSetWaiting(s, k), Other(k));
    assert k == E.Idx || k == E.Qry;
  }

  lemma CbSetWaitingMaster(s: State, k: Kind)
    requires Inv(s) && Enabled(s, CbSetWaiting(k))
    ensures PcInv(DoCbSetWaiting(s, k))
  {
    PcElsewhere(s, DoCbSetWaiting(s, k));
  }

  lemma CbSetWaitingKeeps(s: State, k: Kind)
    requires Inv(s) && Enabled(s, CbSetWaiting(k))
    ensures Inv(DoCbSetWaiting(s, k))
  {
    CbSetWaitingClients(s, k);
    CbSetWaitingMaster(s, k);
    CbSetWaitingCb(s, k);
    LinksKept(s, DoCbSetWaiting(s, k));
  }

  lemma CbTestClients(s: State, k: Kind)
    requires Inv(s) && Enabled(s, CbTest(k))
    ensures forall d: Cid | IsClient(DoCbTest(s, k), d) :: ClientInv(DoCbTest(s, k), d)
  {
    forall d: Cid | IsClient(s, d) && d != CalledClient(s, k) ensures SameClient(s, DoCbTest(s, k), d) {
      assert ClientInv(s, d);
    }
    ClientsKept(s, DoCbTest(s, k), CalledClient(s, k));
  }

  lemma CbTestHere(s: State, k: Kind)
    requires Enabled(s, CbTest(k)) && CbInv(s, k)
    ensures CbInv(DoCbTest(s, k), k)
  {
  }

  lemma CbTestCb(s: State, k: Kind)
    requires Inv(s) && Enabled(s, CbTest(k))
    ensures CbInv(DoCbTest(s, k), E.Idx) && CbInv(DoCbTest(s, k), E.Qry)
  {
    CbTestHere(s, k);
    CbElsewhere(s, DoCbTest(s, k), Other(k));
    assert k == E.Idx || k == E.Qry;
  }

  lemma CbTestMaster(s: State, k: Kind)
    requires Inv(s) && Enabled(s, CbTest(k))
    ensures PcInv(DoCbTest(s, k))
  {
    PcElsewhere(s, DoCbTest(s, k));
  }

  lemma CbTestKeeps(s: State, k: Kind)
    requires Inv(s) && Enabled(s, CbTest(k))
    ensures Inv(DoCbTest(s, k))
  {
    CbTestClients(s, k);
    CbTestMaster(s, k);
    CbTestCb(s, k);
    LinksKept(s, DoCbTest(s, k));
  }

  lemma CbPostClients(s: State, k: Kind)
    requires Inv(s) && Enabled(s, CbPost(k))
    ensures forall d: Cid | IsClient(DoCbPost(s, k), d) :: ClientInv(DoCbPost(s, k), d)
  {
    CbPostCalled(s, k);
    forall d: Cid | IsClient(s, d) && d != CalledClient(s, k) ensures SameClient(s, DoCbPost(s, k), d) {
      CbPostOthers(s, k, d);
    }
    hide I.Inv, ClientInv;
    ClientsKept(s, DoCbPost(s, k), CalledClient(s, k));
  }

  lemma CbPostCalled(s: State, k: Kind)
    requires Inv(s) && Enabled(s, CbPost(k))
    ensures IsClient(DoCbPost(s, k), CalledClient(s, k)) && ClientInv(DoCbPost(s, k), CalledClient(s, k))
  {
    assert I.JobInv(s.eng, CalledJob(s, k));
    assert ClientInv(s, CalledClient(s, k));
    assert CbInv(s, k) by { assert k == E.Idx || k == E.Qry; }
  }

  lemma CbPostOthers(s: State, k: Kind, d: Cid)
    requires Inv(s) && Enabled(s, CbPost(k)) && IsClient(s, d) && d != CalledClient(s, k)
    ensures SameClient(s, DoCbPost(s, k), d)
  {
    assert ClientInv(s, d);
  }

  lemma CbPostHere(s: State, k: Kind)
    requires Enabled(s, CbPost(k)) && CbInv(s, k)
    ensures CbInv(DoCbPost(s, k), k)
  {
  }

  lemma CbPostCb(s: State, k: Kind)
    requires Inv(s) && Enabled(s, CbPost(k))
    ensures CbInv(DoCbPost(s, k), E.Idx) && CbInv(DoCbPost(s, k), E.Qry)
  {
    CbPostHere(s, k);
    CbElsewhere(s, DoCbPost(s, k), Other(k));
    assert k == E.Idx || k == E.Qry;
  }

  lemma CbPostMaster(s: State, k: Kind)
    requires Inv(s) && Enabled(s, CbPost(k))
    ensures PcInv(DoCbPost(s, k))
  {
    PcElsewhere(s, DoCbPost(s, k));
  }

  lemma CbPostKeeps(s: State, k: Kind)
    requires Inv(s) && Enabled(s, CbPost(k))
    ensures Inv(DoCbPost(s, k))
  {
    CbPostClients(s, k);
    CbPostMaster(s, k);
    CbPostCb(s, k);
    LinksKept(s, DoCbPost(s, k));
  }
}
