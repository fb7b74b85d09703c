/**
 Every message that a successful Start takes is completed once, and when. A message is known by the
 id of the job that answers it. It is open from the Start on; one step of the run ends it, and after
 that it is spent for good: the job is claimed and no longer being collected, or the cancellation
 that answered the message has not come to the engine yet.
*/
module BridgeAnswers {
  import opened Options
  import E = AsyncEngine
  import I = AsyncInvariant
  import F = AsyncFrames
  import opened AsyncBridge
  import opened BridgeInvariant
  import opened BridgeEngineSteps
  import opened BridgeSafety
  import opened BridgeTheorems

  // ----- what happens to the message of a request, which is known by the id of its job -----

  predicate IsRequest(s: State, j: JobId) { !s.pc.AtRest? && IsClient(s, s.pc.c) && ClientOf(s, s.pc.c).job == j }

  /** RunL calls HandleAsyncronizerComplete for the request. */
  predicate Notifies(s: State, a: Action, j: JobId) {
    a.RunL? && IsClient(s, a.c) && ClientOf(s, a.c).job == j && ClientOf(s, a.c).observer
  }

  /** That call comes to its last line, which completes the message. */
  predicate Completes(s: State, a: Action, j: JobId) { a.CheckError? && s.pc.Clearing? && IsRequest(s, j) }

  /** DoCancel completes the message as cancelled. */
  predicate Revokes(s: State, a: Action, j: JobId) {
    a.DoCancel? && s.pc.CancelDoing? && IsRequest(s, j) && ClientOf(s, s.pc.c).observer
  }

  /** The request is given up without its message being completed. */
  predicate Silences(s: State, a: Action, j: JobId) {
    a.WaitForRequest? && s.pc.CancelWaiting? && IsRequest(s, j) && ClientOf(s, s.pc.c).observer
  }

  predicate Ends(s: State, a: Action, j: JobId) { Completes(s, a, j) || Revokes(s, a, j) || Silences(s, a, j) }

  predicate Collects(s: State) { s.pc.Collecting? || s.pc.Clearing? }

  /** The message of client c's request with job j is still to be completed. */
  predicate Open(s: State, c: Cid, j: JobId) {
    && IsClient(s, c) && ClientOf(s, c).job == j
    && ((ClientOf(s, c).active && ClientOf(s, c).observer) || (Collects(s) && s.pc.c == c))
  }

  /** The message of job j has been dealt with. */
  predicate Spent(s: State, j: JobId) {
    || (j in s.eng.claimed && !(Collects(s) && IsRequest(s, j)))
    || (s.pc.CancelWaiting? && IsRequest(s, j) && !ClientOf(s, s.pc.c).observer)
    || (s.pc.CancelReady? && IsRequest(s, j))
  }

  // ----- frames -----

  predicate InSlave(a: Action) {
    a.SlaveStep? || a.CbLock? || a.CbCompare? || a.CbSetWaiting? || a.CbTest? || a.CbPost?
  }

  /** What the master knows of client c. */
  predicate SameRequest(s: State, s': State, c: Cid) {
    && IsClient(s, c) && IsClient(s', c)
    && ClientOf(s', c).job == ClientOf(s, c).job && ClientOf(s', c).active == ClientOf(s, c).active
    && ClientOf(s', c).observer == ClientOf(s, c).observer
  }

  lemma SlaveStepSpares(s: State, a: Action, c: Cid)
    requires Enabled(s, a) && a.SlaveStep? && IsClient(s, c)
    ensures Do(s, a).pc == s.pc && SameRequest(s, Do(s, a), c)
  {
    hide E.Do, E.Enabled;
  }

  lemma CallbackSpares(s: State, a: Action, c: Cid)
    requires Enabled(s, a) && InSlave(a) && !a.SlaveStep? && IsClient(s, c)
    ensures Do(s, a).pc == s.pc && SameRequest(s, Do(s, a), c)
  {
  }

  lemma SlaveSpares(s: State, a: Action, c: Cid)
    requires Enabled(s, a) && InSlave(a) && IsClient(s, c)
    ensures Do(s, a).pc == s.pc && SameRequest(s, Do(s, a), c)
  {
    hide Do, Enabled;
    if a.SlaveStep? { SlaveStepSpares(s, a, c); } else { CallbackSpares(s, a, c); }
  }

  ghost predicate Grows(e: E.State, e': E.State) {
    e.claimed <= e'.claimed && forall j | j in e.calls :: j in e'.calls
  }

  lemma JobStepGrows(e: E.State, k: Kind, j: JobId, failed: bool, found: bool)
    ensures Grows(e, E.DoDoJob(e, k, j, failed, found))
    ensures Grows(e, E.DoLock(e, k, j))
    ensures Grows(e, E.DoDecide(e, k, j))
  {
  }

  lemma LeavingStepGrows(e: E.State, k: Kind, j: JobId, destroy: bool)
    ensures Grows(e, E.DoCallbackReturns(e, k, j))
    ensures Grows(e, E.DoUnlock(e, k, j, destroy))
    ensures Grows(e, E.DoCompleteOwn(e, k, j))
    ensures Grows(e, E.DoDeleteOwn(e, k, j))
  {
  }

  lemma SlaveGrows(e: E.State, a: E.Action)
    requires E.Enabled(e, a) && E.BySlave(a)
    ensures Grows(e, E.Do(e, a))
  {
    var p := E.LaneOf(e, a.k).slave;
    hide E.DoDoJob, E.DoLock, E.DoDecide, E.DoCallbackReturns, E.DoUnlock, E.DoCompleteOwn, E.DoDeleteOwn;
    match a
    case Get(k) =>
    case ExitLoop(k) =>
    case DoJob(k, failed, found) => JobStepGrows(e, k, p.j, failed, found);
    case Lock(k) => JobStepGrows(e, k, p.j, false, false);
    case Decide(k) => JobStepGrows(e, k, p.j, false, false);
    case CallbackReturns(k) => LeavingStepGrows(e, k, p.j, false);
    case Unlock(k) => LeavingStepGrows(e, k, p.j, p.destroy);
    case Continue(k) =>
    case CompleteOwn(k) => LeavingStepGrows(e, k, p.j, false);
    case DeleteOwn(k) => LeavingStepGrows(e, k, p.j, false);
  }

  lemma MasterGrows(e: E.State, a: E.Action)
    requires E.Enabled(e, a) && !E.BySlave(a)
    ensures Grows(e, E.Do(e, a))
  {
  }

  /** What has been claimed or called back stays so. */
  lemma HistoryGrows(s: State, a: Action)
    requires Inv(s) && Enabled(s, a)
    ensures Grows(s.eng, Do(s, a).eng)
  {
    StepIsEngineStep(s, a);
    var o := EngineStep(s, a);
    hide Inv, Enabled, Do, EngineStep, E.Do, E.Enabled;
    if o.Some? {
      if E.BySlave(o.value) { SlaveGrows(s.eng, o.value); } else { MasterGrows(s.eng, o.value); }
    }
  }

  // ----- what is collected has called back and is claimed -----

  predicate CollectedInv(s: State) {
    Collects(s) ==>
      IsClient(s, s.pc.c) && ClientOf(s, s.pc.c).job in s.eng.claimed && ClientOf(s, s.pc.c).job in s.eng.calls
  }

  lemma CollectedStays(s: State, a: Action)
    requires Inv(s) && Enabled(s, a) && CollectedInv(s)
    ensures CollectedInv(Do(s, a))
  {
    HistoryGrows(s, a);
    if InSlave(a) {
      if Collects(s) { SlaveSpares(s, a, s.pc.c); }
      SlaveKeepsPc(s, a);
      hide Do, Enabled, Inv;
    } else {
      if a.RunL? { RunLFinds(s, a.c); }
      hide Inv;
    }
  }

  lemma SlaveKeepsPc(s: State, a: Action)
    requires Enabled(s, a) && InSlave(a)
    ensures Do(s, a).pc == s.pc
  {
    hide E.Do, E.Enabled;
  }

  lemma {:induction false} CollectedInRun(u: Setup, tr: seq<State>, acts: seq<Action>, i: nat)
    requires IsRun(u, tr, acts) && i < |tr|
    ensures CollectedInv(tr[i])
  {
    hide Inv, Do, Enabled;
    if i > 0 {
      RunsAreSafe(u, tr, acts, i - 1);
      CollectedInRun(u, tr, acts, i - 1);
      CollectedStays(tr[i - 1], acts[i - 1]);
    }
  }

  // ----- at most once -----

  lemma EndsSpends(s: State, a: Action, j: JobId)
    requires Inv(s) && Enabled(s, a) && CollectedInv(s) && Ends(s, a, j)
    ensures Spent(Do(s, a), j)
  {
    hide Inv;
  }

  lemma SpentOverSlave(s: State, a: Action, j: JobId)
    requires Enabled(s, a) && InSlave(a) && Spent(s, j) && Grows(s.eng, Do(s, a).eng)
    ensures Spent(Do(s, a), j)
  {
    SlaveKeepsPc(s, a);
    if !s.pc.AtRest? && IsClient(s, s.pc.c) { SlaveSpares(s, a, s.pc.c); }
    SlaveKeepsClients(s, a);
    hide Do, Enabled;
  }

  lemma SlaveKeepsClients(s: State, a: Action)
    requires Enabled(s, a) && InSlave(a)
    ensures forall c: Cid :: IsClient(Do(s, a), c) <==> IsClient(s, c)
  {
    hide E.Do, E.Enabled;
  }

  lemma SpentOverRunL(s: State, c: Cid, j: JobId)
    requires Inv(s) && Enabled(s, RunL(c)) && Spent(s, j) && Grows(s.eng, Do(s, RunL(c)).eng)
    ensures Spent(Do(s, RunL(c)), j)
  {
    RunLFinds(s, c);
    hide Inv, E.DoBeginResults;
  }

  lemma SpentOverCancel(s: State, j: JobId)
    requires Inv(s) && Enabled(s, CancelJob) && Spent(s, j) && Grows(s.eng, Do(s, CancelJob).eng)
    ensures Spent(Do(s, CancelJob), j)
  {
    CancelJobObeys(s);
    hide Inv;
  }

  lemma SpentOverMaster(s: State, a: Action, j: JobId)
    requires PcInv(s) && Enabled(s, a) && !InSlave(a) && !a.RunL? && !a.CancelJob? && Spent(s, j)
      && Grows(s.eng, Do(s, a).eng)
    ensures Spent(Do(s, a), j)
  {
    hide E.Do, E.Enabled, E.DoConstruct, E.DoPut, E.DoClearError;
  }

  lemma SpentStays(s: State, a: Action, j: JobId)
    requires Inv(s) && Enabled(s, a) && Spent(s, j)
    ensures Spent(Do(s, a), j)
  {
    HistoryGrows(s, a);
    assert PcInv(s);
    hide Inv, PcInv, Spent, Grows, Do, Enabled;
    if InSlave(a) { SpentOverSlave(s, a, j); }
    else if a.RunL? { SpentOverRunL(s, a.c, j); }
    else if a.CancelJob? { SpentOverCancel(s, j); }
    else { SpentOverMaster(s, a, j); }
  }

  lemma SpentEndsNoMore(s: State, a: Action, j: JobId)
    requires Inv(s) && Enabled(s, a) && Spent(s, j)
    ensures !Ends(s, a, j)
  {
    hide I.Inv;
  }

  lemma {:induction false} SpentForGood(u: Setup, tr: seq<State>, acts: seq<Action>, m: nat, n: nat, j: JobId)
    requires IsRun(u, tr, acts) && m < n < |tr| && Ends(tr[m], acts[m], j)
    ensures Spent(tr[n], j)
  {
    hide Inv, Do, Enabled, Ends, Spent, CollectedInv, Start;
    RunsAreSafe(u, tr, acts, n - 1);
    if m + 1 == n {
      CollectedInRun(u, tr, acts, m);
      EndsSpends(tr[m], acts[m], j);
    } else {
      SpentForGood(u, tr, acts, m, n - 1, j);
      SpentStays(tr[n - 1], acts[n - 1], j);
    }
  }

  /** In any run, with whatever cancellations, the message of a request is dealt with at most once. */
  lemma EndsAtMostOnce(u: Setup, tr: seq<State>, acts: seq<Action>, m: nat, n: nat, j: JobId)
    requires IsRun(u, tr, acts) && m < |acts| && n < |acts| && Ends(tr[m], acts[m], j) && Ends(tr[n], acts[n], j)
    ensures m == n
  {
    if m != n {
      var first, last := if m < n then m else n, if m < n then n else m;
      SpentForGood(u, tr, acts, first, last, j);
      RunsAreSafe(u, tr, acts, last);
      SpentEndsNoMore(tr[last], acts[last], j);
    }
  }

  // ----- at least once -----

  lemma StartOpens(s: State)
    requires Enabled(s, Publish)
    ensures Open(Do(s, Publish), s.pc.c, s.pc.j)
  {
  }

  lemma OpenStays(s: State, a: Action, c: Cid, j: JobId)
    requires Inv(s) && Enabled(s, a) && Open(s, c, j) && !Ends(s, a, j)
    ensures Open(Do(s, a), c, j)
  {
    assert PcInv(s) && ClientInv(s, c);
    if InSlave(a) {
      SlaveSpares(s, a, c);
      hide Do, Enabled, Inv, PcInv, ClientInv;
    } else if a.RunL? {
      OpenOverRunL(s, a.c, c, j);
      hide Inv;
    } else {
      OpenOverMaster(s, a, c, j);
      hide Inv;
    }
  }

  lemma OpenOverRunL(s: State, d: Cid, c: Cid, j: JobId)
    requires Inv(s) && Enabled(s, RunL(d)) && Open(s, c, j)
    ensures Open(Do(s, RunL(d)), c, j)
  {
    RunLFinds(s, d);
    hide Inv, E.DoBeginResults;
  }

  lemma OpenOverMaster(s: State, a: Action, c: Cid, j: JobId)
    requires PcInv(s) && IsClient(s, c) && ClientInv(s, c) && Enabled(s, a) && !InSlave(a) && !a.RunL?
      && Open(s, c, j) && !Ends(s, a, j)
    ensures Open(Do(s, a), c, j)
  {
    hide E.Do, E.Enabled, E.DoConstruct, E.DoPut, E.DoBeginCancel, E.DoClearError;
  }

  /** A message that is still to be completed has not been dealt with. */
  lemma OpenIsUnspent(s: State, c: Cid, j: JobId)
    requires Inv(s) && Open(s, c, j)
    ensures !Spent(s, j)
  {
    assert ClientInv(s, c);
    if !s.pc.AtRest? && IsClient(s, s.pc.c) { assert ClientInv(s, s.pc.c); }
    hide I.Inv;
  }

  lemma {:induction false} OpenUntilEnd(u: Setup, tr: seq<State>, acts: seq<Action>, i: nat, n: nat)
    requires IsRun(u, tr, acts) && i < n < |tr| && acts[i].Publish?
    requires forall m | i < m < n :: !Ends(tr[m], acts[m], tr[i].pc.j)
    ensures tr[i].pc.Publishing? && Open(tr[n], tr[i].pc.c, tr[i].pc.j)
  {
    hide Inv, Do, Ends, Open, Start;
    assert Enabled(tr[i], acts[i]);
    if n == i + 1 {
      StartOpens(tr[i]);
    } else {
      OpenUntilEnd(u, tr, acts, i, n - 1);
      RunsAreSafe(u, tr, acts, n - 1);
      hide Enabled;
      OpenStays(tr[n - 1], acts[n - 1], tr[i].pc.c, tr[i].pc.j);
    }
  }

  // ----- cancellations -----

  lemma CancelsGrow(s: State, a: Action)
    requires Inv(s) && Enabled(s, a)
    ensures s.cancels <= Do(s, a).cancels
    ensures forall j: JobId :: Revokes(s, a, j) || Silences(s, a, j) ==> Do(s, a).cancels > 0
  {
    if InSlave(a) { SlaveKeepsCancels(s, a); } else { assert PcInv(s); }
    hide Inv;
  }

  lemma SlaveKeepsCancels(s: State, a: Action)
    requires Enabled(s, a) && InSlave(a)
    ensures Do(s, a).cancels == s.cancels
  {
    hide E.Do, E.Enabled;
  }

  lemma {:induction false} NoCancelSoFar(u: Setup, tr: seq<State>, acts: seq<Action>, m: nat, n: nat)
    requires IsRun(u, tr, acts) && m < n < |tr| && tr[n].cancels == 0
    ensures forall j: JobId :: !Revokes(tr[m], acts[m], j) && !Silences(tr[m], acts[m], j)
    ensures tr[m + 1].cancels == 0
  {
    hide Inv, Do, Enabled, Revokes, Silences, Start;
    RunsAreSafe(u, tr, acts, n - 1);
    CancelsGrow(tr[n - 1], acts[n - 1]);
    if m + 1 < n { NoCancelSoFar(u, tr, acts, m, n - 1); }
  }

  // ----- the whole account -----

  /**
   From the Start of a request on, its message is still to be completed, or there is exactly one
   step of the run that has dealt with it. Without CancelAll this step is the end of
   HandleAsyncronizerComplete, which comes after the callback of the job.
  */
  lemma EveryMessageEndsOnce(u: Setup, tr: seq<State>, acts: seq<Action>, i: nat, n: nat)
    requires IsRun(u, tr, acts) && i < n < |tr| && acts[i].Publish?
    ensures tr[i].pc.Publishing?
    ensures var j := tr[i].pc.j;
      (exists m :: i < m < n && Ends(tr[m], acts[m], j)) <==> !Open(tr[n], tr[i].pc.c, j)
    ensures var j := tr[i].pc.j;
      forall m, m' | i < m < n && 0 <= m' < |acts| && Ends(tr[m], acts[m], j) && Ends(tr[m'], acts[m'], j) :: m' == m
    ensures var j := tr[i].pc.j;
      tr[n].cancels == 0 ==> forall m | i < m < n && Ends(tr[m], acts[m], j) ::
        Completes(tr[m], acts[m], j) && j in tr[m].eng.calls
  {
    assert Enabled(tr[i], acts[i]);
    var j := tr[i].pc.j;
    hide Inv, Do, Enabled, Start, Open, Spent, Completes, Revokes, Silences;
    if m :| i < m < n && Ends(tr[m], acts[m], j) {
      SpentForGood(u, tr, acts, m, n, j);
      RunsAreSafe(u, tr, acts, n);
      if Open(tr[n], tr[i].pc.c, j) { OpenIsUnspent(tr[n], tr[i].pc.c, j); }
    } else {
      OpenUntilEnd(u, tr, acts, i, n);
    }
    forall m, m' | i < m < n && 0 <= m' < |acts| && Ends(tr[m], acts[m], j) && Ends(tr[m'], acts[m'], j)
      ensures m' == m
    {
      EndsAtMostOnce(u, tr, acts, m, m', j);
    }
    if tr[n].cancels == 0 {
      forall m | i < m < n && Ends(tr[m], acts[m], j) ensures Completes(tr[m], acts[m], j) && j in tr[m].eng.calls {
        NoCancelSoFar(u, tr, acts, m, n);
        CollectedInRun(u, tr, acts, m);
        CompletedWasCalled(tr[m], acts[m], j);
      }
    }
  }

  lemma CompletedWasCalled(s: State, a: Action, j: JobId)
    requires CollectedInv(s) && Completes(s, a, j)
    ensures j in s.eng.calls
  {
  }

  /**
   RunL tells the observer once and forgets it, clears the flag, ends the request, and begins to
   collect the results of exactly the job the request waited for; no other client object is touched.
  */
  lemma RunLMeans(s: State, c: Cid)
    requires Inv(s) && Enabled(s, RunL(c))
    ensures var s', x, y := Do(s, RunL(c)), ClientOf(s, c), ClientOf(Do(s, RunL(c)), c);
      && y == Client(false, x.job, false, x.status, false, false, x.starts, x.notified + 1, x.silenced)
      && s'.pc == Collecting(c) && s'.eng.master == E.ResultsFound(c.k, x.job)
      && forall d: Cid | IsClient(s, d) && d != c :: IsClient(s', d) && ClientOf(s', d) == ClientOf(s, d)
  {
    RunLFinds(s, c);
    hide Inv;
  }

  /**
   The observer is told by RunL only when the callback of the job has done its work, and for as long
   as the job is in its queue: the call that follows collects its results.
  */
  lemma NotifiedAfterCallback(u: Setup, tr: seq<State>, acts: seq<Action>, i: nat, j: JobId)
    requires IsRun(u, tr, acts) && i < |acts| && Notifies(tr[i], acts[i], j)
    ensures var k := acts[i].c.k;
      CallDone(tr[i], k, j) && j in E.LaneOf(tr[i].eng, k).started && tr[i + 1].pc == Collecting(acts[i].c)
  {
    RunsAreSafe(u, tr, acts, i);
    RunLFinds(tr[i], acts[i].c);
    hide Inv;
  }
}
