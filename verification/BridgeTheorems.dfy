/** What holds over every run of the bridge. */
module BridgeTheorems {
  import opened Options
  import E = AsyncEngine
  import I = AsyncInvariant
  import Engine = AsyncTheorems
  import opened AsyncBridge
  import opened BridgeInvariant
  import opened BridgeSafety

  /** The queue capacities and the numbers of client objects. */
  datatype Setup = Setup(idxCapacity: nat, qryCapacity: nat, idxClients: nat, qryClients: nat)

  function Start(u: Setup): State { Init(u.idxCapacity, u.qryCapacity, u.idxClients, u.qryClients) }

  function Capacity(u: Setup, k: Kind): nat { if k.Idx? then u.idxCapacity else u.qryCapacity }

  function Clients(u: Setup, k: Kind): nat { if k.Idx? then u.idxClients else u.qryClients }

  ghost predicate IsRun(u: Setup, tr: seq<State>, acts: seq<Action>) {
    && |tr| == |acts| + 1
    && tr[0] == Start(u)
    && (forall i | 0 <= i < |acts| :: Enabled(tr[i], acts[i]) && tr[i + 1] == Do(tr[i], acts[i]))
  }

  lemma InitIsInv(u: Setup)
    ensures Inv(Start(u))
  {
    Engine.InitIsInv(u.idxCapacity, u.qryCapacity);
  }

  lemma {:induction false} RunsAreSafe(u: Setup, tr: seq<State>, acts: seq<Action>, i: nat)
    requires IsRun(u, tr, acts) && i < |tr|
    ensures Inv(tr[i])
  {
    if i == 0 {
      InitIsInv(u);
    } else {
      RunsAreSafe(u, tr, acts, i - 1);
      StepKeepsInv(tr[i - 1], acts[i - 1]);
    }
  }

  // ----- the bridge refines the engine -----

  ghost predicate EngineReaches(e: E.State) {
    exists tr: seq<E.State>, acts: seq<E.Action> :: Engine.IsRun(tr, acts) && tr[|tr| - 1] == e
  }

  lemma EngineGoesOn(e: E.State, o: Option<E.Action>, e': E.State)
    requires EngineReaches(e) && MovesBy(e, o, e')
    ensures EngineReaches(e')
  {
    if o.Some? {
      var tr: seq<E.State>, acts: seq<E.Action> :| Engine.IsRun(tr, acts) && tr[|tr| - 1] == e;
      var tr', acts' := tr + [e'], acts + [o.value];
      hide MovesBy, E.Enabled, E.Do, E.Obeys;
      MoveIs(e, o.value, e');
      assert Engine.IsRun(tr', acts') by {
        hide E.Init;
      }
    }
  }

  lemma MoveIs(e: E.State, a: E.Action, e': E.State)
    requires MovesBy(e, Some(a), e')
    ensures E.Enabled(e, a) && E.Obeys(e, a) && e' == E.Do(e, a)
  {
  }

  /** Forgetting the bridge turns each of its runs into a run of the engine whose client obeys the rules. */
  lemma {:induction false} RunsAreEngineRuns(u: Setup, tr: seq<State>, acts: seq<Action>, i: nat)
    requires IsRun(u, tr, acts) && i < |tr|
    ensures EngineReaches(tr[i].eng)
  {
    if i == 0 {
      assert Engine.IsRun([tr[0].eng], []);
    } else {
      RunsAreEngineRuns(u, tr, acts, i - 1);
      RunsAreSafe(u, tr, acts, i - 1);
      StepIsEngineStep(tr[i - 1], acts[i - 1]);
      EngineGoesOn(tr[i - 1].eng, EngineStep(tr[i - 1], acts[i - 1]), tr[i].eng);
    }
  }

  /** No two client objects collect into the same wrapper. */
  lemma WrappersDiffer(c: Cid, d: Cid)
    requires c != d
    ensures WrapperOf(c) != WrapperOf(d)
  {
  }

  // ----- no completion is lost -----

  /** The master is cancelling the request of client object c. */
  predicate BeingCancelled(s: State, c: Cid) { Cancelling(s.pc) && s.pc.c == c }

  /**
   When the callback compares ids, the client object waits for exactly the job that calls back,
   even if the job finished before the submitting call returned; and unless that request is
   being cancelled, its asyncronizer is active, its status is pending and its observer is set.
  */
  lemma NoCompletionIsLost(u: Setup, tr: seq<State>, acts: seq<Action>, i: nat, k: Kind)
    requires IsRun(u, tr, acts) && i < |tr|
    requires InCallback(tr[i], k) && !SideOf(tr[i], k).cb.Entering?
    ensures var s := tr[i];
      && HasCookie(s, k)
      && (var c := CalledClient(s, k);
          && ClientOf(s, c).busy && ClientOf(s, c).job == CalledJob(s, k)
          && (!BeingCancelled(s, c) ==>
            ClientOf(s, c).active && ClientOf(s, c).status.Pending? && ClientOf(s, c).observer))
  {
    RunsAreSafe(u, tr, acts, i);
    assert CbInv(tr[i], k) by { assert k == E.Idx || k == E.Qry; }
    assert ClientInv(tr[i], CalledClient(tr[i], k));
  }

  // ----- notifications -----

  /** A request is outstanding until its observer is notified or silenced. */
  predicate Outstanding(x: Client) { x.active && x.observer }

  /**
   Every successful Start is accounted for by one notification, or by one cancellation without
   notification, or it is the one outstanding request; without CancelAll there is no third case.
  */
  lemma EveryStartIsAccountedFor(u: Setup, tr: seq<State>, acts: seq<Action>, i: nat, c: Cid)
    requires IsRun(u, tr, acts) && i < |tr| && IsClient(tr[i], c)
    ensures var x := ClientOf(tr[i], c);
      && x.starts == x.notified + x.silenced + (if Outstanding(x) then 1 else 0)
      && (tr[i].cancels == 0 ==> x.silenced == 0)
  {
    RunsAreSafe(u, tr, acts, i);
    assert ClientInv(tr[i], c);
  }
}
