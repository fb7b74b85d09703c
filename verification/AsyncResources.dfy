/**
 Conservation of what jobs and client own: handle references, pooled errors, search results.
*/
module AsyncResources {
  import opened Options
  import opened AsyncEngine
  import opened AsyncInvariant

  /** Nothing changes in who owns what job i made. */
  ghost predicate SameOwner(s: State, s': State, i: JobId) {
    && JobErr(s', i) == JobErr(s, i)
    && JobHits(s', i) == JobHits(s, i)
    && (i in s'.res.errors <==> i in s.res.errors)
    && (i in s'.res.slots.Values <==> i in s.res.slots.Values)
    && (i in s'.res.hits <==> i in s.res.hits)
    && (i in s'.res.clientHits <==> i in s.res.clientHits)
    && (i in s.calls ==> i in s'.calls)
  }

  /** The same jobs are alive, on the same handles. */
  ghost predicate SameHandles(s: State, s': State) {
    s'.jobs.Keys == s.jobs.Keys && forall j | j in s.jobs :: s'.jobs[j].handle == s.jobs[j].handle
  }

  lemma CountsKept(s: State, s': State)
    requires forall h: Handle :: Counted(s, h)
    requires SameHandles(s, s') && s'.res.refs == s.res.refs && s'.res.opens == s.res.opens
    ensures forall h: Handle :: Counted(s', h)
  {
    forall h: Handle ensures Counted(s', h) {
      assert Counted(s, h);
      assert JobsOn(s'.jobs, h) == JobsOn(s.jobs, h);
    }
  }

  lemma OwnersKept(s: State, s': State, j: JobId)
    requires (forall i: JobId :: OneOwner(s, i)) && OneOwner(s', j)
    requires forall i: JobId | i != j :: SameOwner(s, s', i)
    ensures forall i: JobId :: OneOwner(s', i)
  {
    forall i: JobId ensures OneOwner(s', i) {
      if i != j { assert OneOwner(s, i) && SameOwner(s, s', i); }
    }
  }

  /** A step that moves nothing that is owned. */
  ghost predicate MovesNothing(s: State, s': State) {
    && s'.res == s.res
    && SameHandles(s, s')
    && (forall j | j in s.jobs :: s'.jobs[j].err == s.jobs[j].err && s'.jobs[j].hits == s.jobs[j].hits)
    && (forall j | j in s.calls :: j in s'.calls)
  }

  lemma MovingNothingConserves(s: State, s': State)
    requires Conserved(s) && MovesNothing(s, s')
    ensures Conserved(s')
  {
    CountsKept(s, s');
    forall i: JobId ensures OneOwner(s', i) { assert OneOwner(s, i) && SameOwner(s, s', i); }
  }

  lemma ConstructConserves(s: State, k: Kind, h: Option<Handle>)
    requires Control(s) && Conserved(s)
    ensures Conserved(DoConstruct(s, k, h))
  {
    var s' := DoConstruct(s, k, h);
    var n := s.nextId;
    assert JobInv(s, n);
    forall g: Handle ensures Counted(s', g) {
      assert Counted(s, g);
      assert n !in s.jobs;
      if h == Some(g) {
        assert JobsOn(s'.jobs, g) == JobsOn(s.jobs, g) + {n};
      } else {
        assert JobsOn(s'.jobs, g) == JobsOn(s.jobs, g);
      }
    }
    assert OneOwner(s, n);
    OwnersKept(s, s', n);
  }

  /** Job j acquires an error, or hits, or both, that nobody has yet. */
  lemma AcquiringConserves(s: State, s': State, j: JobId, failed: bool, hits: bool)
    requires Conserved(s) && j in s.jobs && !s.jobs[j].err && !s.jobs[j].hits && j !in s.calls
    requires s'.jobs == s.jobs[j := s.jobs[j].(err := failed, hits := hits)] && s'.calls == s.calls
    requires s'.res == s.res.(errors := s'.res.errors, hits := s'.res.hits)
    requires s'.res.errors == if failed then s.res.errors + {j} else s.res.errors
    requires s'.res.hits == if hits then s.res.hits + {j} else s.res.hits
    ensures Conserved(s')
    ensures j !in s.res.errors && j !in s.res.hits
  {
    assert OneOwner(s, j);
    CountsKept(s, s');
    OwnersKept(s, s', j);
  }

  lemma DoJobConserves(s: State, k: Kind, j: JobId, failed: bool, found: bool)
    requires Conserved(s) && j in s.jobs && !s.jobs[j].err && !s.jobs[j].hits && j !in s.calls
    ensures Conserved(DoDoJob(s, k, j, failed, found))
    ensures DoDoJob(s, k, j, failed, found).fault == s.fault
  {
    AcquiringConserves(s, DoDoJob(s, k, j, failed, found), j, failed, found && k.Qry?);
  }

  lemma DeleteCounts(s: State, j: JobId, h: Handle)
    requires j in s.jobs && Counted(s, h)
    ensures Counted(Delete(s, j), h)
  {
    var s' := Delete(s, j);
    assert j !in s'.jobs;
    if s.jobs[j].handle == Some(h) {
      assert JobsOn(s.jobs, h) == JobsOn(s'.jobs, h) + {j};
    } else {
      assert JobsOn(s.jobs, h) == JobsOn(s'.jobs, h);
    }
  }

  lemma DeleteConserves(s: State, j: JobId)
    requires Conserved(s) && j in s.jobs && !s.jobs[j].locked
    ensures Conserved(Delete(s, j))
    ensures Delete(s, j).fault == s.fault
  {
    var s' := Delete(s, j);
    forall h: Handle ensures Counted(s', h) { assert Counted(s, h); DeleteCounts(s, j, h); }
    assert OneOwner(s, j);
    OwnersKept(s, s', j);
  }

  lemma SlotFilled(m: map<Wrapper, JobId>, w: Wrapper, j: JobId)
    requires w !in m && OneSlotEach(m) && j !in m.Values
    ensures OneSlotEach(m[w := j])
    ensures m[w := j].Values == m.Values + {j}
  {
    var m' := m[w := j];
    assert m'[w] == j;
    forall i | i in m.Values ensures i in m'.Values {
      var v :| v in m && m[v] == i;
      assert m'[v] == i;
    }
  }

  lemma SlotEmptied(m: map<Wrapper, JobId>, w: Wrapper)
    requires w in m && OneSlotEach(m)
    ensures OneSlotEach(m - {w})
    ensures (m - {w}).Values == m.Values - {m[w]}
  {
    var m' := m - {w};
    forall i ensures i in m'.Values <==> i in m.Values && i != m[w] {
      if i in m.Values && i != m[w] {
        var v :| v in m && m[v] == i;
        assert m'[v] == i;
      }
      if i in m'.Values {
        var v :| v in m' && m'[v] == i;
        assert m[v] == i;
      }
    }
  }

  lemma TakeResultsConserves(s: State, k: Kind, j: JobId, w: Wrapper)
    requires Conserved(s) && j in s.jobs && j in s.calls && w !in s.res.slots
    ensures Conserved(DoTakeResults(s, k, j, w))
  {
    var s' := DoTakeResults(s, k, j, w);
    assert OneOwner(s, j);
    CountsKept(s, s');
    if s.jobs[j].err {
      SlotFilled(s.res.slots, w, j);
    } else {
      assert s.res.slots - {w} == s.res.slots;
    }
    OwnersKept(s, s', j);
  }

  lemma ClearErrorConserves(s: State, w: Wrapper)
    requires Conserved(s) && w in s.res.slots
    ensures Conserved(DoClearError(s, w))
    ensures DoClearError(s, w).fault == s.fault
  {
    var s' := DoClearError(s, w);
    var j := s.res.slots[w];
    assert OneOwner(s, j);
    SlotEmptied(s.res.slots, w);
    CountsKept(s, s');
    OwnersKept(s, s', j);
  }

  lemma DestroyHitsConserves(s: State, j: JobId)
    requires Conserved(s) && j in s.res.clientHits
    ensures Conserved(DoDestroyHits(s, j))
    ensures DoDestroyHits(s, j).fault == s.fault
  {
    assert OneOwner(s, j);
    CountsKept(s, DoDestroyHits(s, j));
    OwnersKept(s, DoDestroyHits(s, j), j);
  }

  lemma CountConserves(s: State, h: Handle, d: int)
    requires Conserved(s)
    ensures Conserved(DoCount(s, h, d))
  {
    var s' := DoCount(s, h, d);
    forall g: Handle ensures Counted(s', g) { assert Counted(s, g); }
    forall i: JobId ensures OneOwner(s', i) { assert OneOwner(s, i); }
  }

  /**
   Collecting into a wrapper whose previous error was not cleared loses that error object: it
   stays out of the pool with no owner. Clearing it first is exactly what conservation needs.
  */
  lemma CollectingConservesIff(s: State, k: Kind, j: JobId, w: Wrapper)
    requires Conserved(s) && j in s.jobs && j in s.calls
    ensures Conserved(DoTakeResults(s, k, j, w)) <==> w !in s.res.slots
  {
    if w in s.res.slots {
      var s' := DoTakeResults(s, k, j, w);
      var lost := s.res.slots[w];
      assert OneOwner(s, j) && OneOwner(s, lost);
      SlotEmptied(s.res.slots, w);
      assert !OneOwner(s', lost);
    } else {
      TakeResultsConserves(s, k, j, w);
    }
  }
}
