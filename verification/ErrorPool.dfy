/**
 Error objects (cpixerror.cpp over cpixsyncpool.h): errors of asynchronous calls come from a pool,
 those of synchronous calls are all the one static SyncErrorInfo. An ErrorInfo is named by a number.
*/
module ErrorPool {
  import opened Options

  type Ref = nat

  const SYNC_ERROR_INFO: Ref := 0
  const MIN_ERRORINFO_COUNT := 2
  const ERRORMSG_BUFSIZE := 256

  datatype Info = Info(type_: int, msg: Option<string>)

  /** The free and the used items of the pool, and what every ErrorInfo object says. */
  datatype Pool = Pool(free: seq<Ref>, used: set<Ref>, next: Ref, infos: map<Ref, Info>)

  /** The message is copied into a fixed buffer: as much of its beginning as fits with the final zero. */
  function Clipped(msg: Option<string>): (r: Option<string>)
    ensures r.None? <==> msg.None?
    ensures r.Some? ==> r.value <= msg.value && |r.value| == if |msg.value| < 256 then |msg.value| else 255
  {
    if msg.Some? && |msg.value| >= ERRORMSG_BUFSIZE then Some(msg.value[..ERRORMSG_BUFSIZE - 1]) else msg
  }

  // ----- the pool -----

  /** SyncPool::acquire: the oldest free item, or a new one. */
  function Acquired(p: Pool): (Pool, Ref) {
    if p.free != [] then (p.(free := p.free[1..], used := p.used + {p.free[0]}), p.free[0])
    else (p.(used := p.used + {p.next}, next := p.next + 1), p.next)
  }

  /** SyncPool::release: an item that is not in use is refused with an exception. */
  function Released(p: Pool, r: Ref): Option<Pool> {
    if r !in p.used then None
    else if |p.free| == MIN_ERRORINFO_COUNT then Some(p.(used := p.used - {r}, infos := p.infos - {r}))
    else Some(p.(used := p.used - {r}, free := p.free + [r]))
  }

  /** CreateError in a slave thread or in another one. */
  function Created(p: Pool, isSlaveThread: bool, type_: int, msg: Option<string>): (Pool, Ref) {
    var (q, r) := if isSlaveThread then Acquired(p) else (p, SYNC_ERROR_INFO);
    (q.(infos := q.infos[r := Info(type_, Clipped(msg))]), r)
  }

  /** cpix_Error_destroy. */
  function Destroyed(p: Pool, r: Ref): Option<Pool> { if r == SYNC_ERROR_INFO then Some(p) else Released(p, r) }

  ghost predicate Proper(p: Pool) {
    && (forall i, j | 0 <= i < j < |p.free| :: p.free[i] != p.free[j])
    && |p.free| <= MIN_ERRORINFO_COUNT
    && (forall r | r in p.free :: r !in p.used && SYNC_ERROR_INFO < r < p.next)
    && (forall r | r in p.used :: SYNC_ERROR_INFO < r < p.next)
    && SYNC_ERROR_INFO < p.next
    && p.used <= p.infos.Keys
  }

  const FRESH_POOL := Pool([], {}, 1, map[SYNC_ERROR_INFO := Info(0, None)])

  /** An error created by a slave thread is nobody else's, and creating it disturbs no other error of the pool. */
  lemma SlaveErrorsArePrivate(p: Pool, type_: int, msg: Option<string>)
    requires Proper(p)
    ensures var (q, r) := Created(p, true, type_, msg);
      && Proper(q) && r !in p.used && r != SYNC_ERROR_INFO && q.used == p.used + {r}
      && q.infos[r] == Info(type_, Clipped(msg))
      && (forall u | u in p.used :: q.infos[u] == p.infos[u])
  {
    if p.free != [] {
      var rest := p.free[1..];
      assert forall i | 0 <= i < |rest| :: rest[i] == p.free[i + 1];
    }
  }

  /** An error is released exactly when it is in use; a second release of it is refused. */
  lemma ReleasedOnce(p: Pool, r: Ref)
    requires Proper(p) && r != SYNC_ERROR_INFO
    ensures Destroyed(p, r).Some? <==> r in p.used
    ensures r in p.used ==> var q := Destroyed(p, r).value;
      && Proper(q) && q.used == p.used - {r} && Destroyed(q, r).None?
      && (forall u | u in q.used :: q.infos[u] == p.infos[u])
  {
  }

  /** With nothing free a new item is made; an item given back to the empty pool is the next to be handed out. */
  lemma AcquiredAgain(p: Pool, r: Ref)
    requires Proper(p) && p.free == []
    ensures Acquired(p).1 == p.next && Acquired(p).1 !in p.used && Acquired(p).0.next == p.next + 1
    ensures r in p.used ==> var q := Released(p, r).value; Acquired(q).1 == r && Acquired(q).0.free == []
  {
  }

  /** The pool hands out the item that was given back first, and keeps two: a third one is deleted with its text. */
  lemma ReleasedInOrder(p: Pool, a: Ref, b: Ref, c: Ref)
    requires Proper(p) && p.free == [] && a in p.used && b in p.used && c in p.used && a != b && b != c && a != c
    ensures var q := Released(Released(p, a).value, b).value;
      && Acquired(q).1 == a && Acquired(Acquired(q).0).1 == b
      && a in q.infos && b in q.infos
      && Released(q, c).Some? && Released(q, c).value.free == q.free && c !in Released(q, c).value.infos
      && Released(q, c).value.used == p.used - {a, b, c}
  {
  }

  /** Destroying takes an error out of use; one that is refused, or of the static error, leaves the pool as it is. */
  lemma DestroyMeans(p: Pool, r: Ref)
    requires Proper(p)
    ensures r in p.used ==> After(p, Destroy(r)).used == p.used - {r} && |After(p, Destroy(r)).free| <= 2
    ensures r !in p.used && r != SYNC_ERROR_INFO ==> After(p, Destroy(r)) == p
    ensures After(p, Destroy(SYNC_ERROR_INFO)) == p
  {
  }

  // ----- over any number of calls -----

  datatype Op = Create(isSlaveThread: bool, type_: int, msg: Option<string>) | Destroy(r: Ref)

  /** A refused release leaves the pool as it is. */
  function After(p: Pool, op: Op): Pool {
    match op
    case Create(isSlaveThread, type_, msg) => Created(p, isSlaveThread, type_, msg).0
    case Destroy(r) => if Destroyed(p, r).Some? then Destroyed(p, r).value else p
  }

  function AfterAll(p: Pool, ops: seq<Op>): Pool {
    if ops == [] then p else After(AfterAll(p, ops[..|ops| - 1]), ops[|ops| - 1])
  }

  lemma StepKeepsError(p: Pool, op: Op, r: Ref)
    requires Proper(p) && (r in p.used ==> op != Destroy(r))
    ensures Proper(After(p, op))
    ensures r in p.used ==> r in After(p, op).used && After(p, op).infos[r] == p.infos[r]
  {
    match op
    case Create(isSlaveThread, type_, msg) => if isSlaveThread { SlaveErrorsArePrivate(p, type_, msg); }
    case Destroy(d) => if d != SYNC_ERROR_INFO { ReleasedOnce(p, d); }
  }

  lemma {:induction false} AllKeepError(p: Pool, ops: seq<Op>, r: Ref)
    requires Proper(p) && r in p.used && Destroy(r) !in ops
    ensures var q := AfterAll(p, ops); Proper(q) && r in q.used && q.infos[r] == p.infos[r]
  {
    if ops != [] {
      AllKeepError(p, ops[..|ops| - 1], r);
      hide Proper, After;
      StepKeepsError(AfterAll(p, ops[..|ops| - 1]), ops[|ops| - 1], r);
    }
  }

  /** What a slave thread reported stays readable until the client destroys the error, whatever else happens. */
  lemma SlaveErrorKeepsItsText(p: Pool, type_: int, msg: Option<string>, ops: seq<Op>)
    requires Proper(p)
    requires Destroy(Created(p, true, type_, msg).1) !in ops
    ensures var (q, r) := Created(p, true, type_, msg);
      r in AfterAll(q, ops).infos && AfterAll(q, ops).infos[r] == Info(type_, Clipped(msg))
  {
    SlaveErrorsArePrivate(p, type_, msg);
    var (q, r) := Created(p, true, type_, msg);
    AllKeepError(q, ops, r);
  }

  predicate CreatesSync(op: Op) { op.Create? && !op.isSlaveThread }

  /** What the last synchronous call among these reported, or what was there before. */
  function LastReport(before: Info, ops: seq<Op>): (r: Info)
    ensures (forall op | op in ops :: !CreatesSync(op)) ==> r == before
    ensures forall k | 0 <= k < |ops| && CreatesSync(ops[k]) && (forall j | k < j < |ops| :: !CreatesSync(ops[j])) ::
      r == Info(ops[k].type_, Clipped(ops[k].msg))
  {
    if ops == [] then before else
    var last := ops[|ops| - 1];
    if CreatesSync(last) then Info(last.type_, Clipped(last.msg))
    else
      var rest := ops[..|ops| - 1];
      assert ops == rest + [last];
      assert forall k | 0 <= k < |rest| :: rest[k] == ops[k];
      LastReport(before, rest)
  }

  /**
   The error of a synchronous call is shared by all of them: after any operations it says what the
   last synchronous call reported, so it keeps its text exactly as long as that is the same.
  */
  lemma {:induction false} SyncErrorIsShared(p: Pool, type_: int, msg: Option<string>, ops: seq<Op>)
    requires Proper(p)
    ensures var (q, r) := Created(p, false, type_, msg);
      && r == SYNC_ERROR_INFO && Proper(AfterAll(q, ops)) && r in AfterAll(q, ops).infos
      && AfterAll(q, ops).infos[r] == LastReport(Info(type_, Clipped(msg)), ops)
  {
    if ops != [] {
      var (q, _) := Created(p, false, type_, msg);
      var before, op := AfterAll(q, ops[..|ops| - 1]), ops[|ops| - 1];
      SyncErrorIsShared(p, type_, msg, ops[..|ops| - 1]);
      if op.Create? && op.isSlaveThread { SlaveErrorsArePrivate(before, op.type_, op.msg); }
      if op.Destroy? && op.r != SYNC_ERROR_INFO { ReleasedOnce(before, op.r); }
      hide LastReport;
    }
  }

  // ----- the pool as an object -----

  class ErrorInfoPool {
    var free: seq<Ref>           // freeItems_
    var used: set<Ref>           // usedItems_
    var next: Ref
    var infos: map<Ref, Info>

    function View(): Pool
      reads this
    {
      Pool(free, used, next, infos)
    }

    constructor ()
      ensures View() == FRESH_POOL && Proper(View())
    {
      free, used, next, infos := [], {}, 1, map[SYNC_ERROR_INFO := Info(0, None)];
    }

    method Acquire() returns (r: Ref)
      modifies this
      ensures (View(), r) == Acquired(old(View()))
    {
      if free != [] {
        r := free[0];
        free := free[1..];
      } else {
        r := next;
        next := next + 1;
      }
      used := used + {r};
    }

    method Release(r: Ref) returns (ok: bool)
      modifies this
      ensures ok == Released(old(View()), r).Some?
      ensures View() == if ok then Released(old(View()), r).value else old(View())
    {
      if r !in used { return false; }
      used := used - {r};
      if |free| == MIN_ERRORINFO_COUNT { infos := infos - {r}; } else { free := free + [r]; }
      ok := true;
    }

    method CreateError(isSlaveThread: bool, type_: int, msg: Option<string>) returns (r: Ref)
      modifies this
      ensures (View(), r) == Created(old(View()), isSlaveThread, type_, msg)
    {
      if isSlaveThread { r := Acquire(); } else { r := SYNC_ERROR_INFO; }
      infos := infos[r := Info(type_, Clipped(msg))];
    }

    method DestroyError(r: Ref) returns (ok: bool)
      modifies this
      ensures ok == Destroyed(old(View()), r).Some?
      ensures View() == if ok then Destroyed(old(View()), r).value else old(View())
    {
      ok := true;
      if r != SYNC_ERROR_INFO { ok := Release(r); }
    }
  }
}
