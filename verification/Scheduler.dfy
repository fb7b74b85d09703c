/**
 The harvesting queue of CIndexingManager: records, the RunL that starts at most one harvester and
 corrects for clock jumps, and what plug-ins may do to the queue. Times are in microseconds.
*/
module Scheduler {
  import opened Options
  import opened Wire

  datatype Status = Waiting | Hibernate | Running

  datatype Record = Record(plugin: Option<nat>, name: Text, error: Int32, status: Status, lastStart: int,
    lastComplete: int)

  /** EStateNone, EStateCancelling, EStateRunning. */
  datatype ManagerState = Idle | Cancelling | Active

  const MINUTE := 60_000_000
  const DAY := 24 * 60 * MINUTE
  const WEEK := 7 * DAY

  const KMIN_TIME_DIFFERENCE := 0
  const KMAX_TIME_DIFFERENCE := 2

  // ----- the clock -----

  /** Division of a TInt64: towards zero. */
  function Quotient(a: int, b: int): int
    requires b > 0
  {
    if a >= 0 then a / b else -(-a / b)
  }

  /** TTime::MinutesFrom: whole minutes from `from` to `to`, unless they do not fit into a TInt. */
  function MinutesFrom(to: int, from: int): Option<int> {
    var m := Quotient(to - from, MINUTE);
    if -0x8000_0000 <= m < 0x8000_0000 then Some(m) else None
  }

  /** RunL takes the system time for changed. */
  predicate Jumped(previous: int, now: int) {
    var m := MinutesFrom(now, previous);
    m.Some? && previous != 0 && (m.value < KMIN_TIME_DIFFERENCE || m.value > KMAX_TIME_DIFFERENCE)
  }

  /** By how much RunL shifts the times of all records. */
  function Shift(previous: int, now: int): int {
    if Jumped(previous, now) then MinutesFrom(now, previous).value * MINUTE else 0
  }

  lemma QuotientIsClose(a: int, b: int)
    requires b > 0
    ensures -b < a - Quotient(a, b) * b < b
  {
  }

  /**
   A record is as old at this run as it was at the previous one, to within less than a minute, if
   and only if RunL corrects for a jump of the clock or less than a minute has passed on it.
  */
  lemma AgeIsKeptIff(previous: int, now: int, t: int)
    ensures var before, after := previous - t, now - (t + Shift(previous, now));
      -MINUTE < after - before < MINUTE <==> Jumped(previous, now) || -MINUTE < now - previous < MINUTE
  {
    if Jumped(previous, now) { QuotientIsClose(now - previous, MINUTE); }
  }

  /** Whole minutes, towards zero, of sixty million microseconds each; there is no answer beyond a TInt of 32 bits. */
  lemma MinutesFromIff(to: int, from: int, m: int)
    ensures MinutesFrom(to, from) == Some(m) <==>
      && -0x8000_0000 <= m <= 0x7FFF_FFFF
      && (if to >= from then 0 <= (to - from) - m * 60_000_000 < 60_000_000
          else -60_000_000 < (to - from) - m * 60_000_000 <= 0)
  {
  }

  /**
   The clock is left alone exactly at the first run, over a time that has no answer in minutes, and
   from less than a minute back to less than three minutes ahead.
  */
  lemma JumpedIff(previous: int, now: int)
    ensures Jumped(previous, now) <==>
      && previous != 0 && MinutesFrom(now, previous) != None
      && (now - previous <= -60_000_000 || now - previous >= 3 * 60_000_000)
  {
  }

  // ----- records -----

  predicate Due(r: Record, now: int) {
    r.plugin.Some? && r.status.Waiting? && (r.lastComplete > now || r.lastComplete < now - WEEK)
  }

  predicate AnyRunning(rs: seq<Record>) { exists i :: 0 <= i < |rs| && rs[i].status.Running? }

  ghost predicate AtMostOneRunning(rs: seq<Record>) {
    forall i, j | 0 <= i < |rs| && 0 <= j < |rs| && rs[i].status.Running? && rs[j].status.Running? :: i == j
  }

  ghost predicate UniqueNames(rs: seq<Record>) {
    forall i, j | 0 <= i < |rs| && 0 <= j < |rs| && rs[i].name == rs[j].name :: i == j
  }

  ghost predicate Orderly(rs: seq<Record>) { AtMostOneRunning(rs) && UniqueNames(rs) }

  // ----- what the operations do to the queue -----

  function ShiftedBy(rs: seq<Record>, d: int): (r: seq<Record>)
    ensures |r| == |rs|
  {
    seq(|rs|, i requires 0 <= i < |rs| => rs[i].(lastStart := rs[i].lastStart + d,
      lastComplete := rs[i].lastComplete + d))
  }

  /** StartHarvestingL: the error it leaves with, by name; a name without an entry starts. */
  type Outcomes = map<Text, Int32>

  predicate Starts(o: Outcomes, name: Text) { name !in o || o[name] == 0 }

  function Failed(r: Record, error: Int32, later: int): Record {
    r.(status := Hibernate, error := error, lastStart := later, lastComplete := later)
  }

  /** From place i on: due harvesters that fail to start are put to sleep, the first that starts is running. */
  function StartFrom(rs: seq<Record>, i: nat, now: int, later: int, o: Outcomes): (r: seq<Record>)
    ensures |r| == |rs|
    decreases |rs| - i
  {
    if i >= |rs| then rs
    else if !Due(rs[i], now) then StartFrom(rs, i + 1, now, later, o)
    else if Starts(o, rs[i].name) then rs[i := rs[i].(status := Running, lastStart := later)]
    else StartFrom(rs[i := Failed(rs[i], o[rs[i].name], later)], i + 1, now, later, o)
  }

  /** RunL on the queue; `now` is the time it reads first and `later` the time it reads while starting. */
  function AfterRun(rs: seq<Record>, previous: int, state: ManagerState, now: int, later: int, o: Outcomes)
    : seq<Record>
  {
    var shifted := ShiftedBy(rs, Shift(previous, now));
    if !state.Active? || AnyRunning(shifted) then shifted else StartFrom(shifted, 0, now, later, o)
  }

  function Place(rs: seq<Record>, name: Text): (r: nat)
    ensures r <= |rs|
    ensures forall i | 0 <= i < r :: rs[i].name != name
    ensures r < |rs| ==> rs[r].name == name
  {
    if rs == [] || rs[0].name == name then 0 else 1 + Place(rs[1..], name)
  }

  function AfterAdd(rs: seq<Record>, plugin: Option<nat>, name: Text, force: bool): seq<Record> {
    var i := Place(rs, name);
    if i == |rs| then rs + [Record(plugin, name, 0, Waiting, 0, 0)]
    else if !rs[i].status.Hibernate? then rs
    else rs[i := rs[i].(plugin := plugin, status := Waiting, lastComplete := if force then 0 else rs[i].lastComplete)]
  }

  /** The place of the record of that name and plug-in, or the end. */
  function PlaceOf(rs: seq<Record>, plugin: Option<nat>, name: Text): (r: nat)
    ensures r <= |rs|
    ensures forall i | 0 <= i < r :: !(rs[i].plugin == plugin && rs[i].name == name)
    ensures r < |rs| ==> rs[r].plugin == plugin && rs[r].name == name
  {
    if rs == [] || (rs[0].plugin == plugin && rs[0].name == name) then 0 else 1 + PlaceOf(rs[1..], plugin, name)
  }

  function AfterRemove(rs: seq<Record>, plugin: Option<nat>, name: Text, persist: bool): seq<Record> {
    var i := PlaceOf(rs, plugin, name);
    if i == |rs| then rs
    else if persist then rs[..i] + rs[i + 1..]
    else if rs[i].status.Waiting? then rs[i := rs[i].(status := Hibernate)]
    else rs
  }

  function AfterComplete(rs: seq<Record>, plugin: Option<nat>, name: Text, error: Int32, now: int): seq<Record> {
    var i := PlaceOf(rs, plugin, name);
    if i == |rs| then rs else rs[i := rs[i].(error := error, status := Waiting, lastComplete := now)]
  }

  // ----- record by record -----

  /** A record waits for nothing but its time: it is not due from its completion until a week later. */
  lemma DueIff(r: Record, now: int)
    ensures !Due(r, now) <==>
      r.plugin == None || r.status != Waiting || 0 <= now - r.lastComplete <= 7 * 24 * 60 * 60_000_000
  {
  }

  /** Correcting for the clock keeps the age of both times of every record, to within a minute, and all the rest. */
  lemma AgesAreKept(rs: seq<Record>, previous: int, now: int, i: nat)
    requires i < |rs|
    ensures var r, r' := rs[i], ShiftedBy(rs, Shift(previous, now))[i];
      && r'.plugin == r.plugin && r'.name == r.name && r'.error == r.error && r'.status == r.status
      && (Jumped(previous, now) ==>
            && -MINUTE < (now - r'.lastStart) - (previous - r.lastStart) < MINUTE
            && -MINUTE < (now - r'.lastComplete) - (previous - r.lastComplete) < MINUTE)
      && (!Jumped(previous, now) ==> r' == r)
  {
    AgeIsKeptIff(previous, now, rs[i].lastStart);
    AgeIsKeptIff(previous, now, rs[i].lastComplete);
  }

  /** Adding a name that is queued wakes its record if that hibernates, and touches no other record. */
  lemma AddMeans(rs: seq<Record>, plugin: Option<nat>, name: Text, force: bool, i: nat)
    requires UniqueNames(rs) && i < |rs| && rs[i].name == name
    ensures var rs', r := AfterAdd(rs, plugin, name, force), rs[i];
      && |rs'| == |rs| && (forall j | 0 <= j < |rs| && j != i :: rs'[j] == rs[j])
      && rs'[i] == if r.status == Hibernate
                   then Record(plugin, name, r.error, Waiting, r.lastStart, if force then 0 else r.lastComplete) else r
  {
  }

  /** A name that is not queued is appended, waiting, never started and never completed. */
  lemma AddNewMeans(rs: seq<Record>, plugin: Option<nat>, name: Text, force: bool)
    requires forall r | r in rs :: r.name != name
    ensures AfterAdd(rs, plugin, name, force) == rs + [Record(plugin, name, 0, Waiting, 0, 0)]
  {
  }

  /** A forced reharvest makes a hibernating record due at once. */
  lemma ForcedAddIsDue(rs: seq<Record>, plugin: nat, name: Text, i: nat, now: int)
    requires UniqueNames(rs) && i < |rs| && rs[i].name == name && rs[i].status == Hibernate && now > WEEK
    ensures Due(AfterAdd(rs, Some(plugin), name, true)[i], now)
  {
    AddMeans(rs, Some(plugin), name, true, i);
  }

  /** Removing a record takes it out of the queue if asked to, and else puts it to sleep if it waits. */
  lemma RemoveMeans(rs: seq<Record>, plugin: Option<nat>, name: Text, persist: bool, i: nat)
    requires UniqueNames(rs) && i < |rs| && rs[i].name == name && rs[i].plugin == plugin
    ensures var rs', r := AfterRemove(rs, plugin, name, persist), rs[i];
      && (persist ==> rs' == rs[..i] + rs[i + 1..])
      && (!persist ==>
            && |rs'| == |rs| && (forall j | 0 <= j < |rs| && j != i :: rs'[j] == rs[j])
            && rs'[i] == if r.status == Waiting then r.(status := Hibernate) else r)
  {
  }

  /** A completed harvest waits again, with its error and the time of its completion. */
  lemma CompleteMeans(rs: seq<Record>, plugin: Option<nat>, name: Text, error: Int32, now: int, i: nat)
    requires UniqueNames(rs) && i < |rs| && rs[i].name == name && rs[i].plugin == plugin
    ensures var rs', r := AfterComplete(rs, plugin, name, error, now), rs[i];
      && |rs'| == |rs| && (forall j | 0 <= j < |rs| && j != i :: rs'[j] == rs[j])
      && rs'[i] == Record(plugin, name, error, Waiting, r.lastStart, now)
  {
  }

  /** Without a record of that name and plug-in, removing and completing do nothing. */
  lemma AbsentMeans(rs: seq<Record>, plugin: Option<nat>, name: Text, persist: bool, error: Int32, now: int)
    requires forall r | r in rs :: !(r.name == name && r.plugin == plugin)
    ensures AfterRemove(rs, plugin, name, persist) == rs && AfterComplete(rs, plugin, name, error, now) == rs
  {
  }

  // ----- what RunL starts -----

  /** Record k is the one that a run at this time starts. */
  predicate IsStarted(rs: seq<Record>, k: nat, now: int, o: Outcomes) {
    && k < |rs| && Due(rs[k], now) && Starts(o, rs[k].name)
    && forall j | 0 <= j < k :: !(Due(rs[j], now) && Starts(o, rs[j].name))
  }

  /** Some record from i on and before k starts. */
  predicate Preceded(rs: seq<Record>, i: nat, k: nat, now: int, o: Outcomes)
    requires k <= |rs|
  {
    exists j :: i <= j < k && Due(rs[j], now) && Starts(o, rs[j].name)
  }

  lemma PrecededLater(rs: seq<Record>, i: nat, k: nat, now: int, o: Outcomes, r: Record)
    requires i < k <= |rs| && !(Due(rs[i], now) && Starts(o, rs[i].name))
    ensures Preceded(rs[i := r], i + 1, k, now, o) <==> Preceded(rs, i, k, now, o)
  {
    if j :| i <= j < k && Due(rs[j], now) && Starts(o, rs[j].name) {
      assert rs[i := r][j] == rs[j];
    }
  }

  lemma {:induction false} StartFromAt(rs: seq<Record>, i: nat, now: int, later: int, o: Outcomes, k: nat)
    requires k < |rs|
    ensures StartFrom(rs, i, now, later, o)[k] ==
      if k < i || !Due(rs[k], now) || Preceded(rs, i, k, now, o) then rs[k]
      else if Starts(o, rs[k].name) then rs[k].(status := Running, lastStart := later)
      else Failed(rs[k], o[rs[k].name], later)
    decreases |rs| - i
  {
    if i < |rs| {
      if !Due(rs[i], now) {
        StartFromAt(rs, i + 1, now, later, o, k);
        if i < k { PrecededLater(rs, i, k, now, o, rs[i]); assert rs[i := rs[i]] == rs; }
      } else if !Starts(o, rs[i].name) {
        var r := Failed(rs[i], o[rs[i].name], later);
        StartFromAt(rs[i := r], i + 1, now, later, o, k);
        if i < k { PrecededLater(rs, i, k, now, o, r); }
      } else if i < k {
        assert Preceded(rs, i, k, now, o);
      }
    }
  }

  /**
   A run with no harvester running, started at any queue: a record is running afterwards if and
   only if it is the first due one whose start succeeds; the due ones before it are hibernating
   with their error, and everything else is as it was.
  */
  lemma RunStartsTheFirst(rs: seq<Record>, now: int, later: int, o: Outcomes, k: nat)
    requires !AnyRunning(rs) && k < |rs|
    ensures var r := StartFrom(rs, 0, now, later, o)[k];
      && (r.status.Running? <==> IsStarted(rs, k, now, o))
      && (r.status.Running? ==> r == rs[k].(status := Running, lastStart := later))
      && (Due(rs[k], now) && !Starts(o, rs[k].name) && (forall j | 0 <= j < k :: !IsStarted(rs, j, now, o)) ==>
            r == rs[k].(status := Hibernate, error := o[rs[k].name], lastStart := later, lastComplete := later))
      && (!Due(rs[k], now) || (exists j :: 0 <= j < k && IsStarted(rs, j, now, o)) ==> r == rs[k])
  {
    StartFromAt(rs, 0, now, later, o, k);
    if Preceded(rs, 0, k, now, o) {
      var j :| 0 <= j < k && Due(rs[j], now) && Starts(o, rs[j].name);
      FirstIsStarted(rs, j, now, o);
    }
  }

  /** If some due record starts, the first one does. */
  lemma {:induction false} FirstIsStarted(rs: seq<Record>, k: nat, now: int, o: Outcomes)
    requires k < |rs| && Due(rs[k], now) && Starts(o, rs[k].name)
    ensures exists j :: 0 <= j <= k && IsStarted(rs, j, now, o)
  {
    if j :| 0 <= j < k && Due(rs[j], now) && Starts(o, rs[j].name) {
      FirstIsStarted(rs, j, now, o);
    } else {
      assert IsStarted(rs, k, now, o);
    }
  }

  // ----- order in the queue -----

  lemma StartKeepsOrder(rs: seq<Record>, now: int, later: int, o: Outcomes)
    requires UniqueNames(rs) && !AnyRunning(rs)
    ensures Orderly(StartFrom(rs, 0, now, later, o))
  {
    var rs' := StartFrom(rs, 0, now, later, o);
    forall k | 0 <= k < |rs| ensures rs'[k].name == rs[k].name
      && (rs'[k].status.Running? ==> IsStarted(rs, k, now, o)) {
      StartFromAt(rs, 0, now, later, o, k);
      RunStartsTheFirst(rs, now, later, o, k);
    }
  }

  lemma RunKeepsOrder(rs: seq<Record>, previous: int, state: ManagerState, now: int, later: int, o: Outcomes)
    requires Orderly(rs)
    ensures Orderly(AfterRun(rs, previous, state, now, later, o))
  {
    var shifted := ShiftedBy(rs, Shift(previous, now));
    if state.Active? && !AnyRunning(shifted) { StartKeepsOrder(shifted, now, later, o); }
  }

  lemma AddKeepsOrder(rs: seq<Record>, plugin: Option<nat>, name: Text, force: bool)
    requires Orderly(rs)
    ensures Orderly(AfterAdd(rs, plugin, name, force))
  {
  }

  lemma CutAt(rs: seq<Record>, i: nat, k: nat)
    requires i < |rs| && k < |rs| - 1
    ensures (rs[..i] + rs[i + 1..])[k] == rs[if k < i then k else k + 1]
  {
  }

  lemma CutKeepsOrder(rs: seq<Record>, i: nat)
    requires Orderly(rs) && i < |rs|
    ensures Orderly(rs[..i] + rs[i + 1..])
  {
    var cut := rs[..i] + rs[i + 1..];
    forall a, b | 0 <= a < |cut| && 0 <= b < |cut| && cut[a].name == cut[b].name ensures a == b {
      CutAt(rs, i, a);
      CutAt(rs, i, b);
    }
    forall a, b | 0 <= a < |cut| && 0 <= b < |cut| && cut[a].status.Running? && cut[b].status.Running? ensures a == b {
      CutAt(rs, i, a);
      CutAt(rs, i, b);
    }
  }

  lemma RemoveKeepsOrder(rs: seq<Record>, plugin: Option<nat>, name: Text, persist: bool)
    requires Orderly(rs)
    ensures Orderly(AfterRemove(rs, plugin, name, persist))
  {
    var i := PlaceOf(rs, plugin, name);
    if i < |rs| && persist { CutKeepsOrder(rs, i); }
  }

  lemma CompleteKeepsOrder(rs: seq<Record>, plugin: Option<nat>, name: Text, error: Int32, now: int)
    requires Orderly(rs)
    ensures Orderly(AfterComplete(rs, plugin, name, error, now))
  {
  }

  // ----- every reachable queue -----

  datatype Op =
    | Run(previous: int, state: ManagerState, now: int, later: int, o: Outcomes)
    | Add(plugin: Option<nat>, name: Text, force: bool)
    | Remove(plugin: Option<nat>, name: Text, persist: bool)
    | Complete(plugin: Option<nat>, name: Text, error: Int32, now: int)

  function After(rs: seq<Record>, op: Op): seq<Record> {
    match op
    case Run(previous, state, now, later, o) => AfterRun(rs, previous, state, now, later, o)
    case Add(plugin, name, force) => AfterAdd(rs, plugin, name, force)
    case Remove(plugin, name, persist) => AfterRemove(rs, plugin, name, persist)
    case Complete(plugin, name, error, now) => AfterComplete(rs, plugin, name, error, now)
  }

  function AfterAll(rs: seq<Record>, ops: seq<Op>): seq<Record> {
    if ops == [] then rs else After(AfterAll(rs, ops[..|ops| - 1]), ops[|ops| - 1])
  }

  /** Whatever the plug-ins and the timer do, at most one harvester is running and no name is queued twice. */
  lemma {:induction false} QueueStaysOrderly(rs: seq<Record>, ops: seq<Op>)
    requires Orderly(rs)
    ensures Orderly(AfterAll(rs, ops))
  {
    if ops != [] {
      var before := AfterAll(rs, ops[..|ops| - 1]);
      QueueStaysOrderly(rs, ops[..|ops| - 1]);
      hide Orderly, AfterRun, AfterAdd, AfterRemove, AfterComplete;
      match ops[|ops| - 1]
      case Run(previous, state, now, later, o) => RunKeepsOrder(before, previous, state, now, later, o);
      case Add(plugin, name, force) => AddKeepsOrder(before, plugin, name, force);
      case Remove(plugin, name, persist) => RemoveKeepsOrder(before, plugin, name, persist);
      case Complete(plugin, name, error, now) => CompleteKeepsOrder(before, plugin, name, error, now);
    }
  }

  // ----- progress -----

  /** The places of the records that are due. */
  function DueAt(rs: seq<Record>, now: int): set<nat> { set i: nat | i < |rs| && Due(rs[i], now) }

  function DueCount(rs: seq<Record>, now: int): nat { |DueAt(rs, now)| }

  /** One round: RunL at t starts record k, which completes at c; the next RunL comes at u. */
  function AfterRound(rs: seq<Record>, t: int, later: int, o: Outcomes, k: nat, error: Int32, c: int): seq<Record>
    requires k < |rs|
  {
    AfterComplete(StartFrom(rs, 0, t, later, o), rs[k].plugin, rs[k].name, error, c)
  }

  /** The queue when RunL at u has corrected it for the clock and is about to ask what is due; RunL came last at t. */
  function Corrected(rs: seq<Record>, t: int, u: int): (r: seq<Record>)
    ensures |r| == |rs|
  {
    ShiftedBy(rs, Shift(t, u))
  }

  lemma RoundAt(rs: seq<Record>, t: int, later: int, o: Outcomes, k: nat, error: Int32, c: int, i: nat)
    requires UniqueNames(rs) && !AnyRunning(rs) && IsStarted(rs, k, t, o) && i < |rs|
    ensures var rs' := AfterRound(rs, t, later, o, k, error, c);
      && |rs'| == |rs|
      && (i == k ==> rs'[i] == rs[i].(error := error, status := Waiting, lastStart := later, lastComplete := c))
      && (i < k && Due(rs[i], t) ==>
            && rs[i].name in o && o[rs[i].name] != 0
            && rs'[i] == rs[i].(status := Hibernate, error := o[rs[i].name], lastStart := later, lastComplete := later))
      && (i != k && !(i < k && Due(rs[i], t)) ==> rs'[i] == rs[i])
  {
    var mid := StartFrom(rs, 0, t, later, o);
    StartFromAt(rs, 0, t, later, o, k);
    StartFromAt(rs, 0, t, later, o, i);
    RunStartsTheFirst(rs, t, later, o, k);
    var p := PlaceOf(mid, rs[k].plugin, rs[k].name);
    if p < |mid| { StartFromAt(rs, 0, t, later, o, p); }
  }

  /** What the next RunL starts is chosen from the corrected queue. */
  lemma NextRunPicks(rs: seq<Record>, t: int, later: int, o: Outcomes, k: nat, error: Int32, c: int,
                     u: int, nextLater: int, next: Outcomes)
    requires UniqueNames(rs) && !AnyRunning(rs) && IsStarted(rs, k, t, o)
    ensures var rs' := AfterRound(rs, t, later, o, k, error, c);
      AfterRun(rs', t, Active, u, nextLater, next) == StartFrom(Corrected(rs', t, u), 0, u, nextLater, next)
  {
    var rs' := AfterRound(rs, t, later, o, k, error, c);
    RoundAt(rs, t, later, o, k, error, c, k);
    forall i | 0 <= i < |rs| ensures !ShiftedBy(rs', Shift(t, u))[i].status.Running? {
      RoundAt(rs, t, later, o, k, error, c, i);
    }
  }

  /** Records other than k that were not due at t and have come of age by u. */
  function Risen(rs: seq<Record>, k: nat, t: int, u: int): set<nat> {
    set i: nat | i < |rs| && i != k && !Due(rs[i], t) && Due(Corrected(rs, t, u)[i], u)
  }

  /** Records before k that were due: their start fails, and they are put to sleep. */
  function Slept(rs: seq<Record>, k: nat, t: int): set<nat> { set i: nat | i < |rs| && i < k && Due(rs[i], t) }

  /** Records behind k that were due and, as the clock stands at u, no longer are. */
  function Faded(rs: seq<Record>, k: nat, t: int, u: int): set<nat> {
    set i: nat | i < |rs| && i > k && Due(rs[i], t) && !Due(Corrected(rs, t, u)[i], u)
  }

  /** With these times a record that waits is due: it completed in the future, or more than a week ago. */
  predicate DueAgain(c: int, u: int) { c > u || c < u - WEEK }

  lemma DueAfterRound(rs: seq<Record>, t: int, later: int, o: Outcomes, k: nat, error: Int32, c: int, u: int)
    requires UniqueNames(rs) && !AnyRunning(rs) && IsStarted(rs, k, t, o)
    ensures DueAt(Corrected(AfterRound(rs, t, later, o, k, error, c), t, u), u)
      == DueAt(rs, t) - Slept(rs, k, t) - Faded(rs, k, t, u) - {k} + Risen(rs, k, t, u)
         + (if DueAgain(c + Shift(t, u), u) then {k} else {})
  {
    var rs' := Corrected(AfterRound(rs, t, later, o, k, error, c), t, u);
    forall i | 0 <= i < |rs|
      ensures Due(rs'[i], u) <==>
        if i == k then DueAgain(c + Shift(t, u), u) else Due(Corrected(rs, t, u)[i], u) && !(i < k && Due(rs[i], t))
    {
      RoundAt(rs, t, later, o, k, error, c, k);
      RoundAt(rs, t, later, o, k, error, c, i);
    }
    RoundAt(rs, t, later, o, k, error, c, k);
  }

  /** The balance of a round: what leaves the due records is k, the ones put to sleep and the ones faded. */
  lemma RoundBalance(rs: seq<Record>, t: int, later: int, o: Outcomes, k: nat, error: Int32, c: int, u: int)
    requires UniqueNames(rs) && !AnyRunning(rs) && IsStarted(rs, k, t, o)
    ensures DueCount(Corrected(AfterRound(rs, t, later, o, k, error, c), t, u), u)
        + |Slept(rs, k, t)| + |Faded(rs, k, t, u)| + 1
      == DueCount(rs, t) + |Risen(rs, k, t, u)| + (if DueAgain(c + Shift(t, u), u) then 1 else 0)
  {
    DueAfterRound(rs, t, later, o, k, error, c, u);
    var again := if DueAgain(c + Shift(t, u), u) then {k} else {};
    hide Due, Starts, UniqueNames, AnyRunning, Corrected, AfterRound, Shift, DueAgain;
    CountBalance(DueAt(rs, t), Slept(rs, k, t), Faded(rs, k, t, u), k, Risen(rs, k, t, u), again);
  }

  lemma CountBalance(due: set<nat>, slept: set<nat>, faded: set<nat>, k: nat, risen: set<nat>, again: set<nat>)
    requires slept <= due && faded <= due && k in due && slept !! faded && k !in slept + faded
    requires risen !! due && k !in risen && again <= {k}
    ensures |due - slept - faded - {k} + risen + again| + |slept| + |faded| + 1 == |due| + |risen| + |again|
  {
    var left := due - slept - faded - {k};
    assert due == left + slept + faded + {k};
  }

  /**
   At the next RunL strictly fewer records are due than at this one if and only if those that come
   of age meanwhile, with the one just harvested if it is due again, do not outnumber those that
   were put to sleep because their start failed and those that the clock made undue.
  */
  lemma RoundMakesProgressIff(rs: seq<Record>, t: int, later: int, o: Outcomes, k: nat, error: Int32, c: int, u: int)
    requires UniqueNames(rs) && !AnyRunning(rs) && IsStarted(rs, k, t, o)
    ensures DueCount(Corrected(AfterRound(rs, t, later, o, k, error, c), t, u), u) < DueCount(rs, t)
      <==>
        |Risen(rs, k, t, u)| + (if DueAgain(c + Shift(t, u), u) then 1 else 0)
        <= |Slept(rs, k, t)| + |Faded(rs, k, t, u)|
  {
    RoundBalance(rs, t, later, o, k, error, c, u);
  }

  /**
   In particular it is so when no other record comes of age, the clock runs forward, and RunL comes
   again before it takes the clock for changed.
  */
  lemma RoundMakesProgress(rs: seq<Record>, t: int, later: int, o: Outcomes, k: nat, error: Int32, c: int, u: int)
    requires UniqueNames(rs) && !AnyRunning(rs) && IsStarted(rs, k, t, o)
    requires !Jumped(t, u) && c <= u <= c + WEEK && Risen(rs, k, t, u) == {}
    ensures DueCount(Corrected(AfterRound(rs, t, later, o, k, error, c), t, u), u) < DueCount(rs, t)
  {
    RoundMakesProgressIff(rs, t, later, o, k, error, c, u);
  }

  /** Otherwise the count may stay: here the second record comes of age while the first is harvested. */
  lemma RipeningHidesProgress(a: Text, b: Text)
    requires a != b
    ensures var rs := [Record(Some(1), a, 0, Waiting, 0, 0), Record(Some(2), b, 0, Waiting, 0, MINUTE)];
      var t, u := WEEK + 1, WEEK + 1 + MINUTE;
      && UniqueNames(rs) && !AnyRunning(rs) && IsStarted(rs, 0, t, map[])
      && DueCount(rs, t) == 1 && DueCount(Corrected(AfterRound(rs, t, t, map[], 0, 0, u), t, u), u) == 1
  {
    var rs := [Record(Some(1), a, 0, Waiting, 0, 0), Record(Some(2), b, 0, Waiting, 0, MINUTE)];
    var t, u := WEEK + 1, WEEK + 1 + MINUTE;
    assert !Jumped(t, u);
    assert DueAt(rs, t) == {0} && Risen(rs, 0, t, u) == {1};
    assert Slept(rs, 0, t) == {} && Faded(rs, 0, t, u) == {};
    RoundBalance(rs, t, t, map[], 0, 0, u, u);
  }

  // ----- a long harvest is taken for a change of the clock -----

  /**
   When RunL takes the time since its last run for a change of the clock, the completion that came
   meanwhile is shifted into the future, unless it came within the odd seconds that are not shifted.
  */
  lemma LongHarvestIsDueAgainIff(t: int, c: int, u: int)
    requires Jumped(t, u) && t <= u && t <= c
    ensures DueAgain(c + Shift(t, u), u) <==> c - t > (u - t) % MINUTE
  {
  }

  /** With three minutes or more between the runs, a record harvested for a minute or more is due again at once. */
  lemma LongHarvestIsDueAgain(rs: seq<Record>, t: int, later: int, o: Outcomes, k: nat, error: Int32, c: int, u: int)
    requires UniqueNames(rs) && !AnyRunning(rs) && IsStarted(rs, k, t, o)
    requires t != 0 && MinutesFrom(u, t).Some? && u - t >= 3 * MINUTE && c - t >= MINUTE
    ensures k in DueAt(Corrected(AfterRound(rs, t, later, o, k, error, c), t, u), u)
  {
    JumpedIff(t, u);
    LongHarvestIsDueAgainIff(t, c, u);
    DueAfterRound(rs, t, later, o, k, error, c, u);
  }

  /** So the next RunL starts the same harvester again, unless one before it has come of age. */
  lemma LongHarvestIsRepeated(rs: seq<Record>, t: int, later: int, o: Outcomes, k: nat, error: Int32, c: int,
                              u: int, nextLater: int, next: Outcomes)
    requires UniqueNames(rs) && !AnyRunning(rs) && IsStarted(rs, k, t, o)
    requires t != 0 && MinutesFrom(u, t).Some? && u - t >= 3 * MINUTE && c - t >= MINUTE
    requires Starts(next, rs[k].name) && forall j | j in Risen(rs, k, t, u) :: j > k
    ensures AfterRun(AfterRound(rs, t, later, o, k, error, c), t, Active, u, nextLater, next)[k].status.Running?
  {
    var rs' := Corrected(AfterRound(rs, t, later, o, k, error, c), t, u);
    LongHarvestIsDueAgain(rs, t, later, o, k, error, c, u);
    DueAfterRound(rs, t, later, o, k, error, c, u);
    RoundAt(rs, t, later, o, k, error, c, k);
    NextRunPicks(rs, t, later, o, k, error, c, u, nextLater, next);
    forall j | 0 <= j < k ensures !Due(rs'[j], u) {
      assert j in DueAt(rs', u) ==> j in DueAt(rs, t) - Slept(rs, k, t) || j in Risen(rs, k, t, u);
    }
    StartFromAt(rs', 0, u, nextLater, next, k);
  }

  // ----- the age over many runs -----

  /** The time of the last of these runs. */
  function LastRun(previous: int, ops: seq<Op>): int {
    if ops == [] || !ops[|ops| - 1].Run? then previous else ops[|ops| - 1].now
  }

  /** Runs of RunL, each of which takes the forward move of the clock since the one before for a change. */
  predicate FarApart(previous: int, ops: seq<Op>) {
    forall i | 0 <= i < |ops| ::
      ops[i].Run? && ops[i].previous == LastRun(previous, ops[..i]) && ops[i].now > ops[i].previous
      && Jumped(ops[i].previous, ops[i].now)
  }

  lemma ShiftIsClose(t: int, u: int)
    requires Jumped(t, u) && t < u
    ensures 0 <= (u - t) - Shift(t, u) < MINUTE
  {
  }

  /** A run leaves a record that is not due as it is, but for its times. */
  lemma UndueIsLeft(rs: seq<Record>, previous: int, state: ManagerState, now: int, later: int, o: Outcomes, k: nat)
    requires k < |rs| && !Due(Corrected(rs, previous, now)[k], now)
    ensures AfterRun(rs, previous, state, now, later, o)[k] == Corrected(rs, previous, now)[k]
  {
    StartFromAt(Corrected(rs, previous, now), 0, now, later, o, k);
  }

  /**
   Over runs three minutes or more apart a record ages by less than a minute each, however long the
   time between them. With the timer set a day ahead a completed record would thus come of age
   after a week of minutes, that is of daily runs, instead of a week of days.
  */
  lemma {:induction false} AgesByMinutes(rs: seq<Record>, previous: int, ops: seq<Op>, k: nat)
    requires k < |rs| && FarApart(previous, ops) && rs[k].lastComplete <= previous
    requires previous - rs[k].lastComplete + |ops| * MINUTE <= WEEK
    ensures |AfterAll(rs, ops)| == |rs|
    ensures var r, now := AfterAll(rs, ops)[k], LastRun(previous, ops);
      && r == rs[k].(lastStart := r.lastStart, lastComplete := r.lastComplete) && !Due(r, now)
      && previous - rs[k].lastComplete <= now - r.lastComplete
      && (ops == [] || now - r.lastComplete < previous - rs[k].lastComplete + |ops| * MINUTE)
  {
    if ops != [] {
      var rest, op := ops[..|ops| - 1], ops[|ops| - 1];
      assert forall i | 0 <= i < |rest| :: rest[i] == ops[i] && rest[..i] == ops[..i];
      AgesByMinutes(rs, previous, rest, k);
      var before := AfterAll(rs, rest);
      ShiftIsClose(op.previous, op.now);
      UndueIsLeft(before, op.previous, op.state, op.now, op.later, op.o, k);
    }
  }
}
