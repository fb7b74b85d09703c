/**
 CIndexingManager as the object that holds the queue, and its state file. The file holds a version,
 the number of records and, for each record, its name, the times it was last started and completed,
 and its last error; whether a record was running and which plug-in served it is not stored. The
 first part shows that reading undoes writing, one kind of value at a time. The methods of the class
 are proved to compute the functions of Scheduler, and their loops to be the recursions there.
*/
module IndexingManager {
  import opened Options
  import opened Wire
  import opened Scheduler

  // ----- the state file -----

  const KMANAGER_FILE_VERSION: Int32 := 1
  const KMAX_NAME_LENGTH := 64   // KFilePluginBaseAppClassMaxLen

  function Low(t: int): Word32 { t % 0x1_0000_0000 }

  function High(t: int): int { t / 0x1_0000_0000 }

  /** The memory of a TInt64. */
  function LongBytes(t: int): (r: seq<Byte>)
    ensures |r| == 8
  {
    WordBytes(Low(t)) + WordBytes(Low(High(t)))
  }

  function ReadLong(bs: seq<Byte>): Read<int> {
    var lo := ReadWord(bs);
    if lo.Leaves? then Leaves else
    var hi := ReadInt(lo.rest);
    if hi.Leaves? then Leaves else Got(LongOf(hi.value, lo.value), hi.rest)
  }

  function LongOf(hi: int, lo: int): int { hi * 0x1_0000_0000 + lo }

  function RecordBytes(r: Record): seq<Byte> {
    TextBytes(r.name) + LongBytes(r.lastStart) + LongBytes(r.lastComplete) + IntBytes(r.error)
  }

  function RecordsBytes(rs: seq<Record>): seq<Byte> {
    if rs == [] then [] else RecordBytes(rs[0]) + RecordsBytes(rs[1..])
  }

  type Queue = s: seq<Record> | |s| < 0x8000_0000

  function Image(rs: Queue): seq<Byte> { IntBytes(KMANAGER_FILE_VERSION) + IntBytes(|rs|) + RecordsBytes(rs) }

  /** Reading into a descriptor that is too short panics, which is a leave here. */
  function ReadName(bs: seq<Byte>): Read<Text> {
    var n := ReadInt(bs);
    if n.Leaves? || n.value > KMAX_NAME_LENGTH then Leaves else ReadText(bs)
  }

  function ReadRecord(bs: seq<Byte>): Read<Record> {
    var name := ReadName(bs);
    if name.Leaves? then Leaves else
    var lastStart := ReadLong(name.rest);
    if lastStart.Leaves? then Leaves else
    var lastComplete := ReadLong(lastStart.rest);
    if lastComplete.Leaves? then Leaves else
    var error := ReadInt(lastComplete.rest);
    if error.Leaves? then Leaves
    else Got(Record(None, name.value, error.value, Hibernate, lastStart.value, lastComplete.value), error.rest)
  }

  function ReadRecords(bs: seq<Byte>, n: int): Read<seq<Record>>
    decreases n
  {
    if n <= 0 then Got([], bs) else
    match ReadRecord(bs)
    case Got(r, rest) => Prepended([r], ReadRecords(rest, n - 1))
    case Leaves => Leaves
  }

  function ReadImage(bs: seq<Byte>): Read<seq<Record>> {
    var version := ReadInt(bs);
    if version.Leaves? || version.value != KMANAGER_FILE_VERSION then Leaves else
    var count := ReadInt(version.rest);
    if count.Leaves? then Leaves else ReadRecords(count.rest, count.value)
  }

  /** What survives: everything but the plug-in and the status. */
  function Restored(r: Record): Record { r.(plugin := None, status := Hibernate) }

  function RestoredAll(rs: seq<Record>): (r: seq<Record>)
    ensures |r| == |rs|
  {
    seq(|rs|, i requires 0 <= i < |rs| => Restored(rs[i]))
  }

  /** The name fits into its buffer and the times into a TInt64, as the types of the fields have it. */
  predicate Storable(r: Record) {
    && |r.name| <= KMAX_NAME_LENGTH
    && -0x8000_0000_0000_0000 <= r.lastStart < 0x8000_0000_0000_0000
    && -0x8000_0000_0000_0000 <= r.lastComplete < 0x8000_0000_0000_0000
  }

  lemma Halves(t: int)
    requires -0x8000_0000_0000_0000 <= t < 0x8000_0000_0000_0000
    ensures LongOf(High(t), Low(t)) == t && -0x8000_0000 <= High(t) < 0x8000_0000
  {
  }

  lemma SignedWord(h: Int32)
    ensures WordBytes(Low(h)) == IntBytes(h)
  {
    hide WordBytes;
    assert Low(h) == if h < 0 then h + 0x1_0000_0000 else h;
  }

  lemma {:induction false} LongRead(t: int, rest: seq<Byte>)
    requires -0x8000_0000_0000_0000 <= t < 0x8000_0000_0000_0000
    ensures ReadLong(LongBytes(t) + rest) == Got(t, rest)
  {
    Halves(t);
    SignedWord(High(t));
    hide WordBytes, IntBytes, ReadWord, ReadInt, Low, High, LongOf;
    assert LongBytes(t) + rest == WordBytes(Low(t)) + (IntBytes(High(t)) + rest);
    WordRead(Low(t), IntBytes(High(t)) + rest);
    IntRead(High(t), rest);
  }

  lemma NameRead(s: Text, rest: seq<Byte>)
    requires |s| <= KMAX_NAME_LENGTH
    ensures ReadName(TextBytes(s) + rest) == Got(s, rest)
  {
    TextRead(s, rest);
    assert TextBytes(s) + rest == IntBytes(|s|) + (CharsBytes(s) + rest);
    hide IntBytes, CharsBytes, ReadInt, ReadText;
    IntRead(|s|, CharsBytes(s) + rest);
  }

  lemma {:induction false} RecordRead(r: Record, rest: seq<Byte>)
    requires Storable(r)
    ensures ReadRecord(RecordBytes(r) + rest) == Got(Restored(r), rest)
  {
    hide TextBytes, LongBytes, IntBytes, ReadName, ReadLong, ReadInt;
    var afterComplete := IntBytes(r.error) + rest;
    var afterStart := LongBytes(r.lastComplete) + afterComplete;
    var afterName := LongBytes(r.lastStart) + afterStart;
    assert RecordBytes(r) + rest == TextBytes(r.name) + afterName;
    NameRead(r.name, afterName);
    LongRead(r.lastStart, afterStart);
    LongRead(r.lastComplete, afterComplete);
    IntRead(r.error, rest);
  }

  lemma {:induction false} RecordsRead(rs: seq<Record>, rest: seq<Byte>)
    requires forall r | r in rs :: Storable(r)
    ensures ReadRecords(RecordsBytes(rs) + rest, |rs|) == Got(RestoredAll(rs), rest)
  {
    hide RecordBytes, ReadRecord;
    if rs == [] {
      assert RecordsBytes(rs) + rest == rest;
    } else {
      assert RecordsBytes(rs) + rest == RecordBytes(rs[0]) + (RecordsBytes(rs[1..]) + rest);
      RecordRead(rs[0], RecordsBytes(rs[1..]) + rest);
      RecordsRead(rs[1..], rest);
      assert [Restored(rs[0])] + RestoredAll(rs[1..]) == RestoredAll(rs);
    }
  }

  /** Loading a saved queue restores every record's name, times and error, hibernating and without plug-in. */
  lemma {:induction false} LoadOfSaved(rs: Queue, rest: seq<Byte>)
    requires forall r | r in rs :: Storable(r)
    ensures ReadImage(Image(rs) + rest) == Got(RestoredAll(rs), rest)
  {
    hide IntBytes, ReadInt, RecordsBytes, ReadRecords;
    var body := RecordsBytes(rs) + rest;
    assert Image(rs) + rest == IntBytes(KMANAGER_FILE_VERSION) + (IntBytes(|rs|) + body);
    IntRead(KMANAGER_FILE_VERSION, IntBytes(|rs|) + body);
    IntRead(|rs|, body);
    RecordsRead(rs, rest);
  }

  /** A time is the eight bytes of its two's complement, the lower half first. */
  lemma LongLayout(t: int)
    requires -0x8000_0000_0000_0000 <= t < 0x8000_0000_0000_0000
    ensures exists lo: Word32, hi: Word32 ::
      LongBytes(t) == WordBytes(lo) + WordBytes(hi)
      && lo + 0x1_0000_0000 * hi == t + if t < 0 then 0x1_0000_0000_0000_0000 else 0
  {
    hide WordBytes;
    assert LongBytes(t) == WordBytes(Low(t)) + WordBytes(Low(High(t)));
  }

  /** A record is its name, the times of its start and completion, and its error. */
  lemma RecordLayout(r: Record)
    ensures var b, n := RecordBytes(r), 2 * |r.name|;
      && |b| == n + 24
      && b[..4] == IntBytes(|r.name|) && b[4..4 + n] == CharsBytes(r.name)
      && b[4 + n..12 + n] == LongBytes(r.lastStart) && b[12 + n..20 + n] == LongBytes(r.lastComplete)
      && b[20 + n..] == IntBytes(r.error)
  {
    hide IntBytes, CharsBytes, LongBytes;
  }

  /** A file of another version, or one cut off within its head, is not read. */
  lemma OtherVersionLeaves(version: Int32, rest: seq<Byte>)
    ensures ReadImage(IntBytes(version) + rest).Got? ==> version == 1
  {
    IntRead(version, rest);
  }

  /** A name that does not fit into its buffer is not read. */
  lemma LongNameLeaves(n: Int32, rest: seq<Byte>)
    requires n > 64
    ensures ReadName(IntBytes(n) + rest).Leaves?
  {
    IntRead(n, rest);
  }

  /** Trying to start a harvester is what changes the queue. */
  lemma TriesIff(rs: seq<Record>, now: int, later: int, o: Outcomes)
    requires !AnyRunning(rs)
    ensures Tries(rs, now) <==> StartFrom(rs, 0, now, later, o) != rs
  {
    if i :| 0 <= i < |rs| && Due(rs[i], now) {
      SomeFirstDue(rs, i, now, later, o);
    } else {
      forall k | 0 <= k < |rs| ensures StartFrom(rs, 0, now, later, o)[k] == rs[k] {
        StartFromAt(rs, 0, now, later, o, k);
      }
    }
  }

  /** The first due record is started or put to sleep. */
  lemma {:induction false} SomeFirstDue(rs: seq<Record>, i: nat, now: int, later: int, o: Outcomes)
    requires i < |rs| && Due(rs[i], now)
    ensures StartFrom(rs, 0, now, later, o) != rs
  {
    if j :| 0 <= j < i && Due(rs[j], now) {
      SomeFirstDue(rs, j, now, later, o);
    } else {
      StartFromAt(rs, 0, now, later, o, i);
    }
  }

  /** A restart runs nothing and queues no name twice. */
  lemma RestoredIsOrderly(rs: seq<Record>)
    requires UniqueNames(rs)
    ensures Orderly(RestoredAll(rs)) && !AnyRunning(RestoredAll(rs))
  {
    forall i, j | 0 <= i < |rs| && 0 <= j < |rs| && RestoredAll(rs)[i].name == RestoredAll(rs)[j].name ensures i == j {
      assert rs[i].name == rs[j].name;
    }
  }

  // ----- the manager -----

  lemma RecordsRest(rs: seq<Record>, i: nat)
    requires i <= |rs|
    ensures RecordsBytes(rs[i..]) == if i == |rs| then [] else RecordBytes(rs[i]) + RecordsBytes(rs[i + 1..])
  {
    if i < |rs| { assert rs[i..][1..] == rs[i + 1..]; }
  }

  /** RunL tries to start a harvester. */
  predicate Tries(rs: seq<Record>, now: int) { !AnyRunning(rs) && exists i :: 0 <= i < |rs| && Due(rs[i], now) }

  class CIndexingManager {
    var records: Queue           // iHarvesterArray
    var changed: bool            // iHarvesterArrayChanged
    var state: ManagerState      // iState
    var previousRun: int         // iPreviousRun
    var file: seq<Byte>          // the state file

    constructor ()
      ensures records == [] && state.Idle? && previousRun == 0 && !changed && file == []
    {
      records, changed, state, previousRun, file := [], false, Idle, 0, [];
    }

    method SaveL()
      modifies this`file
      ensures file == Image(records)
    {
      hide RecordBytes, IntBytes, RecordsBytes;
      var wr := IntBytes(KMANAGER_FILE_VERSION) + IntBytes(|records|);
      ghost var head := wr;
      assert records[0..] == records;
      for i := 0 to |records|
        invariant wr + RecordsBytes(records[i..]) == head + RecordsBytes(records)
      {
        RecordsRest(records, i);
        assert wr + (RecordBytes(records[i]) + RecordsBytes(records[i + 1..]))
          == wr + RecordBytes(records[i]) + RecordsBytes(records[i + 1..]);
        wr := wr + RecordBytes(records[i]);
      }
      RecordsRest(records, |records|);
      assert wr == head + RecordsBytes(records);
      file := wr;
    }

    /**
     LoadL: appends the records of the file, as long as the array can hold them; when it leaves,
     those read before stay appended.
    */
    method LoadL() returns (ok: bool)
      modifies this`records
      ensures ok == (ReadImage(file).Got? && |old(records)| + |ReadImage(file).value| < 0x8000_0000)
      ensures ok ==> records == old(records) + ReadImage(file).value
      ensures old(records) <= records
    {
      hide ReadInt, ReadRecord;
      var version := ReadInt(file);
      if version.Leaves? || version.value != KMANAGER_FILE_VERSION { return false; }
      var count := ReadInt(version.rest);
      if count.Leaves? { return false; }
      var rd := count.rest;
      var loaded: seq<Record> := [];
      PrependNothing(ReadRecords(count.rest, count.value));
      var i := 0;
      while i < count.value
        invariant 0 <= i && (i == 0 || i <= count.value) && records == old(records) + loaded
        invariant ReadRecords(count.rest, count.value) == Prepended(loaded, ReadRecords(rd, count.value - i))
      {
        var r := ReadRecord(rd);
        if r.Leaves? { return false; }
        PrependOneMore(loaded, r.value, ReadRecords(r.rest, count.value - i - 1));
        if |records| == 0x7FFF_FFFF { return false; }
        records, loaded := records + [r.value], loaded + [r.value];
        rd := r.rest;
        i := i + 1;
      }
      assert loaded + [] == loaded;
      ok := true;
    }

    /** The first part of RunL: the clock. */
    method CorrectForClock(now: int)
      modifies this`records, this`previousRun
      ensures records == ShiftedBy(old(records), Shift(old(previousRun), now)) && previousRun == now
    {
      if Jumped(previousRun, now) {
        ghost var was := records;
        var difference := MinutesFrom(now, previousRun).value * MINUTE;
        for i := 0 to |records|
          invariant |records| == |was|
          invariant forall j | 0 <= j < |was| :: records[j] == if j < i then ShiftedBy(was, difference)[j] else was[j]
        {
          records := records[i := records[i].(lastComplete := records[i].lastComplete + difference,
            lastStart := records[i].lastStart + difference)];
        }
        assert records == ShiftedBy(was, difference);
      } else {
        assert ShiftedBy(records, 0) == records;
      }
      previousRun := now;
    }

    method IsHarvesterRunning() returns (running: bool)
      ensures running == AnyRunning(records)
    {
      running := false;
      for i := 0 to |records|
        invariant running == exists j :: 0 <= j < i && records[j].status.Running?
      {
        if records[i].status.Running? { running := true; }
      }
    }

    /** The loop of RunL that starts the next harvester. */
    method StartNext(now: int, later: int, o: Outcomes)
      modifies this`records, this`changed
      ensures records == StartFrom(old(records), 0, now, later, o)
      ensures changed == (old(changed) || exists i :: 0 <= i < |old(records)| && Due(old(records)[i], now))
    {
      ghost var was := records;
      for i := 0 to |records|
        invariant |records| == |was| && StartFrom(was, 0, now, later, o) == StartFrom(records, i, now, later, o)
        invariant forall j | i <= j < |was| :: records[j] == was[j]
        invariant changed == (old(changed) || exists j :: 0 <= j < i && Due(was[j], now))
      {
        ghost var was' := records;
        if Due(records[i], now) {
          changed := true;
          records := records[i := records[i].(status := Running, lastStart := later)];
          if Starts(o, records[i].name) { break; }   // something was started
          records := records[i := records[i].(lastComplete := later, error := o[records[i].name], status := Hibernate)];
          assert records == was'[i := Failed(was'[i], o[was'[i].name], later)];
        }
      }
    }

    method RunL(now: int, later: int, o: Outcomes)
      modifies this
      ensures records == AfterRun(old(records), old(previousRun), old(state), now, later, o)
      ensures previousRun == now && state == old(state)
      ensures changed == (old(changed) && !state.Active?)
      ensures file ==
        if state.Active? && (old(changed) || Tries(ShiftedBy(old(records), Shift(old(previousRun), now)), now))
        then Image(records) else old(file)
    {
      CorrectForClock(now);
      if !state.Active? { return; }
      var running := IsHarvesterRunning();
      if !running { StartNext(now, later, o); }
      if changed {
        changed := false;
        SaveL();
      }
    }

    method AddHarvestingQueue(plugin: Option<nat>, name: Text, force: bool)
      modifies this`records, this`changed
      ensures records ==
        if |old(records)| == 0x7FFF_FFFF && Place(old(records), name) == |old(records)| then old(records)
        else AfterAdd(old(records), plugin, name, force)
      ensures var i := Place(old(records), name);
        changed == (old(changed) || i == |old(records)| || (force && old(records)[i].status.Hibernate?))
    {
      for i := 0 to |records|
        invariant records == old(records) && changed == old(changed)
        invariant forall j | 0 <= j < i :: records[j].name != name
      {
        if records[i].name == name {
          if records[i].status.Hibernate? {
            records := records[i := records[i].(plugin := plugin, status := Waiting)];
            if force {
              records := records[i := records[i].(lastComplete := 0)];
              changed := true;
            }
          }
          return;
        }
      }
      if |records| < 0x7FFF_FFFF { records := records + [Record(plugin, name, 0, Waiting, 0, 0)]; }
      changed := true;
    }

    method RemoveHarvestingQueue(plugin: Option<nat>, name: Text, persist: bool)
      modifies this`records, this`file
      ensures records == AfterRemove(old(records), plugin, name, persist)
      ensures file == if |records| < |old(records)| then Image(records) else old(file)
    {
      for i := 0 to |records|
        invariant records == old(records) && file == old(file)
        invariant forall j | 0 <= j < i :: !(records[j].plugin == plugin && records[j].name == name)
      {
        if records[i].plugin == plugin && records[i].name == name {
          if records[i].status.Waiting? {
            records := records[i := records[i].(status := Hibernate)];
          }
          if persist {
            records := records[..i] + records[i + 1..];
            SaveL();
          }
          return;
        }
      }
    }

    method HarvestingCompleted(plugin: Option<nat>, name: Text, error: Int32, now: int)
      modifies this`records, this`changed
      ensures records == AfterComplete(old(records), plugin, name, error, now)
      ensures changed == (old(changed) || PlaceOf(old(records), plugin, name) < |old(records)|)
    {
      for i := 0 to |records|
        invariant records == old(records) && changed == old(changed)
        invariant forall j | 0 <= j < i :: !(records[j].plugin == plugin && records[j].name == name)
      {
        if records[i].plugin == plugin && records[i].name == name {
          records := records[i := records[i].(error := error, status := Waiting, lastComplete := now)];
          changed := true;
          return;
        }
      }
    }
  }

  /**
   A harvest that takes three minutes, with no other RunL meanwhile, is repeated as soon as it is
   completed: RunL takes the time it took for a change of the clock.
  */
  method LongHarvestRun(name: Text, t: int, c: int, u: int) returns (first: Status, completed: Status, second: Status)
    requires WEEK < t && c - t >= MINUTE && u - t >= 3 * MINUTE && MinutesFrom(u, t).Some?
    ensures first == Running && completed == Waiting && second == Running
  {
    var m := new CIndexingManager();
    m.state := Active;
    m.AddHarvestingQueue(Some(1), name, false);
    ghost var rs := m.records;
    assert rs == [Record(Some(1), name, 0, Waiting, 0, 0)];
    m.RunL(t, t, map[]);
    assert ShiftedBy(rs, 0) == rs && IsStarted(rs, 0, t, map[]);
    RunStartsTheFirst(rs, t, t, map[], 0);
    first := m.records[0].status;
    m.HarvestingCompleted(Some(1), name, 0, c);
    assert m.records == AfterRound(rs, t, t, map[], 0, 0, c);
    RoundAt(rs, t, t, map[], 0, 0, c, 0);
    completed := m.records[0].status;
    LongHarvestIsRepeated(rs, t, t, map[], 0, 0, c, u, u, map[]);
    m.RunL(u, u, map[]);
    second := m.records[0].status;
  }
}
