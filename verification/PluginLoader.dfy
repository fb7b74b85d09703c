/** The objects behind the crash-safe loading: the blacklist database, its manager, and the loader. */
module PluginLoader {
  import opened Blacklist

  /** CBlacklistDb: the two tables, and whether the database could be opened. */
  class CBlacklistDb {
    var isOpen: bool
    var table: seq<Row>
    var dontload: seq<int>

    constructor (isOpen: bool, table: seq<Row>, dontload: seq<int>)
      ensures this.isOpen == isOpen && this.table == table && this.dontload == dontload
    {
      this.isOpen, this.table, this.dontload := isOpen, table, dontload;
    }

    /** Inserts a row; false stands for KErrNotReady. */
    method AddL(uid: int, version: int) returns (ok: bool)
      modifies this`table
      ensures ok == isOpen && table == if isOpen then old(table) + [Row(uid, version)] else old(table)
    {
      ok := isOpen;
      if isOpen { table := table + [Row(uid, version)]; }
    }

    /** Updates the first row of that uid, if there is one. */
    method UpdateL(uid: int, version: int) returns (ok: bool)
      modifies this`table
      ensures ok == isOpen
      ensures table == if isOpen && First(old(table), uid) < |old(table)|
        then old(table)[First(old(table), uid) := Row(uid, version)] else old(table)
    {
      ok := isOpen;
      if !isOpen { return; }
      var atRow := First(table, uid);
      if atRow < |table| { table := table[atRow := Row(uid, version)]; }
    }

    method Remove(uid: int)
      modifies this`table
      ensures table == if isOpen then Deleted(old(table), uid) else old(table)
    {
      if isOpen { table := Deleted(table, uid); }
    }

    method FindL(uid: int) returns (found: bool)
      ensures found == (isOpen && First(table, uid) < |table|)
    {
      found := isOpen && First(table, uid) < |table|;
    }

    method FindWithVersionL(uid: int, version: int) returns (found: bool)
      ensures found == (isOpen && Listed(table, uid, version))
    {
      found := false;
      if !isOpen { return; }
      var atRow := First(table, uid);
      if atRow < |table| { found := table[atRow].version == version; }
    }

    method FindInDontloadListL(uid: int) returns (found: bool)
      ensures found == (isOpen && uid in dontload)
    {
      found := isOpen && uid in dontload;
    }

    method AddtoDontloadListL(uid: int) returns (ok: bool)
      modifies this`dontload
      ensures ok == isOpen && dontload == if isOpen then old(dontload) + [uid] else old(dontload)
    {
      ok := isOpen;
      if isOpen { dontload := dontload + [uid]; }
    }
  }

  /** CBlacklistMgr. */
  class CBlacklistMgr {
    const db: CBlacklistDb

    constructor (db: CBlacklistDb)
      ensures this.db == db
    {
      this.db := db;
    }

    method AddL(uid: int, version: int) returns (ok: bool)
      modifies db`table
      ensures ok == db.isOpen && db.table == if db.isOpen then Written(old(db.table), uid, version) else old(db.table)
    {
      var isfound := db.FindL(uid);
      if isfound { ok := db.UpdateL(uid, version); } else { ok := db.AddL(uid, version); }
    }

    /** Adds a uid that is not there yet: the list never holds one twice. */
    method AddtoDontloadListL(uid: int)
      modifies db`dontload
      ensures Uids(db.dontload) == Uids(old(db.dontload)) + if db.isOpen then {uid} else {}
      ensures NoneTwice(old(db.dontload)) ==> NoneTwice(db.dontload)
    {
      var found := db.FindInDontloadListL(uid);
      if !found { var ok := db.AddtoDontloadListL(uid); }
    }
  }

  function Uids(list: seq<int>): set<int> { set u | u in list }

  ghost predicate NoneTwice(list: seq<int>) { forall i, j | 0 <= i < j < |list| :: list[i] != list[j] }

  /** The part of CIndexingManager that loads the plug-ins at start-up. */
  class Loader {
    const blacklist: CBlacklistMgr
    var plugins: seq<int>   // iPluginArray, by uid

    constructor (blacklist: CBlacklistMgr)
      ensures this.blacklist == blacklist && plugins == []
    {
      this.blacklist, plugins := blacklist, [];
    }

    /** True when the plug-in is to be loaded. */
    method GetPluginLoadStatusL(p: Plugin) returns (load: bool)
      ensures load == !Skipped(blacklist.db.table, blacklist.db.isOpen, Uids(blacklist.db.dontload), p)
    {
      var pluginblacklisted := blacklist.db.FindWithVersionL(p.uid, p.version);
      var loadstatus := blacklist.db.FindInDontloadListL(p.uid);
      load := !(loadstatus || pluginblacklisted);
    }

    /** Loads one plug-in; crashed means that the process is gone before the next statement. */
    method LoadHarvesterpluginL(p: Plugin, outcome: Outcome) returns (crashed: bool)
      modifies this`plugins, blacklist.db`table
      ensures crashed == outcome.Crashes?
      ensures blacklist.db.table == Handled(old(blacklist.db.table), blacklist.db.isOpen, p, outcome)
      ensures plugins == if outcome.Loads? then old(plugins) + [p.uid] else old(plugins)
    {
      var ok := blacklist.AddL(p.uid, p.version);
      if outcome.Crashes? { return true; }
      crashed := false;
      if outcome.Loads? {
        blacklist.db.Remove(p.uid);
        plugins := plugins + [p.uid];
      }
    }

    /** The second loop of LoadPluginsL. */
    method LoadAll(infos: seq<Plugin>, o: Outcomes) returns (crashed: bool, ghost attempted: seq<int>)
      modifies this`plugins, blacklist.db`table
      ensures Booted(blacklist.db.table, crashed, attempted) ==
        Boot(old(blacklist.db.table), blacklist.db.isOpen, Uids(blacklist.db.dontload), infos, 0, o)
    {
      hide Skipped, Handled;
      crashed, attempted := false, [];
      ghost var start := Boot(blacklist.db.table, blacklist.db.isOpen, Uids(blacklist.db.dontload), infos, 0, o);
      ghost var dontload := Uids(blacklist.db.dontload);
      for i := 0 to |infos|
        invariant !crashed && blacklist.db.isOpen == old(blacklist.db.isOpen) && Uids(blacklist.db.dontload) == dontload
        invariant var rest := Boot(blacklist.db.table, blacklist.db.isOpen, dontload, infos, i, o);
          start == Booted(rest.table, rest.crashed, attempted + rest.attempted)
      {
        var load := GetPluginLoadStatusL(infos[i]);
        if load {
          ghost var before := attempted;
          crashed := LoadHarvesterpluginL(infos[i], OutcomeOf(o, infos[i].uid));
          attempted := attempted + [infos[i].uid];
          if crashed { return; }
          ghost var rest := Boot(blacklist.db.table, blacklist.db.isOpen, dontload, infos, i + 1, o);
          assert before + ([infos[i].uid] + rest.attempted) == attempted + rest.attempted;
        }
      }
      assert attempted + [] == attempted;
    }

    /** LoadPluginsL: the file plug-in goes to the end of the list, then all are tried in order. */
    method LoadPluginsL(infos: seq<Plugin>, o: Outcomes) returns (crashed: bool, ghost attempted: seq<int>)
      modifies this`plugins, blacklist.db`table
      ensures Booted(blacklist.db.table, crashed, attempted) ==
        Boot(old(blacklist.db.table), blacklist.db.isOpen, Uids(blacklist.db.dontload), FilesLast(infos), 0, o)
    {
      var ordered := infos;
      assert infos[0..] == infos && infos[..0] == [];
      for i := 0 to |infos|
        invariant ordered == infos && FilesLast(infos) == infos[..i] + FilesLast(infos[i..])
      {
        assert infos[i..][1..] == infos[i + 1..];
        if infos[i].uid == KFILES_PLUGIN {
          ordered := infos[..i] + infos[i + 1..] + [infos[i]];
          assert ordered == infos[..i] + (infos[i + 1..] + [infos[i]]);
          break;
        }
        assert infos[..i] + ([infos[i]] + FilesLast(infos[i + 1..])) == infos[..i + 1] + FilesLast(infos[i + 1..]);
      }
      assert ordered == FilesLast(infos);
      crashed, attempted := LoadAll(ordered, o);
    }
  }

  const KFILES_PLUGIN := 0x2001F703

  /** The first plug-in with the uid of the file harvester moved to the end. */
  function FilesLast(infos: seq<Plugin>): seq<Plugin> {
    if infos == [] then []
    else if infos[0].uid == KFILES_PLUGIN then infos[1..] + [infos[0]]
    else [infos[0]] + FilesLast(infos[1..])
  }

  /** The order of loading: the first plug-in with that uid is the last to be tried, the others stay in order. */
  lemma {:induction false} FilesLastOrder(infos: seq<Plugin>, i: nat)
    requires i <= |infos| && (forall j | 0 <= j < i :: infos[j].uid != 0x2001_F703)
    requires i < |infos| ==> infos[i].uid == 0x2001_F703
    ensures FilesLast(infos) == if i == |infos| then infos else infos[..i] + infos[i + 1..] + [infos[i]]
  {
    if i > 0 {
      FilesLastOrder(infos[1..], i - 1);
      assert infos == [infos[0]] + infos[1..];
      if i < |infos| {
        assert infos[..i] == [infos[0]] + infos[1..][..i - 1];
        assert infos[1..][i..] == infos[i + 1..];
      }
    }
  }

  /** Moving a plug-in to the end neither adds nor loses one. */
  lemma {:induction false} FilesLastPermutes(infos: seq<Plugin>)
    ensures multiset(FilesLast(infos)) == multiset(infos)
  {
    if infos != [] {
      assert infos == [infos[0]] + infos[1..];
      if infos[0].uid != KFILES_PLUGIN { FilesLastPermutes(infos[1..]); }
    }
  }
}
