/**
 Crash-safe loading of harvester plug-ins: a plug-in is written into a blacklist before it is
 loaded and taken out when it has loaded (cindexingmanager.cpp, cblacklistmgr.cpp, cblacklistdb.cpp).
*/
module Blacklist {

  datatype Row = Row(uid: int, version: int)

  // ----- the table -----

  /** The first row of SELECT * FROM table WHERE uid=... */
  function First(t: seq<Row>, uid: int): (r: nat)
    ensures r <= |t|
    ensures forall i | 0 <= i < r :: t[i].uid != uid
    ensures r < |t| ==> t[r].uid == uid
  {
    if t == [] || t[0].uid == uid then 0 else 1 + First(t[1..], uid)
  }

  /** DELETE FROM table WHERE uid=... */
  function Deleted(t: seq<Row>, uid: int): seq<Row> {
    if t == [] then [] else (if t[0].uid == uid then [] else [t[0]]) + Deleted(t[1..], uid)
  }

  /** CBlacklistMgr::AddL on an open database: update the row found, or insert one. */
  function Written(t: seq<Row>, uid: int, version: int): seq<Row> {
    var i := First(t, uid);
    if i < |t| then t[i := Row(uid, version)] else t + [Row(uid, version)]
  }

  /** FindWithVersionL: the first row of that uid has that version. */
  predicate Listed(t: seq<Row>, uid: int, version: int) {
    First(t, uid) < |t| && t[First(t, uid)].version == version
  }

  predicate OneRowEach(t: seq<Row>) { forall i, j | 0 <= i < |t| && 0 <= j < |t| && t[i].uid == t[j].uid :: i == j }

  lemma {:induction false} FirstOfAppended(t: seq<Row>, r: Row, uid: int)
    ensures First(t + [r], uid) == if First(t, uid) < |t| || r.uid == uid then First(t, uid) else |t| + 1
  {
    if t != [] && t[0].uid != uid {
      assert (t + [r])[1..] == t[1..] + [r];
      FirstOfAppended(t[1..], r, uid);
    }
  }

  lemma {:induction false} FirstOfUpdated(t: seq<Row>, i: nat, version: int, uid: int)
    requires i < |t|
    ensures First(t[i := Row(t[i].uid, version)], uid) == First(t, uid)
  {
    if i == 0 {
      assert t[0 := Row(t[0].uid, version)][1..] == t[1..];
    } else if t[0].uid != uid {
      assert t[i := Row(t[i].uid, version)][1..] == t[1..][i - 1 := Row(t[i].uid, version)];
      FirstOfUpdated(t[1..], i - 1, version, uid);
    }
  }

  /** Writing lists the plug-in with that version, and changes nothing for any other. */
  lemma WrittenIsListed(t: seq<Row>, uid: int, version: int, u: int, v: int)
    ensures Listed(Written(t, uid, version), u, v) <==> if u == uid then v == version else Listed(t, u, v)
  {
    if First(t, uid) < |t| {
      FirstOfUpdated(t, First(t, uid), version, u);
    } else {
      FirstOfAppended(t, Row(uid, version), u);
    }
  }

  lemma ListedFromFront(t: seq<Row>, u: int, v: int)
    requires t != []
    ensures Listed(t, u, v) <==> if t[0].uid == u then t[0].version == v else Listed(t[1..], u, v)
  {
  }

  /** Deleting takes the plug-in off the list whatever its version, and changes nothing for any other. */
  lemma {:induction false} DeletedIsNotListed(t: seq<Row>, uid: int, u: int, v: int)
    ensures Listed(Deleted(t, uid), u, v) <==> u != uid && Listed(t, u, v)
  {
    if t != [] {
      DeletedIsNotListed(t[1..], uid, u, v);
      ListedFromFront(t, u, v);
      if t[0].uid != uid {
        assert ([t[0]] + Deleted(t[1..], uid))[1..] == Deleted(t[1..], uid);
        ListedFromFront([t[0]] + Deleted(t[1..], uid), u, v);
      } else {
        assert [] + Deleted(t[1..], uid) == Deleted(t[1..], uid);
      }
    }
  }

  lemma {:induction false} DeletedMembers(t: seq<Row>, uid: int, r: Row)
    ensures r in Deleted(t, uid) <==> r in t && r.uid != uid
  {
    if t != [] { DeletedMembers(t[1..], uid, r); }
  }

  predicate Absent(t: seq<Row>, uid: int) { forall r | r in t :: r.uid != uid }

  /** OneRowEach, from the front. */
  lemma {:induction false} OneRowFromFront(t: seq<Row>)
    requires t != []
    ensures OneRowEach(t) <==> Absent(t[1..], t[0].uid) && OneRowEach(t[1..])
  {
    if OneRowEach(t) {
      forall r | r in t[1..] ensures r.uid != t[0].uid {
        var i :| 0 <= i < |t| - 1 && t[1..][i] == r;
        assert t[i + 1] == r;
      }
      forall i, j | 0 <= i < |t| - 1 && 0 <= j < |t| - 1 && t[1..][i].uid == t[1..][j].uid ensures i == j {
        assert t[i + 1].uid == t[j + 1].uid;
      }
    }
    if Absent(t[1..], t[0].uid) && OneRowEach(t[1..]) {
      forall i, j | 0 <= i < |t| && 0 <= j < |t| && t[i].uid == t[j].uid ensures i == j {
        if i > 0 { assert t[i] == t[1..][i - 1]; }
        if j > 0 { assert t[j] == t[1..][j - 1]; }
      }
    }
  }

  lemma {:induction false} DeletingKeepsOneRowEach(t: seq<Row>, uid: int)
    requires OneRowEach(t)
    ensures OneRowEach(Deleted(t, uid))
  {
    if t != [] {
      OneRowFromFront(t);
      DeletingKeepsOneRowEach(t[1..], uid);
      if t[0].uid != uid {
        var d := [t[0]] + Deleted(t[1..], uid);
        assert d[1..] == Deleted(t[1..], uid);
        forall r | r in d[1..] ensures r.uid != t[0].uid { DeletedMembers(t[1..], uid, r); }
        OneRowFromFront(d);
      }
    }
  }

  lemma WritingKeepsOneRowEach(t: seq<Row>, uid: int, version: int)
    requires OneRowEach(t)
    ensures OneRowEach(Written(t, uid, version))
  {
  }

  // ----- one boot -----

  datatype Plugin = Plugin(uid: int, version: int)

  /** What NewL of a plug-in does: returns, leaves, or takes the process down. */
  datatype Outcome = Loads | Leaves | Crashes

  type Outcomes = map<int, Outcome>

  function OutcomeOf(o: Outcomes, uid: int): Outcome { if uid in o then o[uid] else Loads }

  /** The state of the blacklist after a boot, whether it crashed, and the plug-ins it attempted to load. */
  datatype Booted = Booted(table: seq<Row>, crashed: bool, attempted: seq<int>)

  /** Is the plug-in to be skipped; a database that is not open lists nothing. */
  predicate Skipped(t: seq<Row>, open: bool, dontload: set<int>, p: Plugin) {
    open && (Listed(t, p.uid, p.version) || p.uid in dontload)
  }

  /** LoadHarvesterpluginL: written before the load, deleted when it succeeds; a closed database keeps nothing. */
  function Handled(t: seq<Row>, open: bool, p: Plugin, r: Outcome): seq<Row> {
    if !open then t
    else if r.Loads? then Deleted(Written(t, p.uid, p.version), p.uid)
    else Written(t, p.uid, p.version)
  }

  lemma HandledListed(t: seq<Row>, open: bool, p: Plugin, r: Outcome, u: int, v: int)
    ensures Listed(Handled(t, open, p, r), u, v) <==>
      if open && u == p.uid then !r.Loads? && v == p.version else Listed(t, u, v)
  {
    WrittenIsListed(t, p.uid, p.version, u, v);
    DeletedIsNotListed(Written(t, p.uid, p.version), p.uid, u, v);
  }

  /** The loop of LoadPluginsL over the plug-ins from place i on. */
  function Boot(t: seq<Row>, open: bool, dontload: set<int>, ps: seq<Plugin>, i: nat, o: Outcomes): Booted
    decreases |ps| - i
  {
    if i >= |ps| then Booted(t, false, [])
    else if Skipped(t, open, dontload, ps[i]) then Boot(t, open, dontload, ps, i + 1, o)
    else
      var t' := Handled(t, open, ps[i], OutcomeOf(o, ps[i].uid));
      if OutcomeOf(o, ps[i].uid).Crashes? then Booted(t', true, [ps[i].uid])
      else
        var b := Boot(t', open, dontload, ps, i + 1, o);
        Booted(b.table, b.crashed, [ps[i].uid] + b.attempted)
  }

  /** No uid comes with two versions. */
  predicate VersionsAgree(ps: seq<Plugin>) { forall p, q | p in ps && q in ps && p.uid == q.uid :: p == q }

  lemma {:induction false} BootKeepsOneRowEach(t: seq<Row>, open: bool, dontload: set<int>, ps: seq<Plugin>, i: nat,
      o: Outcomes)
    requires OneRowEach(t)
    ensures OneRowEach(Boot(t, open, dontload, ps, i, o).table)
    decreases |ps| - i
  {
    if i < |ps| {
      var p := ps[i];
      hide OneRowEach, Written, Deleted;
      WritingKeepsOneRowEach(t, p.uid, p.version);
      DeletingKeepsOneRowEach(Written(t, p.uid, p.version), p.uid);
      BootKeepsOneRowEach(if Skipped(t, open, dontload, p) then t
        else Handled(t, open, p, OutcomeOf(o, p.uid)), open, dontload, ps, i + 1, o);
    }
  }

  /** A boot changes the blacklist entry of a plug-in only if it attempts to load it. */
  lemma {:induction false} UnattemptedIsUntouched(t: seq<Row>, open: bool, dontload: set<int>, ps: seq<Plugin>,
      i: nat, o: Outcomes, u: int, v: int)
    ensures var b := Boot(t, open, dontload, ps, i, o);
      u !in b.attempted ==> (Listed(b.table, u, v) <==> Listed(t, u, v))
    decreases |ps| - i
  {
    if i < |ps| {
      var p := ps[i];
      HandledListed(t, open, p, OutcomeOf(o, p.uid), u, v);
      hide Listed, Handled;
      UnattemptedIsUntouched(if Skipped(t, open, dontload, p) then t
        else Handled(t, open, p, OutcomeOf(o, p.uid)), open, dontload, ps, i + 1, o, u, v);
    }
  }

  lemma SameUidSamePlugin(ps: seq<Plugin>, p: Plugin, q: Plugin)
    requires VersionsAgree(ps) && p in ps && q in ps
    ensures p.uid == q.uid ==> p == q
  {
  }

  /** On an open database a listed plug-in is not attempted, and stays listed. */
  lemma {:induction false} ListedIsSpared(t: seq<Row>, dontload: set<int>, ps: seq<Plugin>, i: nat, o: Outcomes,
      p: Plugin)
    requires VersionsAgree(ps) && p in ps && Listed(t, p.uid, p.version)
    ensures var b := Boot(t, true, dontload, ps, i, o); p.uid !in b.attempted && Listed(b.table, p.uid, p.version)
    decreases |ps| - i
  {
    if i < |ps| {
      var q := ps[i];
      SameUidSamePlugin(ps, q, p);
      HandledListed(t, true, q, OutcomeOf(o, q.uid), p.uid, p.version);
      hide Listed, Handled, VersionsAgree, OutcomeOf;
      if Skipped(t, true, dontload, q) {
        ListedIsSpared(t, dontload, ps, i + 1, o, p);
      } else {
        var t' := Handled(t, true, q, OutcomeOf(o, q.uid));
        assert q.uid != p.uid && Listed(t', p.uid, p.version);
        hide Skipped;
        ListedIsSpared(t', dontload, ps, i + 1, o, p);
        assert p.uid !in [q.uid] + Boot(t', true, dontload, ps, i + 1, o).attempted;
      }
    }
  }

  /** On an open database a plug-in whose load crashed or left is listed when the boot is over. */
  lemma {:induction false} FailureIsListed(t: seq<Row>, dontload: set<int>, ps: seq<Plugin>, i: nat, o: Outcomes,
      p: Plugin)
    requires VersionsAgree(ps) && p in ps && !OutcomeOf(o, p.uid).Loads?
    ensures var b := Boot(t, true, dontload, ps, i, o); p.uid in b.attempted ==> Listed(b.table, p.uid, p.version)
    decreases |ps| - i
  {
    if i < |ps| {
      var q := ps[i];
      var t' := if Skipped(t, true, dontload, q) then t else Handled(t, true, q, OutcomeOf(o, q.uid));
      SameUidSamePlugin(ps, q, p);
      HandledListed(t, true, q, OutcomeOf(o, q.uid), p.uid, p.version);
      hide Listed, Handled;
      if Skipped(t, true, dontload, q) || q != p {
        FailureIsListed(t', dontload, ps, i + 1, o, p);
      } else if OutcomeOf(o, q.uid).Leaves? {
        ListedIsSpared(t', dontload, ps, i + 1, o, p);
      }
    }
  }

  // ----- all boots -----

  /** The blacklist after a number of boots, with the same plug-ins and an open database. */
  function AfterBoots(t: seq<Row>, dontload: set<int>, ps: seq<Plugin>, os: seq<Outcomes>): seq<Row> {
    if os == [] then t else Boot(AfterBoots(t, dontload, ps, os[..|os| - 1]), true, dontload, ps, 0, os[|os| - 1]).table
  }

  /** Boot number k of these. */
  function BootNumber(t: seq<Row>, dontload: set<int>, ps: seq<Plugin>, os: seq<Outcomes>, k: nat): Booted
    requires k < |os|
  {
    Boot(AfterBoots(t, dontload, ps, os[..k]), true, dontload, ps, 0, os[k])
  }

  lemma {:induction false} StaysListed(t: seq<Row>, dontload: set<int>, ps: seq<Plugin>, os: seq<Outcomes>, i: nat,
      k: nat, p: Plugin)
    requires VersionsAgree(ps) && p in ps && i <= k <= |os|
      && Listed(AfterBoots(t, dontload, ps, os[..i]), p.uid, p.version)
    ensures Listed(AfterBoots(t, dontload, ps, os[..k]), p.uid, p.version)
    decreases k
  {
    if i < k {
      hide Listed;
      StaysListed(t, dontload, ps, os, i, k - 1, p);
      assert os[..k][..k - 1] == os[..k - 1];
      ListedIsSpared(AfterBoots(t, dontload, ps, os[..k - 1]), dontload, ps, 0, os[k - 1], p);
    }
  }

  /** A plug-in whose load crashed or left in one boot is never attempted in a later one. */
  lemma FailureIsNeverRepeated(t: seq<Row>, dontload: set<int>, ps: seq<Plugin>, os: seq<Outcomes>, i: nat, k: nat,
      p: Plugin)
    requires VersionsAgree(ps) && p in ps && i < k < |os|
    requires p.uid in BootNumber(t, dontload, ps, os, i).attempted && !OutcomeOf(os[i], p.uid).Loads?
    ensures p.uid !in BootNumber(t, dontload, ps, os, k).attempted
  {
    FailureIsListed(AfterBoots(t, dontload, ps, os[..i]), dontload, ps, 0, os[i], p);
    assert os[..i + 1][..i] == os[..i];
    hide Listed;
    StaysListed(t, dontload, ps, os, i + 1, k, p);
    ListedIsSpared(AfterBoots(t, dontload, ps, os[..k]), dontload, ps, 0, os[k], p);
  }

  // ----- the number of crashing boots -----

  /** The plug-ins that are not listed with their version. */
  function Unlisted(t: seq<Row>, ps: seq<Plugin>): set<Plugin> { set p | p in ps && !Listed(t, p.uid, p.version) }

  function CrashCount(t: seq<Row>, dontload: set<int>, ps: seq<Plugin>, os: seq<Outcomes>): nat {
    if os == [] then 0 else
    var last := Boot(AfterBoots(t, dontload, ps, os[..|os| - 1]), true, dontload, ps, 0, os[|os| - 1]);
    CrashCount(t, dontload, ps, os[..|os| - 1]) + (if last.crashed then 1 else 0)
  }

  /** A crashing boot has a plug-in that it attempted and that crashed. */
  lemma {:induction false} CrashHasCulprit(t: seq<Row>, open: bool, dontload: set<int>, ps: seq<Plugin>, i: nat,
      o: Outcomes) returns (p: Plugin)
    requires Boot(t, open, dontload, ps, i, o).crashed
    ensures p in ps && p.uid in Boot(t, open, dontload, ps, i, o).attempted && OutcomeOf(o, p.uid).Crashes?
    decreases |ps| - i
  {
    var q := ps[i];
    if !Skipped(t, open, dontload, q) && OutcomeOf(o, q.uid).Crashes? {
      p := q;
    } else {
      p := CrashHasCulprit(if Skipped(t, open, dontload, q) then t
        else Handled(t, open, q, OutcomeOf(o, q.uid)), open, dontload, ps, i + 1, o);
    }
  }

  lemma BootShrinksUnlisted(t: seq<Row>, dontload: set<int>, ps: seq<Plugin>, o: Outcomes)
    requires VersionsAgree(ps)
    ensures var b := Boot(t, true, dontload, ps, 0, o);
      |Unlisted(b.table, ps)| + (if b.crashed then 1 else 0) <= |Unlisted(t, ps)|
  {
    var b := Boot(t, true, dontload, ps, 0, o);
    forall p | p in ps && Listed(t, p.uid, p.version) ensures Listed(b.table, p.uid, p.version) {
      ListedIsSpared(t, dontload, ps, 0, o, p);
    }
    assert Unlisted(b.table, ps) <= Unlisted(t, ps);
    SmallerSet(Unlisted(b.table, ps), Unlisted(t, ps));
    if b.crashed {
      var p := CrashHasCulprit(t, true, dontload, ps, 0, o);
      FailureIsListed(t, dontload, ps, 0, o, p);
      if Listed(t, p.uid, p.version) { ListedIsSpared(t, dontload, ps, 0, o, p); }
      assert p in Unlisted(t, ps) && p !in Unlisted(b.table, ps);
      SmallerSet(Unlisted(b.table, ps), Unlisted(t, ps) - {p});
    }
  }

  lemma {:induction false} SmallerSet(a: set<Plugin>, b: set<Plugin>)
    requires a <= b
    ensures |a| <= |b|
  {
    if a != {} {
      var x :| x in a;
      SmallerSet(a - {x}, b - {x});
    }
  }

  lemma {:induction false} CrashesCostPlugins(t: seq<Row>, dontload: set<int>, ps: seq<Plugin>, os: seq<Outcomes>)
    requires VersionsAgree(ps)
    ensures CrashCount(t, dontload, ps, os) + |Unlisted(AfterBoots(t, dontload, ps, os), ps)| <= |Unlisted(t, ps)|
  {
    if os != [] {
      CrashesCostPlugins(t, dontload, ps, os[..|os| - 1]);
      BootShrinksUnlisted(AfterBoots(t, dontload, ps, os[..|os| - 1]), dontload, ps, os[|os| - 1]);
    }
  }

  lemma {:induction false} UnlistedAreFew(t: seq<Row>, ps: seq<Plugin>)
    ensures |Unlisted(t, ps)| <= |ps|
  {
    if ps == [] {
      assert Unlisted(t, ps) == {};
    } else {
      UnlistedAreFew(t, ps[1..]);
      assert ps == [ps[0]] + ps[1..];
      assert Unlisted(t, ps) == Unlisted(t, ps[1..]) + if Listed(t, ps[0].uid, ps[0].version) then {} else {ps[0]};
    }
  }

  /** However many boots there are and whatever the plug-ins do, no more boots crash than there are plug-ins. */
  lemma CrashingBootsAreBounded(t: seq<Row>, dontload: set<int>, ps: seq<Plugin>, os: seq<Outcomes>)
    requires VersionsAgree(ps)
    ensures CrashCount(t, dontload, ps, os) <= |ps|
  {
    CrashesCostPlugins(t, dontload, ps, os);
    UnlistedAreFew(t, ps);
  }

  lemma {:induction false} DisagreementCrashes(t: seq<Row>, dontload: set<int>, ps: seq<Plugin>, i: nat, o: Outcomes,
      p: Plugin)
    requires (exists k :: i <= k < |ps| && ps[k] == p) && p.uid !in dontload && OutcomeOf(o, p.uid).Crashes?
    requires !Listed(t, p.uid, p.version)
    ensures Boot(t, true, dontload, ps, i, o).crashed
    decreases |ps| - i
  {
    var q := ps[i];
    if Skipped(t, true, dontload, q) {
      DisagreementCrashes(t, dontload, ps, i + 1, o, p);
    } else if !OutcomeOf(o, q.uid).Crashes? {
      HandledListed(t, true, q, OutcomeOf(o, q.uid), p.uid, p.version);
      DisagreementCrashes(Handled(t, true, q, OutcomeOf(o, q.uid)), dontload, ps, i + 1, o, p);
    }
  }

  /** A uid with two versions takes down every boot, whatever is listed: one row cannot list both. */
  lemma {:induction false} EveryBootCrashes(t: seq<Row>, ps: seq<Plugin>, p: Plugin, q: Plugin, n: nat)
    requires p in ps && q in ps && p.uid == q.uid && p.version != q.version
    ensures CrashCount(t, {}, ps, seq(n, _ => map[p.uid := Crashes])) == n
  {
    if n > 0 {
      var os := seq(n, _ => map[p.uid := Crashes]);
      assert os[..n - 1] == seq(n - 1, _ => map[p.uid := Crashes]);
      EveryBootCrashes(t, ps, p, q, n - 1);
      var t' := AfterBoots(t, {}, ps, os[..n - 1]);
      DisagreementCrashes(t', {}, ps, 0, os[n - 1], if Listed(t', p.uid, p.version) then q else p);
    }
  }

  /** At most as many boots crash as there are plug-ins, always, if and only if no uid comes with two versions. */
  lemma CrashBoundIff(ps: seq<Plugin>)
    ensures VersionsAgree(ps) <==> forall t, dontload, os :: CrashCount(t, dontload, ps, os) <= |ps|
  {
    if VersionsAgree(ps) {
      forall t, dontload, os ensures CrashCount(t, dontload, ps, os) <= |ps| {
        CrashingBootsAreBounded(t, dontload, ps, os);
      }
    } else {
      var p, q :| p in ps && q in ps && p.uid == q.uid && p != q;
      EveryBootCrashes([], ps, p, q, |ps| + 1);
    }
  }

  // ----- a database that does not open -----

  /**
   The crash of a plug-in is remembered at the next boot if and only if the database is open then
   and was open in the boot that crashed, or has listed the plug-in from before. The plug-in is the
   last one that the crashing boot attempted.
  */
  lemma {:induction false} CrashIsRememberedIff(t: seq<Row>, open: bool, dontload: set<int>, ps: seq<Plugin>, i: nat,
      o: Outcomes, openNext: bool)
    returns (p: Plugin)
    requires Boot(t, open, dontload, ps, i, o).crashed
    ensures var b := Boot(t, open, dontload, ps, i, o);
      && p in ps && OutcomeOf(o, p.uid).Crashes? && b.attempted != [] && b.attempted[|b.attempted| - 1] == p.uid
      && (Skipped(b.table, openNext, dontload, p)
        <==> openNext && (open || Listed(t, p.uid, p.version) || p.uid in dontload))
    decreases |ps| - i
  {
    var q := ps[i];
    HandledListed(t, open, q, OutcomeOf(o, q.uid), q.uid, q.version);
    hide Handled, Listed;
    if Skipped(t, open, dontload, q) {
      p := CrashIsRememberedIff(t, open, dontload, ps, i + 1, o, openNext);
    } else if !OutcomeOf(o, q.uid).Crashes? {
      var t' := Handled(t, open, q, OutcomeOf(o, q.uid));
      ClosedKeepsTable(t, open, q, OutcomeOf(o, q.uid));
      p := CrashIsRememberedIff(t', open, dontload, ps, i + 1, o, openNext);
      var rest := Boot(t', open, dontload, ps, i + 1, o);
      assert ([q.uid] + rest.attempted)[|rest.attempted|] == rest.attempted[|rest.attempted| - 1];
    } else {
      p := q;
    }
  }

  lemma ClosedKeepsTable(t: seq<Row>, open: bool, p: Plugin, r: Outcome)
    ensures !open ==> Handled(t, open, p, r) == t
  {
  }

  /** While the database never opens, a plug-in that crashes takes down every boot that comes to it. */
  lemma {:induction false} ClosedForgetsEverything(t: seq<Row>, dontload: set<int>, ps: seq<Plugin>, i: nat,
      o: Outcomes)
    requires exists k :: i <= k < |ps| && OutcomeOf(o, ps[k].uid).Crashes?
    ensures Boot(t, false, dontload, ps, i, o).crashed && Boot(t, false, dontload, ps, i, o).table == t
    decreases |ps| - i
  {
    var k :| i <= k < |ps| && OutcomeOf(o, ps[k].uid).Crashes?;
    if !OutcomeOf(o, ps[i].uid).Crashes? {
      ClosedForgetsEverything(t, dontload, ps, i + 1, o);
    }
  }
}
