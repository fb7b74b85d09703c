/** Printing what was parsed gives back the tokens, up to empty parameter lists. */
module AnalyzerConverse {
  import opened AnalyzerSyntax
  import opened AnalyzerTheorems

  /** The tokens without the empty parameter lists "( )". */
  function Squeeze(ts: seq<Token>): seq<Token> {
    if |ts| >= 2 && ts[0].LeftBracket? && ts[1].RightBracket? then Squeeze(ts[2..])
    else if ts == [] then []
    else [ts[0]] + Squeeze(ts[1..])
  }

  lemma {:induction false} SqueezeAppend(a: seq<Token>, b: seq<Token>)
    requires !At(b, RightBracket)
    ensures Squeeze(a + b) == Squeeze(a) + Squeeze(b)
  {
    if a == [] {
      assert a + b == b;
    } else if |a| >= 2 && a[0].LeftBracket? && a[1].RightBracket? {
      assert (a + b)[2..] == a[2..] + b;
      SqueezeAppend(a[2..], b);
    } else {
      assert (a + b)[1..] == a[1..] + b;
      SqueezeAppend(a[1..], b);
    }
  }

  lemma {:induction false} SqueezeFlat(ts: seq<Token>)
    requires LeftBracket !in ts
    ensures Squeeze(ts) == ts
  {
    if ts != [] { SqueezeFlat(ts[1..]); }
  }

  /** From ts the tokens up to rest were read, and they say what `printed` says. */
  predicate Reads(ts: seq<Token>, rest: seq<Token>, printed: seq<Token>) {
    && |rest| <= |ts| && ts[|ts| - |rest|..] == rest
    && Squeeze(ts[..|ts| - |rest|]) == printed
  }

  lemma ReadsBoth(ts: seq<Token>, mid: seq<Token>, rest: seq<Token>, p: seq<Token>, q: seq<Token>)
    requires Reads(ts, mid, p) && Reads(mid, rest, q)
    requires |mid| > |rest| ==> !At(mid, RightBracket)
    ensures Reads(ts, rest, p + q)
  {
    var a, b := ts[..|ts| - |mid|], mid[..|mid| - |rest|];
    assert ts[..|ts| - |rest|] == a + b;
    SqueezeAppend(a, b);
  }

  lemma ReadsNothing(ts: seq<Token>)
    ensures Reads(ts, ts, [])
  {
  }

  lemma ReadsOne(ts: seq<Token>)
    requires ts != []
    ensures Reads(ts, ts[1..], [ts[0]])
  {
    assert ts[..1] == [ts[0]];
    assert Squeeze([ts[0]]) == [ts[0]] + Squeeze([]);
  }

  lemma ReadsThree(ts: seq<Token>, m: seq<Token>, n: seq<Token>, p: seq<Token>, q: seq<Token>, t: Token)
    requires Reads(ts, m, p) && Reads(m, n, q) && At(n, t) && !t.RightBracket?
    requires |m| > |n| ==> !At(m, RightBracket)
    ensures Reads(ts, n[1..], p + q + [t])
  {
    ReadsBoth(ts, m, n, p, q);
    ReadsOne(n);
    ReadsBoth(ts, n, n[1..], p + q, [t]);
  }

  // ----- each parse function -----

  lemma ParamsRest(ts: seq<Token>, first: bool) returns (p: Param, tail: seq<Token>)
    requires ParamsOf(ts, first).Done? && !At(ts, RightBracket)
    ensures ts == (if first then [] else [Comma]) + [PrintParam(p)] + tail
    ensures |tail| < |ts| && ParamsOf(tail, false).Done? && ParamsOf(ts, first) == Prepend([p], ParamsOf(tail, false))
  {
    var us := if first then ts else ts[1..];
    p, tail := ParamOf(us).value, ParamOf(us).rest;
    assert us == [PrintParam(p)] + tail;
  }

  /** Parameters are printed exactly as they were read. */
  lemma {:induction false} ParamsRead(ts: seq<Token>, first: bool)
    requires ParamsOf(ts, first).Done?
    ensures var r := ParamsOf(ts, first); ts == PrintParams(r.value, first) + r.rest
    decreases |ts|
  {
    if At(ts, RightBracket) {
      assert ts == [RightBracket] + ts[1..];
    } else {
      var p, tail := ParamsRest(ts, first);
      hide ParamsOf, PrintParam;
      ParamsRead(tail, false);
      var ps := ParamsOf(tail, false).value;
      assert ([p] + ps)[1..] == ps;
    }
  }

  lemma {:induction false} ParamsHaveNoBracket(ps: seq<Param>, first: bool)
    ensures LeftBracket !in PrintParams(ps, first)
    ensures ps != [] && first ==> !At(PrintParams(ps, first), RightBracket)
  {
    if ps != [] { ParamsHaveNoBracket(ps[1..], false); }
  }

  lemma SqueezeParams(ps: seq<Param>)
    ensures Squeeze([LeftBracket] + PrintParams(ps, true)) ==
      if ps == [] then [] else [LeftBracket] + PrintParams(ps, true)
  {
    ParamsHaveNoBracket(ps, true);
    var ts := [LeftBracket] + PrintParams(ps, true);
    if ps == [] {
      assert ts[2..] == [];
    } else {
      assert ts[1..] == PrintParams(ps, true);
      SqueezeFlat(PrintParams(ps, true));
    }
  }

  lemma InvokationReads(ts: seq<Token>)
    requires InvokationOf(ts).Done?
    ensures var r := InvokationOf(ts); Reads(ts, r.rest, PrintInvokation(r.value)) && !At(ts, RightBracket)
  {
    var r := InvokationOf(ts);
    ReadsOne(ts);
    if At(ts[1..], LeftBracket) {
      ParamsRead(ts[2..], true);
      var ps := r.value.params;
      assert ts[1..] == ([LeftBracket] + PrintParams(ps, true)) + r.rest;
      SqueezeParams(ps);
      assert ts[1..][..|ts[1..]| - |r.rest|] == [LeftBracket] + PrintParams(ps, true);
      ReadsBoth(ts, ts[1..], r.rest, [ts[0]], Squeeze([LeftBracket] + PrintParams(ps, true)));
      assert [ts[0]] + [] == [ts[0]];
    }
  }

  lemma {:induction false} FiltersRead(ts: seq<Token>)
    requires FiltersOf(ts).Done?
    ensures var r := FiltersOf(ts); Reads(ts, r.rest, PrintFilters(r.value))
    ensures ts == FiltersOf(ts).rest || At(ts, Pipe)
    decreases |ts|
  {
    if At(ts, Pipe) {
      ReadsOne(ts);
      InvokationReads(ts[1..]);
      var i := InvokationOf(ts[1..]);
      FiltersRead(i.rest);
      var r := FiltersOf(i.rest);
      hide Reads, InvokationOf, PrintInvokation;
      ReadsBoth(ts, ts[1..], i.rest, [ts[0]], PrintInvokation(i.value));
      ReadsBoth(ts, i.rest, r.rest, [Pipe] + PrintInvokation(i.value), PrintFilters(r.value));
    } else {
      ReadsNothing(ts);
    }
  }

  lemma {:induction false} NamesRead(ts: seq<Token>)
    requires NamesOf(ts).Done?
    ensures var r := NamesOf(ts); ts == PrintNames(r.value) + r.rest
    decreases |ts|
  {
    if ts != [] && !ts[0].Colon? {
      NamesRead(ts[2..]);
      assert ts == [ts[0], ts[1]] + ts[2..];
    }
  }

  lemma SqueezeNames(n: string, ns: seq<string>)
    ensures Squeeze([CaseWord, StrLit(n)] + PrintNames(ns) + [Colon])
      == [CaseWord, StrLit(n)] + PrintNames(ns) + [Colon]
  {
    NamesHaveNoBracket(ns);
    SqueezeFlat([CaseWord, StrLit(n)] + PrintNames(ns) + [Colon]);
  }

  lemma {:induction false} NamesHaveNoBracket(ns: seq<string>)
    ensures LeftBracket !in PrintNames(ns)
  {
    if ns != [] { NamesHaveNoBracket(ns[1..]); }
  }

  /** The parts of a parsed case. */
  lemma CaseParts(ts: seq<Token>)
    requires CaseOf(ts).Done?
    ensures |ts| >= 2 && ts[0].CaseWord? && ts[1].StrLit? && NamesOf(ts[2..]).Done? && At(NamesOf(ts[2..]).rest, Colon)
    ensures var body := NamesOf(ts[2..]).rest[1..];
      && |body| < |ts| && PipingOf(body).Done? && At(PipingOf(body).rest, Terminator)
      && CaseOf(ts) == Done(Case([ts[1].text] + NamesOf(ts[2..]).value, PipingOf(body).value), PipingOf(body).rest[1..])
  {
  }

  lemma CaseHeadReads(ts: seq<Token>)
    requires |ts| >= 2 && ts[0].CaseWord? && ts[1].StrLit? && NamesOf(ts[2..]).Done? && At(NamesOf(ts[2..]).rest, Colon)
    ensures var names := NamesOf(ts[2..]);
      Reads(ts, names.rest[1..], [CaseWord, StrLit(ts[1].text)] + PrintNames(names.value) + [Colon])
  {
    hide NamesOf, PrintNames, Reads;
    var names := NamesOf(ts[2..]);
    NamesRead(ts[2..]);
    assert names.rest == [Colon] + names.rest[1..];
    HeadReads(ts, names.value, names.rest[1..]);
  }

  lemma {:induction false} CaseReads(ts: seq<Token>)
    requires CaseOf(ts).Done?
    ensures var r := CaseOf(ts); Reads(ts, r.rest, PrintCase(r.value)) && ProperCase(r.value) && At(ts, CaseWord)
    decreases |ts|, 0
  {
    CaseParts(ts);
    hide CaseOf, NamesOf, PipingOf, Reads, PrintNames, Print, PrintCase;
    var names := NamesOf(ts[2..]);
    var body := names.rest[1..];
    var p := PipingOf(body);
    CaseHeadReads(ts);
    PipingReads(body);
    ReadsThree(ts, body, p.rest, [CaseWord, StrLit(ts[1].text)] + PrintNames(names.value) + [Colon], Print(p.value),
      Terminator);
    CasePrints(ts[1].text, names.value, p.value);
  }

  lemma CasePrints(n: string, ns: seq<string>, p: Piping)
    ensures PrintCase(Case([n] + ns, p)) == [CaseWord, StrLit(n)] + PrintNames(ns) + [Colon] + Print(p) + [Terminator]
  {
    assert ([n] + ns)[1..] == ns;
    hide PrintNames, Print;
  }

  /** The words of a case up to its colon. */
  lemma HeadReads(ts: seq<Token>, ns: seq<string>, body: seq<Token>)
    requires |ts| >= 2 && ts[0].CaseWord? && ts[1].StrLit? && ts[2..] == PrintNames(ns) + ([Colon] + body)
    ensures Reads(ts, body, [CaseWord, ts[1]] + PrintNames(ns) + [Colon])
  {
    var head := [CaseWord, ts[1]] + PrintNames(ns) + [Colon];
    assert ts == [ts[0], ts[1]] + ts[2..];
    assert ts == head + body;
    assert ts[..|ts| - |body|] == head;
    SqueezeNames(ts[1].text, ns);
  }

  lemma {:induction false} CasesRead(ts: seq<Token>)
    requires CasesOf(ts).Done?
    ensures var r := CasesOf(ts); Reads(ts, r.rest, PrintCases(r.value)) && ProperCases(r.value)
    ensures ts == CasesOf(ts).rest || At(ts, CaseWord)
    decreases |ts|, 1
  {
    if At(ts, CaseWord) {
      var c := CaseOf(ts);
      var r := CasesOf(c.rest);
      assert CasesOf(ts) == Prepend([c.value], r);
      hide CasesOf, CaseOf, Reads, PrintCase;
      CaseReads(ts);
      CasesRead(c.rest);
      assert ([c.value] + r.value)[1..] == r.value;
      ReadsBoth(ts, c.rest, r.rest, PrintCase(c.value), PrintCases(r.value));
    } else {
      ReadsNothing(ts);
    }
  }

  lemma {:induction false} DefaultReads(ts: seq<Token>)
    requires DefaultOf(ts).Done?
    ensures var r := DefaultOf(ts);
      Reads(ts, r.rest, [DefaultWord, Colon] + Print(r.value) + [Terminator]) && Proper(r.value)
    ensures At(ts, DefaultWord)
    decreases |ts|, 0
  {
    var p := PipingOf(ts[2..]);
    assert p.Done? && At(p.rest, Terminator) && DefaultOf(ts) == Done(p.value, p.rest[1..]);
    ReadsOne(ts);
    ReadsOne(ts[1..]);
    ReadsOne(p.rest);
    assert ts[1..][1..] == ts[2..];
    hide PipingOf, DefaultOf, Reads, Print;
    PipingReads(ts[2..]);
    ReadsBoth(ts, ts[1..], ts[2..], [DefaultWord], [Colon]);
    assert [DefaultWord] + [Colon] == [DefaultWord, Colon];
    ReadsBoth(ts, ts[2..], p.rest, [DefaultWord, Colon], Print(p.value));
    ReadsBoth(ts, p.rest, p.rest[1..], [DefaultWord, Colon] + Print(p.value), [Terminator]);
  }

  /** The parts of a parsed switch. */
  lemma SwitchParts(ts: seq<Token>, k: SwitchKind)
    requires SwitchOf(ts, k).Done?
    ensures |ts| >= 2 && ts[0] == SwitchWord(k) && ts[1].LeftBrace? && CasesOf(ts[2..]).Done?
    ensures var mid := CasesOf(ts[2..]).rest;
      && |mid| < |ts| && DefaultOf(mid).Done? && At(DefaultOf(mid).rest, RightBrace)
      && SwitchOf(ts, k) == Done(Switch(k, CasesOf(ts[2..]).value, DefaultOf(mid).value), DefaultOf(mid).rest[1..])
  {
  }

  lemma {:induction false} SwitchReads(ts: seq<Token>, k: SwitchKind)
    requires SwitchOf(ts, k).Done?
    ensures var r := SwitchOf(ts, k); Reads(ts, r.rest, PrintSource(r.value)) && Proper(Piping(r.value, []))
    decreases |ts|, 2
  {
    SwitchParts(ts, k);
    var cs := CasesOf(ts[2..]);
    var d := DefaultOf(cs.rest);
    hide CasesOf, DefaultOf, SwitchOf, Reads, PrintCases, Print, PrintSource;
    SwitchHeadReads(ts, k);
    CasesRead(ts[2..]);
    DefaultReads(cs.rest);
    var def := [DefaultWord, Colon] + Print(d.value) + [Terminator];
    ReadsBoth(ts, ts[2..], cs.rest, [SwitchWord(k), LeftBrace], PrintCases(cs.value));
    ReadsThree(ts, cs.rest, d.rest, [SwitchWord(k), LeftBrace] + PrintCases(cs.value), def, RightBrace);
    SwitchPrints(k, cs.value, d.value);
  }

  lemma SwitchHeadReads(ts: seq<Token>, k: SwitchKind)
    requires |ts| >= 2 && ts[0] == SwitchWord(k) && ts[1].LeftBrace?
    ensures Reads(ts, ts[2..], [SwitchWord(k), LeftBrace])
  {
    assert ts[1..][1..] == ts[2..];
    ReadsOne(ts);
    ReadsOne(ts[1..]);
    ReadsBoth(ts, ts[1..], ts[2..], [SwitchWord(k)], [LeftBrace]);
    assert [SwitchWord(k)] + [LeftBrace] == [SwitchWord(k), LeftBrace];
  }

  lemma SwitchPrints(k: SwitchKind, cs: seq<Case>, d: Piping)
    ensures PrintSource(Switch(k, cs, d)) ==
      [SwitchWord(k), LeftBrace] + PrintCases(cs) + ([DefaultWord, Colon] + Print(d) + [Terminator]) + [RightBrace]
  {
    hide PrintCases, Print;
  }

  lemma {:induction false} SourceReads(ts: seq<Token>)
    requires SourceOf(ts).Done?
    ensures var r := SourceOf(ts);
      Reads(ts, r.rest, PrintSource(r.value)) && Proper(Piping(r.value, [])) && !At(ts, RightBracket)
    decreases |ts|, 3
  {
    if ts[0].SwitchWord? { SwitchReads(ts, ts[0].kind); } else { InvokationReads(ts); }
  }

  /** What a piping was parsed from says what the piping prints, and the piping is proper. */
  lemma {:induction false} PipingReads(ts: seq<Token>)
    requires PipingOf(ts).Done?
    ensures var r := PipingOf(ts); Reads(ts, r.rest, Print(r.value)) && Proper(r.value) && !At(ts, RightBracket)
    decreases |ts|, 4
  {
    var s := SourceOf(ts);
    var fs := FiltersOf(s.rest);
    SourceReads(ts);
    FiltersRead(s.rest);
    ReadsBoth(ts, s.rest, fs.rest, PrintSource(s.value), PrintFilters(fs.value));
  }

  /** Printing the tree of a definition gives back its tokens, up to empty parameter lists. */
  lemma DefinitionReads(ts: seq<Token>)
    requires DefinitionOf(ts).Done?
    ensures Squeeze(ts) == Print(DefinitionOf(ts).value) && Proper(DefinitionOf(ts).value)
  {
    PipingReads(ts);
    assert ts[..|ts|] == ts;
  }

  /** Two definitions mean the same if and only if they differ in empty parameter lists at most. */
  lemma SameTreeIff(ts: seq<Token>, us: seq<Token>)
    requires DefinitionOf(ts).Done? && DefinitionOf(us).Done?
    ensures DefinitionOf(ts).value == DefinitionOf(us).value <==> Squeeze(ts) == Squeeze(us)
  {
    DefinitionReads(ts);
    DefinitionReads(us);
    DefinitionPrinted(DefinitionOf(ts).value);
    DefinitionPrinted(DefinitionOf(us).value);
  }
}
