/** Parser and printer of analyzer definitions undo each other. */
module AnalyzerTheorems {
  import opened AnalyzerSyntax

  // ----- parsing what was printed -----

  lemma ParamsGoOn(ts: seq<Token>, first: bool, p: Param, tail: seq<Token>)
    requires ts == (if first then [] else [Comma]) + [PrintParam(p)] + tail
    ensures ParamsOf(ts, first) == Prepend([p], ParamsOf(tail, false))
  {
    var us := if first then ts else ts[1..];
    assert us == [PrintParam(p)] + tail;
    assert us[1..] == tail;
    assert ParamOf(us) == Done(p, tail);
  }

  lemma {:induction false} ParamsPrinted(ps: seq<Param>, first: bool, rest: seq<Token>)
    ensures ParamsOf(PrintParams(ps, first) + rest, first) == Done(ps, rest)
  {
    var ts := PrintParams(ps, first) + rest;
    if ps == [] {
      assert ts[1..] == rest;
    } else {
      var tail := PrintParams(ps[1..], false) + rest;
      assert ts == (if first then [] else [Comma]) + [PrintParam(ps[0])] + tail;
      hide ParamsOf;
      ParamsGoOn(ts, first, ps[0], tail);
      ParamsPrinted(ps[1..], false, rest);
      assert [ps[0]] + ps[1..] == ps;
    }
  }

  /** A bare identifier must not be followed by a bracket, which would be taken for its parameter list. */
  lemma InvokationPrinted(i: Invokation, rest: seq<Token>)
    requires i.params == [] ==> !At(rest, LeftBracket)
    ensures InvokationOf(PrintInvokation(i) + rest) == Done(i, rest)
  {
    var ts := PrintInvokation(i) + rest;
    if i.params == [] {
      assert ts[1..] == rest;
    } else {
      assert ts[2..] == PrintParams(i.params, true) + rest;
      assert ts[1..][0] == LeftBracket;
      ParamsPrinted(i.params, true, rest);
    }
  }

  predicate BareEnd(fs: seq<Invokation>) { fs != [] && fs[|fs| - 1].params == [] }

  lemma FiltersGoOn(fs: seq<Invokation>, rest: seq<Token>)
    requires fs != []
    ensures var tail := PrintFilters(fs[1..]) + rest; var r := InvokationOf(PrintInvokation(fs[0]) + tail);
      FiltersOf(PrintFilters(fs) + rest) == if r.Failed? then Failed else Prepend([r.value], FiltersOf(r.rest))
  {
    var tail := PrintFilters(fs[1..]) + rest;
    var ts := PrintFilters(fs) + rest;
    hide InvokationOf, PrintInvokation;
    assert ts == [Pipe] + (PrintInvokation(fs[0]) + tail);
    assert ts[1..] == PrintInvokation(fs[0]) + tail;
  }

  lemma BareFilters(fs: seq<Invokation>, rest: seq<Token>)
    requires fs != [] && (BareEnd(fs) ==> !At(rest, LeftBracket))
    ensures BareEnd(fs[1..]) ==> !At(rest, LeftBracket)
    ensures fs[0].params == [] ==> !At(PrintFilters(fs[1..]) + rest, LeftBracket)
  {
    if |fs| == 1 { assert PrintFilters(fs[1..]) + rest == rest; }
  }

  lemma FirstOf(fs: seq<Invokation>, r: Parsed<seq<Invokation>>)
    requires fs != []
    ensures Prepend([fs[0]], Prepend(fs[1..], r)) == Prepend(fs, r)
  {
    if r.Done? { assert [fs[0]] + (fs[1..] + r.value) == fs + r.value; }
  }

  lemma {:induction false} FiltersPrinted(fs: seq<Invokation>, rest: seq<Token>)
    requires BareEnd(fs) ==> !At(rest, LeftBracket)
    ensures FiltersOf(PrintFilters(fs) + rest) == Prepend(fs, FiltersOf(rest))
  {
    if fs == [] {
      assert PrintFilters(fs) + rest == rest;
      PrependNothing(FiltersOf(rest));
    } else {
      FiltersGoOn(fs, rest);
      BareFilters(fs, rest);
      FirstOf(fs, FiltersOf(rest));
      hide FiltersOf, PrintFilters, InvokationOf, PrintInvokation, Prepend;
      InvokationPrinted(fs[0], PrintFilters(fs[1..]) + rest);
      FiltersPrinted(fs[1..], rest);
    }
  }

  lemma {:induction false} NamesPrinted(ns: seq<string>, rest: seq<Token>)
    requires At(rest, Colon)
    ensures NamesOf(PrintNames(ns) + rest) == Done(ns, rest)
  {
    var ts := PrintNames(ns) + rest;
    if ns == [] {
      assert ts == rest;
    } else {
      assert ts[2..] == PrintNames(ns[1..]) + rest;
      NamesPrinted(ns[1..], rest);
      assert [ns[0]] + ns[1..] == ns;
    }
  }

  lemma CaseGoesOn(ts: seq<Token>, c: Case, body: seq<Token>, rest: seq<Token>)
    requires c.names != [] && |ts| >= 2 && ts[0].CaseWord? && ts[1] == StrLit(c.names[0])
    requires NamesOf(ts[2..]) == Done(c.names[1..], [Colon] + body)
      && PipingOf(body) == Done(c.piping, [Terminator] + rest)
    ensures CaseOf(ts) == Done(c, rest)
  {
    hide NamesOf, PipingOf;
    assert ([Colon] + body)[1..] == body;
    assert ([Terminator] + rest)[1..] == rest;
    assert [c.names[0]] + c.names[1..] == c.names;
  }

  lemma CaseWords(c: Case, rest: seq<Token>)
    requires c.names != []
    ensures var ts := PrintCase(c) + rest;
      && |ts| >= 2 && ts[0].CaseWord? && ts[1] == StrLit(c.names[0])
      && ts[2..] == PrintNames(c.names[1..]) + ([Colon] + (Print(c.piping) + ([Terminator] + rest)))
  {
    hide Print, PrintNames;
  }

  lemma {:induction false} CasePrinted(c: Case, rest: seq<Token>)
    requires ProperCase(c)
    ensures CaseOf(PrintCase(c) + rest) == Done(c, rest)
    decreases c
  {
    assert c.names != [] && Proper(c.piping);
    hide *;
    var end := [Terminator] + rest;
    var body := Print(c.piping) + end;
    CaseWords(c, rest);
    EndsPiping(rest);
    StartsWithColon(body);
    NamesPrinted(c.names[1..], [Colon] + body);
    PipingPrinted(c.piping, end);
    CaseGoesOn(PrintCase(c) + rest, c, body, rest);
  }

  lemma EndsPiping(rest: seq<Token>)
    ensures !At([Terminator] + rest, Pipe) && !At([Terminator] + rest, LeftBracket)
  {
  }

  lemma StartsWithColon(body: seq<Token>)
    ensures At([Colon] + body, Colon)
  {
  }

  lemma CasesGoOn(ts: seq<Token>, c: Case, mid: seq<Token>)
    requires At(ts, CaseWord) && CaseOf(ts) == Done(c, mid)
    ensures CasesOf(ts) == Prepend([c], CasesOf(mid))
  {
  }

  lemma FirstCase(cs: seq<Case>, rest: seq<Token>)
    requires cs != []
    ensures PrintCases(cs) + rest == PrintCase(cs[0]) + (PrintCases(cs[1..]) + rest)
    ensures At(PrintCases(cs) + rest, CaseWord)
  {
    assert PrintCase(cs[0])[0] == CaseWord;
    hide PrintCase;
  }

  lemma {:induction false} CasesPrinted(cs: seq<Case>, rest: seq<Token>)
    requires ProperCases(cs) && !At(rest, CaseWord)
    ensures CasesOf(PrintCases(cs) + rest) == Done(cs, rest)
    decreases cs
  {
    if cs == [] {
      assert PrintCases(cs) + rest == rest;
    } else {
      CasePrinted(cs[0], PrintCases(cs[1..]) + rest);
      FirstCase(cs, rest);
      hide CasesOf, CaseOf, PrintCases, PrintCase;
      CasesGoOn(PrintCases(cs) + rest, cs[0], PrintCases(cs[1..]) + rest);
      CasesPrinted(cs[1..], rest);
      assert [cs[0]] + cs[1..] == cs;
    }
  }

  predicate BareSource(s: Source) { s.Invoke? && s.invokation.params == [] }

  lemma SwitchGoesOn(k: SwitchKind, cs: seq<Case>, d: Piping, def: seq<Token>, end: seq<Token>, rest: seq<Token>)
    requires def == [DefaultWord, Colon] + (Print(d) + end) && end == [Terminator, RightBrace] + rest
    requires CasesOf(PrintCases(cs) + def) == Done(cs, def) && PipingOf(Print(d) + end) == Done(d, end)
    ensures SourceOf([SwitchWord(k), LeftBrace] + (PrintCases(cs) + def)) == Done(Switch(k, cs, d), rest)
  {
    hide CasesOf, PipingOf, Print, PrintCases;
    var ts := [SwitchWord(k), LeftBrace] + (PrintCases(cs) + def);
    assert ts[2..] == PrintCases(cs) + def;
    assert def[2..] == Print(d) + end;
    assert end[1..] == [RightBrace] + rest && end[1..][1..] == rest;
    assert DefaultOf(def) == Done(d, end[1..]);
    assert SwitchOf(ts, k) == Done(Switch(k, cs, d), rest);
  }

  lemma {:induction false} SourcePrinted(s: Source, rest: seq<Token>)
    requires s.Switch? ==> ProperCases(s.cases) && Proper(s.def)
    requires BareSource(s) ==> !At(rest, LeftBracket)
    ensures SourceOf(PrintSource(s) + rest) == Done(s, rest)
    decreases s
  {
    match s
    case Invoke(i) => InvokationPrinted(i, rest);
    case Switch(k, cs, d) =>
      var end := [Terminator, RightBrace] + rest;
      var def := [DefaultWord, Colon] + (Print(d) + end);
      assert PrintSource(s) + rest == [SwitchWord(k), LeftBrace] + (PrintCases(cs) + def);
      hide SourceOf, CasesOf, PipingOf, PrintSource, Print, PrintCases;
      CasesPrinted(cs, def);
      PipingPrinted(d, end);
      SwitchGoesOn(k, cs, d, def, end, rest);
  }

  /** The last thing printed is a bare identifier. */
  predicate Bare(p: Piping) { if p.filters == [] then BareSource(p.source) else BareEnd(p.filters) }

  lemma {:induction false} PipingPrinted(p: Piping, rest: seq<Token>)
    requires Proper(p) && !At(rest, Pipe) && (Bare(p) ==> !At(rest, LeftBracket))
    ensures PipingOf(Print(p) + rest) == Done(p, rest)
    decreases p, 1
  {
    var tail := PrintFilters(p.filters) + rest;
    assert Print(p) + rest == PrintSource(p.source) + tail;
    SourcePrinted(p.source, tail);
    FiltersPrinted(p.filters, rest);
    assert p.filters + [] == p.filters;
  }

  // ----- when the remainder is swallowed -----

  lemma AfterFirst(fs: seq<Invokation>, rest: seq<Token>)
    requires fs != []
    ensures if |fs| == 1 then PrintFilters(fs[1..]) + rest == rest else At(PrintFilters(fs[1..]) + rest, Pipe)
  {
  }

  lemma LastSwallows(fs: seq<Invokation>, rest: seq<Token>)
    requires |fs| == 1 && BareEnd(fs) && At(rest, LeftBracket)
    ensures var r := FiltersOf(PrintFilters(fs) + rest); r.Done? ==> |r.rest| < |rest|
  {
    hide InvokationOf, PrintInvokation, FiltersOf, PrintFilters;
    FiltersGoOn(fs, rest);
    AfterFirst(fs, rest);
    BareSwallows(fs[0], rest);
  }

  lemma {:induction false} FiltersSwallow(fs: seq<Invokation>, rest: seq<Token>)
    requires BareEnd(fs) && At(rest, LeftBracket)
    ensures var r := FiltersOf(PrintFilters(fs) + rest); r.Done? ==> |r.rest| < |rest|
  {
    hide InvokationOf, PrintInvokation, FiltersOf, PrintFilters;
    if |fs| == 1 {
      LastSwallows(fs, rest);
    } else {
      FiltersGoOn(fs, rest);
      AfterFirst(fs, rest);
      InvokationPrinted(fs[0], PrintFilters(fs[1..]) + rest);
      FiltersSwallow(fs[1..], rest);
    }
  }

  lemma BareSwallows(i: Invokation, rest: seq<Token>)
    requires i.params == [] && At(rest, LeftBracket)
    ensures var r := InvokationOf(PrintInvokation(i) + rest); r.Done? ==> |r.rest| < |rest|
  {
    assert (PrintInvokation(i) + rest)[1..] == rest;
  }

  lemma PipingSwallows(p: Piping, rest: seq<Token>)
    requires Proper(p) && (At(rest, Pipe) || (Bare(p) && At(rest, LeftBracket)))
    ensures var r := PipingOf(Print(p) + rest); r.Done? ==> |r.rest| < |rest|
  {
    var tail := PrintFilters(p.filters) + rest;
    assert Print(p) + rest == PrintSource(p.source) + tail;
    if p.filters == [] && At(rest, LeftBracket) {
      assert tail == rest;
      BareSwallows(p.source.invokation, rest);
    } else {
      SourcePrinted(p.source, tail);
      if At(rest, Pipe) { FiltersPrinted(p.filters, rest); } else { FiltersSwallow(p.filters, rest); }
    }
  }

  /**
   Parsing the printed tokens of a piping, whatever follows, gives back the piping and what
   follows, if and only if what follows is no further filter and, after a bare identifier, no
   parameter list.
  */
  lemma {:induction false} ParsePrintedIff(p: Piping, rest: seq<Token>)
    requires Proper(p)
    ensures PipingOf(Print(p) + rest) == Done(p, rest) <==> !At(rest, Pipe) && !(Bare(p) && At(rest, LeftBracket))
  {
    if At(rest, Pipe) || (Bare(p) && At(rest, LeftBracket)) {
      PipingSwallows(p, rest);
    } else {
      PipingPrinted(p, rest);
    }
  }

  lemma DefinitionPrinted(p: Piping)
    requires Proper(p)
    ensures DefinitionOf(Print(p)) == Done(p, [])
  {
    assert Print(p) + [] == Print(p);
    PipingPrinted(p, []);
  }

  /** What the words of the language are: a switch with one case of two names, a default, and a filter behind it. */
  lemma SwitchIsSpelled(k: SwitchKind, m: string, n: string, a: string, d: string, f: string, i: int, r: real)
    ensures var tokens := [SwitchWord(k), LeftBrace, CaseWord, StrLit(m), Comma, StrLit(n), Colon, Id(a), Terminator,
                           DefaultWord, Colon, Id(d), Terminator, RightBrace,
                           Pipe, Id(f), LeftBracket, IntLit(i), Comma, Token.RealLit(r), RightBracket];
      DefinitionOf(tokens) == Done(
        Piping(Switch(k, [Case([m, n], Piping(Invoke(Invokation(a, [])), []))], Piping(Invoke(Invokation(d, [])), [])),
               [Invokation(f, [IntegerLiteral(i), RealLiteral(r)])]), [])
  {
    var c := Case([m, n], Piping(Invoke(Invokation(a, [])), []));
    var fs := [Invokation(f, [IntegerLiteral(i), RealLiteral(r)])];
    var p := Piping(Switch(k, [c], Piping(Invoke(Invokation(d, [])), [])), fs);
    assert [c][1..] == [] && ProperCase(c) && ProperCases([c]) && Proper(p);
    SwitchIsPrinted(k, m, n, a, d);
    FilterIsPrinted(f, i, r);
    hide DefinitionOf, PrintSource, PrintFilters, Proper;
    DefinitionPrinted(p);
    var tokens := [SwitchWord(k), LeftBrace, CaseWord, StrLit(m), Comma, StrLit(n), Colon, Id(a), Terminator,
                   DefaultWord, Colon, Id(d), Terminator, RightBrace,
                   Pipe, Id(f), LeftBracket, IntLit(i), Comma, Token.RealLit(r), RightBracket];
    assert tokens[..14] + tokens[14..] == tokens;
    assert tokens[..14] == PrintSource(p.source);
    assert tokens[14..] == PrintFilters(p.filters);
    assert Print(p) == tokens;
  }

  lemma FilterIsPrinted(f: string, i: int, r: real)
    ensures PrintFilters([Invokation(f, [IntegerLiteral(i), RealLiteral(r)])])
      == [Pipe, Id(f), LeftBracket, IntLit(i), Comma, Token.RealLit(r), RightBracket]
  {
    assert [RealLiteral(r)][1..] == [];
    assert PrintParams([RealLiteral(r)], false) == [Comma, Token.RealLit(r), RightBracket];
    assert [IntegerLiteral(i), RealLiteral(r)][1..] == [RealLiteral(r)];
  }

  lemma SwitchIsPrinted(k: SwitchKind, m: string, n: string, a: string, d: string)
    ensures PrintSource(
      Switch(k, [Case([m, n], Piping(Invoke(Invokation(a, [])), []))], Piping(Invoke(Invokation(d, [])), [])))
      == [SwitchWord(k), LeftBrace, CaseWord, StrLit(m), Comma, StrLit(n), Colon, Id(a), Terminator,
          DefaultWord, Colon, Id(d), Terminator, RightBrace]
  {
    var c := Case([m, n], Piping(Invoke(Invokation(a, [])), []));
    assert [m, n][1..] == [n] && [n][1..] == [];
    assert PrintNames([n]) == [Comma, StrLit(n)];
    assert Print(c.piping) == [Id(a)];
    assert PrintCase(c) == [CaseWord, StrLit(m), Comma, StrLit(n), Colon, Id(a), Terminator];
    assert PrintCases([c]) == PrintCase(c);
    assert Print(Piping(Invoke(Invokation(d, [])), [])) == [Id(d)];
  }
}
