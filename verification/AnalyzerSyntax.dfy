/**
 The analyzer definition language of analyzerexp.cpp: tokens, syntax trees, the parser as a
 function of the remaining tokens, and a printer.
*/
module AnalyzerSyntax {

  /** The tokens the lexer delivers; white space and comments are filtered out before. */
  datatype Token =
    | Id(text: string) | StrLit(text: string) | IntLit(int_: int) | RealLit(real_: real)
    | LeftBracket | RightBracket | Comma | Pipe
    | SwitchWord(kind: SwitchKind) | CaseWord | DefaultWord
    | LeftBrace | RightBrace | Colon | Terminator

  /** switch, locale_switch and config_switch. */
  datatype SwitchKind = OnField | OnLocale | OnConfig

  // ----- syntax trees -----

  datatype Param = Identifier(id: string) | StringLiteral(text: string) | IntegerLiteral(i: int) | RealLiteral(r: real)

  datatype Invokation = Invokation(id: string, params: seq<Param>)

  datatype Source = Invoke(invokation: Invokation) | Switch(kind: SwitchKind, cases: seq<Case>, def: Piping)

  datatype Case = Case(names: seq<string>, piping: Piping)

  datatype Piping = Piping(source: Source, filters: seq<Invokation>)

  /** A case has at least one name. */
  predicate Proper(p: Piping)
    decreases p
  {
    match p.source
    case Invoke(_) => true
    case Switch(_, cases, def) => ProperCases(cases) && Proper(def)
  }

  predicate ProperCases(cs: seq<Case>)
    decreases cs
  {
    cs == [] || (ProperCase(cs[0]) && ProperCases(cs[1..]))
  }

  predicate ProperCase(c: Case)
    decreases c
  {
    c.names != [] && Proper(c.piping)
  }

  // ----- the parser -----

  /** The outcome of a Parse function: a tree and the tokens left, or an exception. */
  datatype Parsed<T> = Done(value: T, rest: seq<Token>) | Failed

  function Prepend<T>(xs: seq<T>, r: Parsed<seq<T>>): Parsed<seq<T>> {
    match r
    case Done(ys, rest) => Done(xs + ys, rest)
    case Failed => Failed
  }

  lemma PrependNothing<T>(r: Parsed<seq<T>>)
    ensures Prepend([], r) == r
  {
    if r.Done? { assert [] + r.value == r.value; }
  }

  lemma PrependOneMore<T>(xs: seq<T>, x: T, r: Parsed<seq<T>>)
    ensures Prepend(xs, Prepend([x], r)) == Prepend(xs + [x], r)
  {
    if r.Done? { assert xs + ([x] + r.value) == xs + [x] + r.value; }
  }

  predicate At(ts: seq<Token>, t: Token) { ts != [] && ts[0] == t }

  function ParamOf(ts: seq<Token>): Parsed<Param> {
    if ts == [] then Failed else
    match ts[0]
    case Id(t) => Done(Identifier(t), ts[1..])
    case StrLit(t) => Done(StringLiteral(t), ts[1..])
    case IntLit(i) => Done(IntegerLiteral(i), ts[1..])
    case RealLit(r) => Done(RealLiteral(r), ts[1..])
    case _ => Failed
  }

  /** The parameters after the left bracket, up to and with the right one; `first` when none has been read yet. */
  function ParamsOf(ts: seq<Token>, first: bool): (r: Parsed<seq<Param>>)
    ensures r.Done? ==> |r.rest| < |ts|
    decreases |ts|
  {
    if At(ts, RightBracket) then Done([], ts[1..])
    else if !first && !At(ts, Comma) then Failed
    else
      var p := ParamOf(if first then ts else ts[1..]);
      if p.Failed? then Failed else Prepend([p.value], ParamsOf(p.rest, false))
  }

  /** An identifier with an optional parameter list. */
  function InvokationOf(ts: seq<Token>): (r: Parsed<Invokation>)
    ensures r.Done? ==> |r.rest| < |ts|
  {
    if ts == [] || !ts[0].Id? then Failed
    else if !At(ts[1..], LeftBracket) then Done(Invokation(ts[0].text, []), ts[1..])
    else
      var r := ParamsOf(ts[2..], true);
      if r.Failed? then Failed else Done(Invokation(ts[0].text, r.value), r.rest)
  }

  /** Further names of a case, up to the colon. */
  function NamesOf(ts: seq<Token>): (r: Parsed<seq<string>>)
    ensures r.Done? ==> |r.rest| <= |ts|
    decreases |ts|
  {
    if ts == [] || ts[0].Colon? then Done([], ts)
    else if |ts| < 2 || !ts[0].Comma? || !ts[1].StrLit? then Failed
    else Prepend([ts[1].text], NamesOf(ts[2..]))
  }

  function CaseOf(ts: seq<Token>): (r: Parsed<Case>)
    ensures r.Done? ==> |r.rest| < |ts|
    decreases |ts|, 0
  {
    if |ts| < 2 || !ts[0].CaseWord? || !ts[1].StrLit? then Failed else
    var names := NamesOf(ts[2..]);
    if names.Failed? || !At(names.rest, Colon) then Failed else
    var p := PipingOf(names.rest[1..]);
    if p.Failed? || !At(p.rest, Terminator) then Failed else
    Done(Case([ts[1].text] + names.value, p.value), p.rest[1..])
  }

  function CasesOf(ts: seq<Token>): (r: Parsed<seq<Case>>)
    ensures r.Done? ==> |r.rest| <= |ts|
    decreases |ts|, 1
  {
    if !At(ts, CaseWord) then Done([], ts) else
    var c := CaseOf(ts);
    if c.Failed? then Failed else Prepend([c.value], CasesOf(c.rest))
  }

  function DefaultOf(ts: seq<Token>): (r: Parsed<Piping>)
    ensures r.Done? ==> |r.rest| < |ts|
    decreases |ts|, 0
  {
    if |ts| < 2 || !ts[0].DefaultWord? || !ts[1].Colon? then Failed else
    var p := PipingOf(ts[2..]);
    if p.Failed? || !At(p.rest, Terminator) then Failed else Done(p.value, p.rest[1..])
  }

  function SwitchOf(ts: seq<Token>, k: SwitchKind): (r: Parsed<Source>)
    ensures r.Done? ==> |r.rest| < |ts|
    decreases |ts|, 2
  {
    if |ts| < 2 || ts[0] != SwitchWord(k) || !ts[1].LeftBrace? then Failed else
    var cs := CasesOf(ts[2..]);
    if cs.Failed? then Failed else
    var d := DefaultOf(cs.rest);
    if d.Failed? || !At(d.rest, RightBrace) then Failed else Done(Switch(k, cs.value, d.value), d.rest[1..])
  }

  function SourceOf(ts: seq<Token>): (r: Parsed<Source>)
    ensures r.Done? ==> |r.rest| < |ts|
    decreases |ts|, 3
  {
    if ts == [] then Failed
    else if ts[0].SwitchWord? then SwitchOf(ts, ts[0].kind)
    else
      var r := InvokationOf(ts);
      if r.Failed? then Failed else Done(Invoke(r.value), r.rest)
  }

  function FiltersOf(ts: seq<Token>): (r: Parsed<seq<Invokation>>)
    ensures r.Done? ==> |r.rest| <= |ts|
    decreases |ts|
  {
    if !At(ts, Pipe) then Done([], ts) else
    var r := InvokationOf(ts[1..]);
    if r.Failed? then Failed else Prepend([r.value], FiltersOf(r.rest))
  }

  function PipingOf(ts: seq<Token>): (r: Parsed<Piping>)
    ensures r.Done? ==> |r.rest| < |ts|
    decreases |ts|, 4
  {
    var s := SourceOf(ts);
    if s.Failed? then Failed else
    var fs := FiltersOf(s.rest);
    if fs.Failed? then Failed else Done(Piping(s.value, fs.value), fs.rest)
  }

  /** A whole definition: a piping and then the end of the text. */
  function DefinitionOf(ts: seq<Token>): Parsed<Piping> {
    var r := PipingOf(ts);
    if r.Done? && r.rest == [] then r else Failed
  }

  // ----- the printer -----

  function PrintParam(p: Param): Token {
    match p
    case Identifier(t) => Id(t)
    case StringLiteral(t) => StrLit(t)
    case IntegerLiteral(i) => IntLit(i)
    case RealLiteral(r) => Token.RealLit(r)
  }

  function PrintParams(ps: seq<Param>, first: bool): seq<Token> {
    if ps == [] then [RightBracket]
    else (if first then [] else [Comma]) + [PrintParam(ps[0])] + PrintParams(ps[1..], false)
  }

  /** An empty parameter list is left out. */
  function PrintInvokation(i: Invokation): seq<Token> {
    [Id(i.id)] + if i.params == [] then [] else [LeftBracket] + PrintParams(i.params, true)
  }

  function PrintFilters(fs: seq<Invokation>): seq<Token> {
    if fs == [] then [] else [Pipe] + PrintInvokation(fs[0]) + PrintFilters(fs[1..])
  }

  function PrintNames(ns: seq<string>): seq<Token> {
    if ns == [] then [] else [Comma, StrLit(ns[0])] + PrintNames(ns[1..])
  }

  function Print(p: Piping): seq<Token>
    decreases p, 1
  {
    PrintSource(p.source) + PrintFilters(p.filters)
  }

  function PrintSource(s: Source): seq<Token>
    decreases s
  {
    match s
    case Invoke(i) => PrintInvokation(i)
    case Switch(k, cs, d) =>
      [SwitchWord(k), LeftBrace] + PrintCases(cs) + [DefaultWord, Colon] + Print(d) + [Terminator, RightBrace]
  }

  function PrintCases(cs: seq<Case>): seq<Token>
    decreases cs
  {
    if cs == [] then [] else PrintCase(cs[0]) + PrintCases(cs[1..])
  }

  function PrintCase(c: Case): seq<Token>
    decreases c
  {
    [CaseWord] + (if c.names == [] then [] else [StrLit(c.names[0])] + PrintNames(c.names[1..]))
    + [Colon] + Print(c.piping) + [Terminator]
  }
}
