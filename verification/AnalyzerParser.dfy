/**
 The recursive-descent parser of analyzerexp.cpp over the lexer of cpixparsetools.cpp, in the
 form of the source: every Parse method advances the shared lexer, and a thrown exception is the
 outcome Thrown. Each method is proved to compute the parse function of the same name.
*/
module AnalyzerParser {
  import opened AnalyzerSyntax

  datatype Outcome<T> = Ok(value: T) | Thrown {
    predicate IsFailure() { Thrown? }

    function PropagateFailure<U>(): Outcome<U>
      requires Thrown?
    {
      Thrown
    }

    function Extract(): T
      requires Ok?
    {
      value
    }
  }

  /** The outcome of a Parse method is what the parse function says, and so are the tokens left. */
  predicate Agrees<T(==)>(r: Outcome<T>, spec: Parsed<T>, rest: seq<Token>) {
    match r
    case Ok(v) => spec == Done(v, rest)
    case Thrown => spec.Failed?
  }

  /** Cpt::Parser::Lexer: the tokens still in the iterator, and the one that was peeked at. */
  class Lexer {
    var tokens: seq<Token>
    var forward: seq<Token>

    ghost predicate Valid()
      reads this
    {
      |forward| <= 1
    }

    ghost function Rest(): seq<Token>
      reads this
    {
      forward + tokens
    }

    constructor (tokens: seq<Token>)
      ensures Valid() && Rest() == tokens
    {
      this.tokens, forward := tokens, [];
    }

    /** operator bool. */
    method HasMore() returns (b: bool)
      requires Valid()
      ensures b == (Rest() != [])
    {
      b := forward != [] || tokens != [];
    }

    /** operator ++: the next token, or an exception at the end. */
    method Next() returns (r: Outcome<Token>)
      requires Valid()
      modifies this
      ensures Valid() && forward == [] && r.Ok? == (old(Rest()) != [])
      ensures if r.Ok? then old(Rest()) == [r.value] + Rest() else Rest() == []
    {
      if forward != [] {
        r := Ok(forward[|forward| - 1]);
        forward := forward[..|forward| - 1];
      } else if tokens != [] {
        r := Ok(tokens[0]);
        tokens := tokens[1..];
      } else {
        r := Thrown;
      }
    }

    method Peek() returns (r: Outcome<Token>)
      requires Valid()
      modifies this
      ensures Valid() && Rest() == old(Rest())
      ensures r == if Rest() == [] then Thrown else Ok(Rest()[0])
    {
      if forward == [] {
        var t :- Next();
        forward := forward + [t];
        r := Ok(t);
      } else {
        r := Ok(forward[|forward| - 1]);
      }
    }

    method Eat(expected: Token) returns (r: Outcome<Token>)
      requires Valid()
      modifies this
      ensures Valid() && (r.Ok? <==> At(old(Rest()), expected))
      ensures r.Ok? ==> Rest() == old(Rest())[1..]
    {
      var t :- Next();
      r := if t == expected then Ok(t) else Thrown;
    }

    method EatId() returns (r: Outcome<string>)
      requires Valid()
      modifies this
      ensures Valid() && r.Ok? == (old(Rest()) != [] && old(Rest())[0].Id?)
      ensures r.Ok? ==> r.value == old(Rest())[0].text && Rest() == old(Rest())[1..]
    {
      var t :- Next();
      r := if t.Id? then Ok(t.text) else Thrown;
    }

    method EatString() returns (r: Outcome<string>)
      requires Valid()
      modifies this
      ensures Valid() && r.Ok? == (old(Rest()) != [] && old(Rest())[0].StrLit?)
      ensures r.Ok? ==> r.value == old(Rest())[0].text && Rest() == old(Rest())[1..]
    {
      var t :- Next();
      r := if t.StrLit? then Ok(t.text) else Thrown;
    }
  }

  method ParseParameter(lexer: Lexer) returns (r: Outcome<Param>)
    requires lexer.Valid()
    modifies lexer
    ensures lexer.Valid() && Agrees(r, ParamOf(old(lexer.Rest())), lexer.Rest())
  {
    var t :- lexer.Peek();
    if !t.Id? && !t.StrLit? && !t.IntLit? && !t.RealLit? { return Thrown; }
    var next := lexer.Next();
    r := Ok(ParamOf([t]).value);
  }

  /** ParseParameters after the left bracket. */
  method ParseParameterList(lexer: Lexer) returns (r: Outcome<seq<Param>>)
    requires lexer.Valid()
    modifies lexer
    ensures lexer.Valid() && Agrees(r, ParamsOf(old(lexer.Rest()), true), lexer.Rest())
  {
    ghost var start := lexer.Rest();
    var exps: seq<Param> := [];
    PrependNothing(ParamsOf(start, true));
    var t :- lexer.Peek();
    while t != RightBracket
      invariant lexer.Valid() && lexer.Rest() != [] && lexer.Rest()[0] == t
      invariant ParamsOf(start, true) == Prepend(exps, ParamsOf(lexer.Rest(), exps == []))
      decreases |lexer.Rest()|
    {
      if exps != [] { var comma :- lexer.Eat(Comma); }
      var e :- ParseParameter(lexer);
      PrependOneMore(exps, e, ParamsOf(lexer.Rest(), false));
      exps := exps + [e];
      t :- lexer.Peek();
    }
    assert exps + [] == exps;
    var bracket := lexer.Eat(RightBracket);
    r := Ok(exps);
  }

  /** ParseRelaxedInvokation with ParseRelaxedParameters: the parameter list may be missing. */
  method ParseRelaxedInvokation(lexer: Lexer) returns (r: Outcome<Invokation>)
    requires lexer.Valid()
    modifies lexer
    ensures lexer.Valid() && Agrees(r, InvokationOf(old(lexer.Rest())), lexer.Rest())
  {
    var id :- lexer.EatId();
    var more := lexer.HasMore();
    if !more { return Ok(Invokation(id, [])); }
    var t := lexer.Peek();
    if t.value != LeftBracket { return Ok(Invokation(id, [])); }
    var bracket := lexer.Eat(LeftBracket);
    var ps :- ParseParameterList(lexer);
    r := Ok(Invokation(id, ps));
  }

  /** The names of a case after the first, up to the colon or the end. */
  method ParseMoreNames(lexer: Lexer) returns (r: Outcome<seq<string>>)
    requires lexer.Valid()
    modifies lexer
    ensures lexer.Valid() && Agrees(r, NamesOf(old(lexer.Rest())), lexer.Rest())
  {
    ghost var start := lexer.Rest();
    var fields: seq<string> := [];
    PrependNothing(NamesOf(start));
    var more := lexer.HasMore();
    var t := lexer.Peek();
    while more && t.value != Colon
      invariant lexer.Valid() && more == (lexer.Rest() != []) && (more ==> t == Ok(lexer.Rest()[0]))
      invariant NamesOf(start) == Prepend(fields, NamesOf(lexer.Rest()))
      decreases |lexer.Rest()|
    {
      var comma :- lexer.Eat(Comma);
      var s :- lexer.EatString();
      PrependOneMore(fields, s, NamesOf(lexer.Rest()));
      fields := fields + [s];
      more := lexer.HasMore();
      t := lexer.Peek();
    }
    assert fields + [] == fields;
    r := Ok(fields);
  }

  method ParseCase(lexer: Lexer) returns (r: Outcome<Case>)
    requires lexer.Valid()
    modifies lexer
    ensures lexer.Valid() && Agrees(r, CaseOf(old(lexer.Rest())), lexer.Rest())
    decreases |lexer.Rest()|, 0
  {
    ghost var ts := lexer.Rest();
    var word :- lexer.Eat(CaseWord);
    var first :- lexer.EatString();
    assert lexer.Rest() == ts[2..];
    var names :- ParseMoreNames(lexer);
    var colon :- lexer.Eat(Colon);
    var p :- ParsePiping(lexer);
    var end :- lexer.Eat(Terminator);
    r := Ok(Case([first] + names, p));
  }

  /** The cases of a switch, as long as there is another one. */
  method ParseCases(lexer: Lexer) returns (r: Outcome<seq<Case>>)
    requires lexer.Valid()
    modifies lexer
    ensures lexer.Valid() && Agrees(r, CasesOf(old(lexer.Rest())), lexer.Rest())
    decreases |lexer.Rest()|, 1
  {
    ghost var start := lexer.Rest();
    var cases: seq<Case> := [];
    PrependNothing(CasesOf(start));
    var more := lexer.HasMore();
    var t := lexer.Peek();
    while more && t.value == CaseWord
      invariant lexer.Valid() && more == (lexer.Rest() != []) && (more ==> t == Ok(lexer.Rest()[0]))
      invariant |lexer.Rest()| <= |start|
      invariant CasesOf(start) == Prepend(cases, CasesOf(lexer.Rest()))
      decreases |lexer.Rest()|
    {
      var c :- ParseCase(lexer);
      PrependOneMore(cases, c, CasesOf(lexer.Rest()));
      cases := cases + [c];
      more := lexer.HasMore();
      t := lexer.Peek();
    }
    assert cases + [] == cases;
    r := Ok(cases);
  }

  method ParseDefault(lexer: Lexer) returns (r: Outcome<Piping>)
    requires lexer.Valid()
    modifies lexer
    ensures lexer.Valid() && Agrees(r, DefaultOf(old(lexer.Rest())), lexer.Rest())
    decreases |lexer.Rest()|, 0
  {
    ghost var ts := lexer.Rest();
    var word :- lexer.Eat(DefaultWord);
    var colon :- lexer.Eat(Colon);
    assert lexer.Rest() == ts[2..];
    var p :- ParsePiping(lexer);
    var end :- lexer.Eat(Terminator);
    r := Ok(p);
  }

  /** ParseSwitch, ParseLocaleSwitch and ParseConfigSwitch, which differ in the word alone. */
  method ParseSwitch(lexer: Lexer, k: SwitchKind) returns (r: Outcome<Source>)
    requires lexer.Valid()
    modifies lexer
    ensures lexer.Valid() && Agrees(r, SwitchOf(old(lexer.Rest()), k), lexer.Rest())
    decreases |lexer.Rest()|, 2
  {
    ghost var ts := lexer.Rest();
    var word :- lexer.Eat(SwitchWord(k));
    var brace :- lexer.Eat(LeftBrace);
    assert lexer.Rest() == ts[2..];
    var cases :- ParseCases(lexer);
    var def :- ParseDefault(lexer);
    var end :- lexer.Eat(RightBrace);
    r := Ok(Switch(k, cases, def));
  }

  method ParseTokenizer(lexer: Lexer) returns (r: Outcome<Source>)
    requires lexer.Valid()
    modifies lexer
    ensures lexer.Valid() && Agrees(r, SourceOf(old(lexer.Rest())), lexer.Rest())
    decreases |lexer.Rest()|, 3
  {
    var t :- lexer.Peek();
    if t.SwitchWord? {
      r := ParseSwitch(lexer, t.kind);
    } else {
      var i :- ParseRelaxedInvokation(lexer);
      r := Ok(Invoke(i));
    }
  }

  /** The filters of a piping, as long as there is another pipe. */
  method ParseFilters(lexer: Lexer) returns (r: Outcome<seq<Invokation>>)
    requires lexer.Valid()
    modifies lexer
    ensures lexer.Valid() && Agrees(r, FiltersOf(old(lexer.Rest())), lexer.Rest())
  {
    ghost var start := lexer.Rest();
    var filters: seq<Invokation> := [];
    PrependNothing(FiltersOf(start));
    var more := lexer.HasMore();
    var t := lexer.Peek();
    while more && t.value == Pipe
      invariant lexer.Valid() && more == (lexer.Rest() != []) && (more ==> t == Ok(lexer.Rest()[0]))
      invariant FiltersOf(start) == Prepend(filters, FiltersOf(lexer.Rest()))
      decreases |lexer.Rest()|
    {
      var pipe := lexer.Eat(Pipe);
      var i :- ParseRelaxedInvokation(lexer);
      PrependOneMore(filters, i, FiltersOf(lexer.Rest()));
      filters := filters + [i];
      more := lexer.HasMore();
      t := lexer.Peek();
    }
    assert filters + [] == filters;
    r := Ok(filters);
  }

  method ParsePiping(lexer: Lexer) returns (r: Outcome<Piping>)
    requires lexer.Valid()
    modifies lexer
    ensures lexer.Valid() && Agrees(r, PipingOf(old(lexer.Rest())), lexer.Rest())
    decreases |lexer.Rest()|, 4
  {
    var source :- ParseTokenizer(lexer);
    var filters :- ParseFilters(lexer);
    r := Ok(Piping(source, filters));
  }

  /** ParsePiping of a whole definition, with eatEof. */
  method ParseDefinition(tokens: seq<Token>) returns (r: Outcome<Piping>)
    ensures Agrees(r, DefinitionOf(tokens), [])
  {
    var lexer := new Lexer(tokens);
    var p :- ParsePiping(lexer);
    var more := lexer.HasMore();
    r := if more then Thrown else Ok(p);
  }
}
