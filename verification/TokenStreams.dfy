/**
 The token streams of analyzer.cpp that feed the aggregate fields: one token at a time, with the
 state of the source, against what they mean as a whole. The analyzers themselves are foreign
 code; a field carries the tokens that each of them would yield for its text.
*/
module TokenStreams {
  import opened Options

  datatype Token = Token(text: string, start: int, end: int, type_: string, increment: int)

  datatype Content = StringValue | FileReaderProxy | OtherReader | StreamValue

  datatype Field = Field(
    name: string,
    aggregated: bool,
    content: Content,
    freeText: bool,
    phoneNumber: bool,
    byStandard: seq<Token>,      // StandardTokenizer, StandardFilter, LowerCaseFilter
    byPhoneNumber: seq<Token>,   // PhoneNumberAnalyzer
    byAnalyzer: seq<Token>)      // the analyzer of the index

  // ----- what the streams mean -----

  /** Everything a stream still yields, and whether it then throws instead of ending. */
  datatype Output = Output(tokens: seq<Token>, fails: bool)

  predicate Readable(f: Field) { f.content.StringValue? || f.content.FileReaderProxy? }

  function Analyzed(f: Field): seq<Token> {
    if f.freeText then f.byStandard else if f.phoneNumber then f.byPhoneNumber else f.byAnalyzer
  }

  /** The tokens of the aggregated fields in order, up to the first one that cannot be read. */
  function Aggregated(fs: seq<Field>): Output {
    if fs == [] then Output([], false)
    else if !fs[0].aggregated then Aggregated(fs[1..])
    else if !Readable(fs[0]) then Output([], true)
    else var o := Aggregated(fs[1..]); Output(Analyzed(fs[0]) + o.tokens, o.fails)
  }

  /** The place of the first field to be aggregated, or the end. */
  function NextAggregated(fs: seq<Field>): (r: nat)
    ensures r <= |fs| && (r < |fs| ==> fs[r].aggregated)
    ensures forall j | 0 <= j < r :: !fs[j].aggregated
  {
    if fs == [] || fs[0].aggregated then 0 else 1 + NextAggregated(fs[1..])
  }

  /** The first field to be aggregated cannot be read. */
  predicate FirstAggregatedFails(fs: seq<Field>) {
    fs != [] && (if fs[0].aggregated then !Readable(fs[0]) else FirstAggregatedFails(fs[1..]))
  }

  function Min(a: nat, b: nat): nat { if a <= b then a else b }

  /** The prefixes of a token of the lengths n down to 1; the first one has the given increment, the others 0. */
  function Prefixes(t: Token, n: nat, increment: int): (r: seq<Token>)
    requires n <= |t.text|
    ensures |r| == n
  {
    if n == 0 then []
    else [t.(text := t.text[..n], increment := increment)] + Prefixes(t, n - 1, 0)
  }

  function Expanded(ts: seq<Token>, max: nat): seq<Token> {
    if ts == [] then []
    else Prefixes(ts[0], Min(|ts[0].text|, max), ts[0].increment) + Expanded(ts[1..], max)
  }

  // ----- the streams -----

  datatype Pull = Item(token: Token) | End | Thrown

  /** One call of next: it takes the first token off the output, or the stream ends or throws. */
  predicate Pulls(r: Pull, before: Output, after: Output) {
    match r
    case Item(t) => before.tokens != [] && t == before.tokens[0] && after == Output(before.tokens[1..], before.fails)
    case End => before == Output([], false) && after == before
    case Thrown => before == Output([], true) && after == Output([], false)
  }

  class AggregateFieldTokenStream {
    var stream: Option<seq<Token>>   // stream_: what the stream of the current field still holds
    var fields: seq<Field>           // fields_: the fields not reached yet

    /** What repeated calls of next will give. */
    function Rest(): Output
      reads this
    {
      if stream.None? then Output([], false)
      else Output(stream.value + Aggregated(fields).tokens, Aggregated(fields).fails)
    }

    constructor (fields: seq<Field>)
      ensures this.fields == fields && stream.None?
    {
      stream, this.fields := None, fields;
    }

    /**
     getNextStream: the stream of the next aggregated field, none when there is no further one, or an
     exception when its content is neither a string nor a file reader. Free text goes through the
     standard tokenizer, a phone number that is no free text through the phone-number analyzer, and
     everything else through the analyzer of the index.
    */
    method GetNextStream() returns (ok: bool)
      modifies this
      ensures var fs, i := old(fields), NextAggregated(old(fields));
        if i == |fs| then ok && stream.None? && fields == []
        else
          && fields == fs[i + 1..]
          && (ok <==> fs[i].content == StringValue || fs[i].content == FileReaderProxy)
          && (ok && fs[i].freeText ==> stream == Some(fs[i].byStandard))
          && (ok && !fs[i].freeText && fs[i].phoneNumber ==> stream == Some(fs[i].byPhoneNumber))
          && (ok && !fs[i].freeText && !fs[i].phoneNumber ==> stream == Some(fs[i].byAnalyzer))
      ensures ok ==> Rest() == Aggregated(old(fields)) && (stream.None? ==> fields == [])
      ensures ok == !FirstAggregatedFails(old(fields))
      ensures !ok ==> Aggregated(old(fields)) == Output([], true) && stream.None?
      ensures stream.Some? ==> |fields| < |old(fields)|
    {
      stream := None;
      var field: Option<Field> := None;
      while fields != [] && field.None?
        invariant stream.None? && |fields| <= |old(fields)|
        invariant |fields| <= |old(fields)| && fields == old(fields)[|old(fields)| - |fields|..]
        invariant field.None? ==> NextAggregated(old(fields)) == |old(fields)| - |fields| + NextAggregated(fields)
        invariant field.Some? ==>
          && NextAggregated(old(fields)) == |old(fields)| - |fields| - 1
          && field.value == old(fields)[NextAggregated(old(fields))]
        invariant field.None? ==>
          Aggregated(fields) == Aggregated(old(fields))
          && FirstAggregatedFails(fields) == FirstAggregatedFails(old(fields))
        invariant field.Some? ==>
          field.value.aggregated && |fields| < |old(fields)|
          && Aggregated(old(fields)) == Aggregated([field.value] + fields)
        invariant field.Some? ==> FirstAggregatedFails(old(fields)) == !Readable(field.value)
      {
        field := Some(fields[0]);
        assert fields == [fields[0]] + fields[1..];
        fields := fields[1..];
        if !field.value.aggregated { field := None; }
      }
      if field.Some? {
        if !Readable(field.value) { return false; }
        stream := Some(Analyzed(field.value));
      }
      ok := true;
    }

    method Next() returns (r: Pull)
      modifies this
      ensures Pulls(r, old(Rest()), Rest())
    {
      while stream.Some?
        invariant Rest() == old(Rest())
        decreases if stream.Some? then 1 + |fields| else 0
      {
        if stream.value != [] {
          r := Item(stream.value[0]);
          stream := Some(stream.value[1..]);
          return;
        }
        assert stream.value + Aggregated(fields).tokens == Aggregated(fields).tokens;
        var ok := GetNextStream();
        if !ok { return Thrown; }
      }
      r := End;
    }
  }

  class PrefixGenerator {
    const input: AggregateFieldTokenStream
    const maxPrefixLength: nat
    var token: Token                 // token_
    var prefixLength: nat            // prefixLength_

    predicate Valid()
      reads this
    {
      prefixLength <= |token.text|
    }

    function Rest(): Output
      requires Valid()
      reads this, input
    {
      Output(Prefixes(token, prefixLength, 0) + Expanded(input.Rest().tokens, maxPrefixLength), input.Rest().fails)
    }

    constructor (input: AggregateFieldTokenStream, maxPrefixLength: nat)
      ensures Valid() && this.input == input && this.maxPrefixLength == maxPrefixLength
      ensures Rest() == Output(Expanded(input.Rest().tokens, maxPrefixLength), input.Rest().fails)
    {
      this.input, this.maxPrefixLength := input, maxPrefixLength;
      token, prefixLength := Token("", 0, 0, "", 1), 0;
      new;
      assert Prefixes(token, 0, 0) == [];
    }

    /** What is left when the stored token still has to give prefixes, the first one with its own increment. */
    ghost function Pending(): Output
      requires Valid()
      reads this, input
    {
      Output(Prefixes(token, prefixLength, token.increment) + Expanded(input.Rest().tokens, maxPrefixLength),
        input.Rest().fails)
    }

    /** The loop of next: gets tokens until one has a prefix. */
    method Fetch() returns (r: Pull)
      requires Valid()
      modifies this, input
      ensures Valid() && (r.Item? ==> prefixLength > 0 && Pending() == old(Pending()))
      ensures !r.Item? ==> prefixLength == 0 && Pulls(r, old(Pending()), Pending())
    {
      while prefixLength == 0
        invariant Valid() && old(Pending()) == Pending()
        decreases prefixLength == 0, |input.Rest().tokens|
      {
        token := token.(increment := 1);
        var p := input.Next();
        if !p.Item? { return p; }
        token := p.token;
        prefixLength := Min(|token.text|, maxPrefixLength);
      }
      r := Item(token);
    }

    method Next() returns (r: Pull)
      requires Valid()
      modifies this, input
      ensures Valid() && Pulls(r, old(Rest()), Rest())
    {
      hide Prefixes, Expanded, Aggregated;
      IncrementIsReplaced(token, 0, prefixLength, 0);
      token := token.(increment := 0);
      assert Pending() == old(Rest());
      r := Fetch();
      if !r.Item? { return; }
      Clip(token, prefixLength, input.Rest(), maxPrefixLength);
      token := token.(text := token.text[..prefixLength]);
      r := Item(token);
      prefixLength := prefixLength - 1;
    }
  }

  /** Taking the longest prefix off, and clipping the stored token to it. */
  lemma Clip(t: Token, n: nat, input: Output, max: nat)
    requires 0 < n <= |t.text|
    ensures var c := t.(text := t.text[..n]); var ts := Prefixes(t, n, t.increment) + Expanded(input.tokens, max);
      ts != [] && ts[0] == c && ts[1..] == Prefixes(c, n - 1, 0) + Expanded(input.tokens, max)
  {
    hide Expanded;
    ShorterPrefixes(t, n, n - 1);
  }

  lemma {:induction false} IncrementIsReplaced(t: Token, i: int, n: nat, increment: int)
    requires n <= |t.text|
    ensures Prefixes(t.(increment := i), n, increment) == Prefixes(t, n, increment)
  {
    if n > 0 { IncrementIsReplaced(t, i, n - 1, 0); }
  }

  /** Clipping the stored token in place does not change its shorter prefixes. */
  lemma {:induction false} ShorterPrefixes(t: Token, n: nat, m: nat)
    requires m <= n <= |t.text|
    ensures Prefixes(t.(text := t.text[..n]), m, 0) == Prefixes(t, m, 0)
  {
    if m > 0 {
      assert t.text[..n][..m] == t.text[..m];
      ShorterPrefixes(t, n, m - 1);
    }
  }

  /** What the indexer gets by calling next until the stream ends or throws. */
  method Drain(generator: PrefixGenerator) returns (ts: seq<Token>, threw: bool)
    requires generator.Valid()
    modifies generator, generator.input
    ensures ts == old(generator.Rest().tokens) && threw == old(generator.Rest().fails)
  {
    hide Prefixes, Expanded, Aggregated, PrefixGenerator.Rest;
    ts := [];
    var r := generator.Next();
    while r.Item?
      invariant generator.Valid()
      invariant match r
        case Item(t) => old(generator.Rest()) == Output(ts + [t] + generator.Rest().tokens, generator.Rest().fails)
        case End => old(generator.Rest()) == Output(ts, false)
        case Thrown => old(generator.Rest()) == Output(ts, true)
      decreases r.Item?, |generator.Rest().tokens|
    {
      ts := ts + [r.token];
      r := generator.Next();
    }
    threw := r.Thrown?;
  }

  // ----- dispatch -----

  const OPTIMIZED_PREFIX_MAX_LENGTH := 2

  /** What AggregateFieldAnalyzer yields for a name; `own` is what the analyzer of the index makes of the reader. */
  function TokenStream(name: string, fs: seq<Field>, own: seq<Token>): Output {
    if name == "_aggregate" then Aggregated(fs)
    else if name == "_aggregate_prefix" then Output(Expanded(Aggregated(fs).tokens, OPTIMIZED_PREFIX_MAX_LENGTH),
      Aggregated(fs).fails)
    else Output(own, false)
  }

  /** tokenStream of "_aggregate_prefix"; None when opening the first field throws. */
  method PrefixStream(fs: seq<Field>) returns (r: Option<PrefixGenerator>)
    ensures r.None? <==> FirstAggregatedFails(fs)
    ensures r.Some? ==>
      fresh(r.value) && fresh(r.value.input) && r.value.Valid()
      && r.value.Rest() == TokenStream("_aggregate_prefix", fs, [])
  {
    var input := new AggregateFieldTokenStream(fs);
    var ok := input.GetNextStream();
    if !ok { return None; }
    var generator := new PrefixGenerator(input, OPTIMIZED_PREFIX_MAX_LENGTH);
    r := Some(generator);
  }

  // ----- what the prefix stream contains -----

  lemma {:induction false} PrefixAt(t: Token, n: nat, increment: int, k: nat)
    requires k < n <= |t.text|
    ensures Prefixes(t, n, increment)[k] == t.(text := t.text[..n - k], increment := if k == 0 then increment else 0)
  {
    if k > 0 { PrefixAt(t, n - 1, 0, k - 1); }
  }

  lemma {:induction false} ExpandedAppend(ts: seq<Token>, us: seq<Token>, max: nat)
    ensures Expanded(ts + us, max) == Expanded(ts, max) + Expanded(us, max)
  {
    if ts == [] {
      assert ts + us == us;
    } else {
      assert (ts + us)[1..] == ts[1..] + us;
      ExpandedAppend(ts[1..], us, max);
    }
  }

  /** The prefix stream takes the aggregated fields one after the other, up to the first that cannot be read. */
  lemma FieldByField(f: Field, fs: seq<Field>, own: seq<Token>)
    ensures var o := TokenStream("_aggregate_prefix", [f] + fs, own);
      var rest := TokenStream("_aggregate_prefix", fs, own);
      o == if !f.aggregated then rest
           else if !Readable(f) then Output([], true)
           else Output(Expanded(Analyzed(f), 2) + rest.tokens, rest.fails)
  {
    assert ([f] + fs)[1..] == fs;
    ExpandedAppend(Analyzed(f), Aggregated(fs).tokens, OPTIMIZED_PREFIX_MAX_LENGTH);
  }

  /**
   What a field contributes to the aggregate field itself, analyzer by analyzer; and which contents
   cannot be aggregated.
  */
  lemma AnalyzedBy(f: Field, fs: seq<Field>, own: seq<Token>)
    ensures var o, rest := TokenStream("_aggregate", [f] + fs, own), TokenStream("_aggregate", fs, own);
      && (!f.aggregated ==> o == rest)
      && (f.aggregated && (f.content == OtherReader || f.content == StreamValue) ==> o == Output([], true))
      && (f.aggregated && (f.content == StringValue || f.content == FileReaderProxy) ==>
            && o.fails == rest.fails
            && (f.freeText ==> o.tokens == f.byStandard + rest.tokens)
            && (!f.freeText && f.phoneNumber ==> o.tokens == f.byPhoneNumber + rest.tokens)
            && (!f.freeText && !f.phoneNumber ==> o.tokens == f.byAnalyzer + rest.tokens))
    ensures TokenStream("_aggregate", [], own) == Output([], false)
  {
    assert ([f] + fs)[1..] == fs;
  }

  /** Any other field is left to the analyzer of the index. */
  lemma OtherFields(name: string, fs: seq<Field>, own: seq<Token>)
    requires name != "_aggregate" && name != "_aggregate_prefix"
    ensures TokenStream(name, fs, own) == Output(own, false)
  {
  }

  /** A call of next is told by the output before it alone: the first token, or the end, or the exception once. */
  lemma PullsIff(r: Pull, before: Output, after: Output)
    ensures Pulls(r, before, after) <==>
      if before.tokens != [] then r == Item(before.tokens[0]) && after == Output(before.tokens[1..], before.fails)
      else r == (if before.fails then Thrown else End) && after == Output([], false)
  {
  }

  /** The prefix of length m that token t contributes. */
  function PrefixOf(t: Token, m: nat, max: nat): Token
    requires 1 <= m <= |t.text| && m <= max
  {
    t.(text := t.text[..m], increment := if m == |t.text| || m == max then t.increment else 0)
  }

  ghost predicate IsPrefixOfOne(u: Token, ts: seq<Token>, max: nat) {
    exists t, m :: t in ts && 1 <= m <= |t.text| && m <= max && u == PrefixOf(t, m, max)
  }

  lemma PrefixesMembers(t: Token, max: nat, u: Token)
    ensures var n := Min(|t.text|, max);
      u in Prefixes(t, n, t.increment) <==> exists m :: 1 <= m <= |t.text| && m <= max && u == PrefixOf(t, m, max)
  {
    var n := Min(|t.text|, max);
    var ps := Prefixes(t, n, t.increment);
    forall k | 0 <= k < n ensures ps[k] == PrefixOf(t, n - k, max) { PrefixAt(t, n, t.increment, k); }
    if m :| 1 <= m <= |t.text| && m <= max && u == PrefixOf(t, m, max) {
      assert ps[n - m] == u;
    }
  }

  /**
   A token is in the expanded stream if and only if it is a prefix, of a length from 1 to the
   limit, of a token of the source, with that token's offsets and type, and with its increment
   if it is the longest such prefix and increment 0 otherwise.
  */
  lemma {:induction false} ExpandedMembersIff(ts: seq<Token>, max: nat, u: Token)
    ensures u in Expanded(ts, max) <==> IsPrefixOfOne(u, ts, max)
  {
    if ts != [] {
      ExpandedMembersIff(ts[1..], max, u);
      PrefixesMembers(ts[0], max, u);
      assert ts == [ts[0]] + ts[1..];
    }
  }

  function Increments(ts: seq<Token>): int { if ts == [] then 0 else ts[0].increment + Increments(ts[1..]) }

  lemma {:induction false} IncrementsAppend(ts: seq<Token>, us: seq<Token>)
    ensures Increments(ts + us) == Increments(ts) + Increments(us)
  {
    if ts == [] {
      assert ts + us == us;
    } else {
      assert (ts + us)[1..] == ts[1..] + us;
      IncrementsAppend(ts[1..], us);
    }
  }

  lemma {:induction false} PrefixesIncrement(t: Token, n: nat, increment: int)
    requires n <= |t.text|
    ensures Increments(Prefixes(t, n, increment)) == if n == 0 then 0 else increment
  {
    if n > 0 {
      PrefixesIncrement(t, n - 1, 0);
      IncrementsAppend([t.(text := t.text[..n], increment := increment)], Prefixes(t, n - 1, 0));
    }
  }

  /** The tokens that have a prefix at all. */
  function NonEmpty(ts: seq<Token>): seq<Token> {
    if ts == [] then [] else (if ts[0].text == "" then [] else [ts[0]]) + NonEmpty(ts[1..])
  }

  /** Splitting tokens into prefixes keeps every position: the prefixes of a token share the place of that token. */
  lemma {:induction false} PositionsAreKept(ts: seq<Token>, max: nat)
    requires max > 0
    ensures Increments(Expanded(ts, max)) == Increments(NonEmpty(ts))
  {
    if ts != [] {
      PositionsAreKept(ts[1..], max);
      var n := Min(|ts[0].text|, max);
      PrefixesIncrement(ts[0], n, ts[0].increment);
      IncrementsAppend(Prefixes(ts[0], n, ts[0].increment), Expanded(ts[1..], max));
      IncrementsAppend(if ts[0].text == "" then [] else [ts[0]], NonEmpty(ts[1..]));
      assert Increments([ts[0]]) == ts[0].increment;
    }
  }
}
