/**
 CSearchDocument and CDocumentField as objects over read and write streams. A leave is a false
 or empty result.
*/
module SearchDocument {
  import opened Options
  import opened Wire

  /** RDesWriteStream over a descriptor of `max` bytes: a write that does not fit leaves. */
  class WriteStream {
    const max: nat
    var bytes: seq<Byte>

    ghost predicate Valid()
      reads this
    {
      |bytes| <= max
    }

    constructor (max: nat)
      ensures Valid() && this.max == max && bytes == []
    {
      this.max, bytes := max, [];
    }

    method Write(data: seq<Byte>) returns (ok: bool)
      requires Valid()
      modifies this
      ensures Wrote(ok, this, old(bytes), data)
    {
      ok := |bytes| + |data| <= max;
      if ok { bytes := bytes + data; }
    }

    method WriteInt32L(n: Int32) returns (ok: bool)
      requires Valid()
      modifies this
      ensures Wrote(ok, this, old(bytes), IntBytes(n))
    {
      ok := Write(IntBytes(n));
    }

    method WriteReal32L(w: Word32) returns (ok: bool)
      requires Valid()
      modifies this
      ensures Wrote(ok, this, old(bytes), WordBytes(w))
    {
      ok := Write(WordBytes(w));
    }

    /** WriteInt32L of the length and WriteL of the characters. */
    method WriteText(s: Text) returns (ok: bool)
      requires Valid()
      modifies this
      ensures Wrote(ok, this, old(bytes), TextBytes(s))
    {
      ok := WriteInt32L(|s|);
      if ok { ok := Write(CharsBytes(s)); }
    }
  }

  /** All of the data was written, or there was no room for it. */
  ghost predicate Wrote(ok: bool, stream: WriteStream, was: seq<Byte>, data: seq<Byte>)
    reads stream
  {
    && stream.Valid()
    && ok == (|was| + |data| <= stream.max)
    && (ok ==> stream.bytes == was + data)
  }

  /** RDesReadStream: the bytes not read yet. */
  class ReadStream {
    var bytes: seq<Byte>

    constructor (bytes: seq<Byte>)
      ensures this.bytes == bytes
    {
      this.bytes := bytes;
    }

    method ReadInt32L() returns (r: Option<Int32>)
      modifies this
      ensures Agrees(r, ReadInt(old(bytes)), bytes)
    {
      match ReadInt(bytes) {
        case Got(n, rest) => r := Some(n); bytes := rest;
        case Leaves => r := None;
      }
    }

    method ReadReal32L() returns (r: Option<Word32>)
      modifies this
      ensures Agrees(r, ReadWord(old(bytes)), bytes)
    {
      match ReadWord(bytes) {
        case Got(w, rest) => r := Some(w); bytes := rest;
        case Leaves => r := None;
      }
    }

    /** A length, a buffer of that length, and the characters. */
    method ReadTextL() returns (r: Option<Text>)
      modifies this
      ensures Agrees(r, Wire.ReadText(old(bytes)), bytes)
    {
      var n := ReadInt32L();
      if n.None? || n.value < 0 { return None; }
      match ReadChars(bytes, n.value) {
        case Got(cs, rest) => r := Some(cs); bytes := rest;
        case Leaves => r := None;
      }
    }
  }

  predicate Agrees<T(==)>(r: Option<T>, spec: Read<T>, rest: seq<Byte>) {
    match r
    case Some(v) => spec == Got(v, rest)
    case None => spec.Leaves?
  }

  // ----- fields -----

  method ExternalizeField(f: Field, stream: WriteStream) returns (ok: bool)
    requires stream.Valid()
    modifies stream
    ensures Wrote(ok, stream, old(stream.bytes), FieldBytes(f))
  {
    hide TextBytes, IntBytes, WordBytes;
    ok := stream.WriteText(f.name);
    if ok { ok := stream.WriteText(f.value); }
    if ok { ok := stream.WriteInt32L(f.config); }
    if ok { ok := stream.WriteReal32L(f.boost); }
  }

  method InternalizeField(stream: ReadStream) returns (r: Option<Field>)
    modifies stream
    ensures Agrees(r, ReadField(old(stream.bytes)), stream.bytes)
  {
    hide Wire.ReadText, ReadInt, ReadWord;
    var name := stream.ReadTextL();
    if name.None? { return None; }
    var value := stream.ReadTextL();
    if value.None? { return None; }
    var config := stream.ReadInt32L();
    if config.None? { return None; }
    var boost := stream.ReadReal32L();
    if boost.None? { return None; }
    r := Some(Field(name.value, value.value, config.value, boost.value));
  }

  // ----- the list of fields -----

  /** The fields without the first one of that name. */
  function Removed(fs: seq<Field>, name: Text): seq<Field> {
    if fs == [] then [] else if fs[0].name == name then fs[1..] else [fs[0]] + Removed(fs[1..], name)
  }

  /** The first field of that name. */
  function Lookup(fs: seq<Field>, name: Text): Option<Field> {
    if fs == [] then None else if fs[0].name == name then Some(fs[0]) else Lookup(fs[1..], name)
  }

  lemma AtPlace(fs: seq<Field>, i: nat, name: Text)
    requires i <= |fs|
    ensures i == |fs| ==> Removed(fs[i..], name) == [] && Lookup(fs[i..], name) == None
    ensures i < |fs| && fs[i].name == name ==>
      Removed(fs[i..], name) == fs[i + 1..] && Lookup(fs[i..], name) == Some(fs[i])
    ensures i < |fs| && fs[i].name != name ==>
      Removed(fs[i..], name) == [fs[i]] + Removed(fs[i + 1..], name)
        && Lookup(fs[i..], name) == Lookup(fs[i + 1..], name)
  {
    if i < |fs| { assert fs[i..][1..] == fs[i + 1..]; }
  }

  const KDEFAULT_BOOST: Word32 := 0x3F80_0000   // 1.0 as a TReal32

  function Added(fs: seq<Field>, name: Text, value: Text, config: Int32): seq<Field> {
    Removed(fs, name) + [Field(name, value, config, KDEFAULT_BOOST)]
  }

  class CSearchDocument {
    var fields: seq<Field>
    var boost: Word32

    constructor ()
      ensures fields == [] && boost == KDEFAULT_BOOST
    {
      fields, boost := [], KDEFAULT_BOOST;
    }

    method Size() returns (r: int)
      requires |fields| < 0x8000_0000
      ensures r == DocSize(Document(boost, fields))
    {
      r := 4;
      r := r + 8;
      var i := 0;
      while i < |fields|
        invariant i <= |fields| && r + FieldSizes(fields[i..]) == DocSize(Document(boost, fields))
      {
        assert fields[i..][1..] == fields[i + 1..];
        r := r + FieldSize(fields[i]);
        i := i + 1;
      }
    }

    method ExternalizeL(stream: WriteStream) returns (ok: bool)
      requires |fields| < 0x8000_0000 && stream.Valid()
      modifies stream
      ensures Wrote(ok, stream, old(stream.bytes), DocBytes(Document(boost, fields)))
    {
      hide IntBytes, WordBytes, FieldBytes;
      ok := stream.WriteReal32L(boost);
      if ok { ok := stream.WriteInt32L(|fields|); }
      if !ok { return; }
      ghost var head := stream.bytes;
      var i := 0;
      while i < |fields|
        invariant i <= |fields| && stream.Valid()
        invariant stream.bytes + FieldsBytes(fields[i..]) == head + FieldsBytes(fields)
      {
        assert fields[i..][1..] == fields[i + 1..];
        assert |stream.bytes| + |FieldBytes(fields[i])| <= |head + FieldsBytes(fields)|;
        ok := ExternalizeField(fields[i], stream);
        if !ok { return; }
        i := i + 1;
      }
      assert stream.bytes == head + FieldsBytes(fields);
    }

    /** Reads into a document; its fields are appended to those it has. */
    method InternalizeL(stream: ReadStream) returns (ok: bool)
      modifies this, stream
      ensures ok == ReadDoc(old(stream.bytes)).Got?
      ensures ok ==> var r := ReadDoc(old(stream.bytes));
        boost == r.value.boost && fields == old(fields) + r.value.fields && stream.bytes == r.rest
    {
      hide ReadInt, ReadWord, ReadField;
      var b := stream.ReadReal32L();
      if b.None? { return false; }
      boost := b.value;
      var count := stream.ReadInt32L();
      if count.None? { return false; }
      ghost var start := stream.bytes;
      PrependNothing(ReadFields(start, count.value));
      assert fields[|old(fields)|..] == [];
      var i := 0;
      while i < count.value
        invariant 0 <= i && (i <= count.value || i == 0)
        invariant |fields| >= |old(fields)| && boost == b.value && fields[..|old(fields)|] == old(fields)
        invariant ReadFields(start, count.value)
          == Prepended(fields[|old(fields)|..], ReadFields(stream.bytes, count.value - i))
      {
        var f := InternalizeField(stream);
        if f.None? { return false; }
        PrependOneMore(fields[|old(fields)|..], f.value, ReadFields(stream.bytes, count.value - i - 1));
        assert (fields + [f.value])[|old(fields)|..] == fields[|old(fields)|..] + [f.value];
        fields := fields + [f.value];
        i := i + 1;
      }
      assert fields == old(fields) + fields[|old(fields)|..];
      ok := true;
    }

    method RemoveField(name: Text) returns (found: bool)
      modifies this`fields
      ensures fields == Removed(old(fields), name) && found == Lookup(old(fields), name).Some?
    {
      hide Removed, Lookup;
      assert fields[0..] == fields && fields[..0] == [];
      var i := 0;
      while i < |fields|
        invariant i <= |fields| && fields == old(fields)
        invariant Removed(fields, name) == fields[..i] + Removed(fields[i..], name)
        invariant Lookup(fields, name) == Lookup(fields[i..], name)
      {
        AtPlace(fields, i, name);
        if name == fields[i].name {
          fields := fields[..i] + fields[i + 1..];
          return true;
        }
        assert fields[..i] + ([fields[i]] + Removed(fields[i + 1..], name))
          == fields[..i + 1] + Removed(fields[i + 1..], name);
        i := i + 1;
      }
      AtPlace(fields, |fields|, name);
      assert fields[..|fields|] + [] == fields;
      found := false;
    }

    method AddFieldL(name: Text, value: Text, config: Int32)
      modifies this`fields
      ensures fields == Added(old(fields), name, value, config)
    {
      var found := RemoveField(name);
      fields := fields + [Field(name, value, config, KDEFAULT_BOOST)];
    }

    /** Field(name). */
    method FindField(name: Text) returns (r: Option<Field>)
      ensures r == Lookup(fields, name)
    {
      hide Lookup;
      assert fields[0..] == fields;
      for i := 0 to |fields|
        invariant Lookup(fields, name) == Lookup(fields[i..], name)
      {
        AtPlace(fields, i, name);
        if name == fields[i].name { return Some(fields[i]); }
      }
      AtPlace(fields, |fields|, name);
      r := None;
    }
  }

  // ----- documents as maps from names to fields -----

  predicate DistinctNames(fs: seq<Field>) {
    fs == [] || (Lookup(fs[1..], fs[0].name).None? && DistinctNames(fs[1..]))
  }

  lemma {:induction false} LookupOther(fs: seq<Field>, name: Text, n: Text)
    requires n != name
    ensures Lookup(Removed(fs, name), n) == Lookup(fs, n)
  {
    if fs != [] && fs[0].name != name {
      assert ([fs[0]] + Removed(fs[1..], name))[1..] == Removed(fs[1..], name);
      LookupOther(fs[1..], name, n);
    }
  }

  lemma {:induction false} RemovedIsGone(fs: seq<Field>, name: Text)
    requires DistinctNames(fs)
    ensures Lookup(Removed(fs, name), name).None? && DistinctNames(Removed(fs, name))
  {
    if fs != [] && fs[0].name != name {
      assert ([fs[0]] + Removed(fs[1..], name))[1..] == Removed(fs[1..], name);
      RemovedIsGone(fs[1..], name);
      LookupOther(fs[1..], name, fs[0].name);
    }
  }

  lemma {:induction false} LookupAppended(fs: seq<Field>, f: Field, n: Text)
    ensures Lookup(fs + [f], n) == if Lookup(fs, n).None? && f.name == n then Some(f) else Lookup(fs, n)
  {
    if fs != [] {
      assert (fs + [f])[1..] == fs[1..] + [f];
      LookupAppended(fs[1..], f, n);
    }
  }

  lemma {:induction false} AppendedIsDistinct(fs: seq<Field>, f: Field)
    requires DistinctNames(fs) && Lookup(fs, f.name).None?
    ensures DistinctNames(fs + [f])
  {
    if fs != [] {
      assert (fs + [f])[1..] == fs[1..] + [f];
      LookupAppended(fs[1..], f, fs[0].name);
      AppendedIsDistinct(fs[1..], f);
    }
  }

  /** AddFieldL keeps the names distinct and acts as an update of the map that Field(name) reads. */
  lemma AddingUpdates(fs: seq<Field>, name: Text, value: Text, config: Int32, n: Text)
    requires DistinctNames(fs)
    ensures var fs' := Added(fs, name, value, config);
      && DistinctNames(fs')
      && Lookup(fs', n) == if n == name then Some(Field(name, value, config, KDEFAULT_BOOST)) else Lookup(fs, n)
  {
    var f := Field(name, value, config, KDEFAULT_BOOST);
    RemovedIsGone(fs, name);
    AppendedIsDistinct(Removed(fs, name), f);
    LookupAppended(Removed(fs, name), f, n);
    if n != name { LookupOther(fs, name, n); }
  }

  /**
   In a document read from a stream names may occur twice. Then AddFieldL takes out the first
   occurrence alone: the field just added is the one found by its name if and only if the name
   did not occur twice before, or its second field says the same.
  */
  lemma AddedIsFoundIff(fs: seq<Field>, name: Text, value: Text, config: Int32)
    ensures var f := Field(name, value, config, KDEFAULT_BOOST); var second := Lookup(Removed(fs, name), name);
      Lookup(Added(fs, name, value, config), name) == Some(f) <==> second == None || second == Some(f)
  {
    LookupAppended(Removed(fs, name), Field(name, value, config, KDEFAULT_BOOST), name);
  }

  /** Field(name) answers the same before and after the trip. */
  lemma {:induction false} LookupSurvivesTheTrip(d: Document, rest: seq<Byte>, name: Text)
    ensures var r := ReadDoc(DocBytes(d) + rest); r.Got? && Lookup(r.value.fields, name) == Lookup(d.fields, name)
  {
    DocumentRoundTrip(d, rest);
    hide ReadDoc, DocBytes, Lookup;
  }
}
