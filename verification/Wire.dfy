/**
 The byte format of search documents (csearchdocument.cpp, cdocumentfield.cpp) on the streams of
 the platform: little-endian integers, two bytes a character, four bytes a real.
*/
module Wire {

  type Byte = x: int | 0 <= x < 0x100
  type Char16 = x: int | 0 <= x < 0x1_0000
  type Word32 = x: int | 0 <= x < 0x1_0000_0000
  type Int32 = x: int | -0x8000_0000 <= x < 0x8000_0000

  /** The length of a descriptor is a TInt. */
  type Text = s: seq<Char16> | |s| < 0x8000_0000

  /** A TReal32 is carried as its bit pattern. */
  datatype Field = Field(name: Text, value: Text, config: Int32, boost: Word32)

  type FieldList = s: seq<Field> | |s| < 0x8000_0000

  datatype Document = Document(boost: Word32, fields: FieldList)

  // ----- what is written -----

  function WordBytes(w: Word32): (r: seq<Byte>)
    ensures |r| == 4
  {
    [w % 0x100, w / 0x100 % 0x100, w / 0x100 / 0x100 % 0x100, w / 0x100 / 0x100 / 0x100]
  }

  function IntBytes(n: Int32): (r: seq<Byte>)
    ensures |r| == 4
  {
    WordBytes(if n < 0 then n + 0x1_0000_0000 else n)
  }

  function CharsBytes(s: seq<Char16>): (r: seq<Byte>)
    ensures |r| == 2 * |s|
  {
    if s == [] then [] else [s[0] % 0x100, s[0] / 0x100] + CharsBytes(s[1..])
  }

  function TextBytes(s: Text): seq<Byte> { IntBytes(|s|) + CharsBytes(s) }

  function FieldBytes(f: Field): seq<Byte> {
    TextBytes(f.name) + TextBytes(f.value) + IntBytes(f.config) + WordBytes(f.boost)
  }

  function FieldsBytes(fs: seq<Field>): seq<Byte> { if fs == [] then [] else FieldBytes(fs[0]) + FieldsBytes(fs[1..]) }

  function DocBytes(d: Document): seq<Byte> { WordBytes(d.boost) + IntBytes(|d.fields|) + FieldsBytes(d.fields) }

  // ----- what is read -----

  /** The outcome of a read: a value and the bytes left, or a leave. */
  datatype Read<+T> = Got(value: T, rest: seq<Byte>) | Leaves

  function WordOf(a: int, b: int, c: int, d: int): int { a + 0x100 * (b + 0x100 * (c + 0x100 * d)) }

  function CharOf(lo: int, hi: int): int { lo + 0x100 * hi }

  function ReadWord(bs: seq<Byte>): Read<Word32> {
    if |bs| < 4 then Leaves
    else Got(WordOf(bs[0], bs[1], bs[2], bs[3]), bs[4..])
  }

  function ReadInt(bs: seq<Byte>): Read<Int32> {
    match ReadWord(bs)
    case Got(w, rest) => Got(if w < 0x8000_0000 then w else w - 0x1_0000_0000, rest)
    case Leaves => Leaves
  }

  function ReadChars(bs: seq<Byte>, n: nat): (r: Read<seq<Char16>>)
    ensures r.Got? ==> |r.value| == n
  {
    if n == 0 then Got([], bs)
    else if |bs| < 2 then Leaves
    else match ReadChars(bs[2..], n - 1)
      case Got(cs, rest) => Got([CharOf(bs[0], bs[1])] + cs, rest)
      case Leaves => Leaves
  }

  /** A negative length makes the allocation of the buffer fail. */
  function ReadText(bs: seq<Byte>): Read<Text> {
    match ReadInt(bs)
    case Got(n, rest) => if n < 0 then Leaves
      else (match ReadChars(rest, n) case Got(cs, left) => Got(cs, left) case Leaves => Leaves)
    case Leaves => Leaves
  }

  function ReadField(bs: seq<Byte>): Read<Field> {
    var name := ReadText(bs);
    if name.Leaves? then Leaves else
    var value := ReadText(name.rest);
    if value.Leaves? then Leaves else
    var config := ReadInt(value.rest);
    if config.Leaves? then Leaves else
    var boost := ReadWord(config.rest);
    if boost.Leaves? then Leaves else Got(Field(name.value, value.value, config.value, boost.value), boost.rest)
  }

  /** A count that is not positive reads no field. */
  function ReadFields(bs: seq<Byte>, n: int): (r: Read<seq<Field>>)
    ensures r.Got? ==> |r.value| == if n < 0 then 0 else n
    decreases n
  {
    if n <= 0 then Got([], bs) else
    match ReadField(bs)
    case Got(f, rest) => (match ReadFields(rest, n - 1) case Got(fs, left) => Got([f] + fs, left) case Leaves => Leaves)
    case Leaves => Leaves
  }

  function ReadDoc(bs: seq<Byte>): Read<Document> {
    var boost := ReadWord(bs);
    if boost.Leaves? then Leaves else
    var count := ReadInt(boost.rest);
    if count.Leaves? then Leaves else
    match ReadFields(count.rest, count.value)
    case Got(fs, rest) => Got(Document(boost.value, fs), rest)
    case Leaves => Leaves
  }

  // ----- reading what was written -----

  lemma WordRead(w: Word32, rest: seq<Byte>)
    ensures ReadWord(WordBytes(w) + rest) == Got(w, rest)
  {
    assert (WordBytes(w) + rest)[4..] == rest;
  }

  lemma IntRead(n: Int32, rest: seq<Byte>)
    ensures ReadInt(IntBytes(n) + rest) == Got(n, rest)
  {
    WordRead(if n < 0 then n + 0x1_0000_0000 else n, rest);
  }

  lemma {:induction false} CharsRead(s: seq<Char16>, rest: seq<Byte>)
    ensures ReadChars(CharsBytes(s) + rest, |s|) == Got(s, rest)
  {
    var bs := CharsBytes(s) + rest;
    if s == [] {
      assert bs == rest;
    } else {
      assert bs[2..] == CharsBytes(s[1..]) + rest;
      CharsRead(s[1..], rest);
      assert [s[0]] + s[1..] == s;
    }
  }

  lemma TextRead(s: Text, rest: seq<Byte>)
    ensures ReadText(TextBytes(s) + rest) == Got(s, rest)
  {
    assert TextBytes(s) + rest == IntBytes(|s|) + (CharsBytes(s) + rest);
    hide IntBytes, CharsBytes, ReadInt, ReadChars;
    IntRead(|s|, CharsBytes(s) + rest);
    CharsRead(s, rest);
  }

  lemma FieldRead(f: Field, rest: seq<Byte>)
    ensures ReadField(FieldBytes(f) + rest) == Got(f, rest)
  {
    hide TextBytes, IntBytes, WordBytes, ReadText, ReadInt, ReadWord;
    var afterConfig := WordBytes(f.boost) + rest;
    var afterValue := IntBytes(f.config) + afterConfig;
    var afterName := TextBytes(f.value) + afterValue;
    assert FieldBytes(f) + rest == TextBytes(f.name) + afterName;
    TextRead(f.name, afterName);
    TextRead(f.value, afterValue);
    IntRead(f.config, afterConfig);
    WordRead(f.boost, rest);
  }

  lemma {:induction false} FieldsRead(fs: seq<Field>, rest: seq<Byte>)
    ensures ReadFields(FieldsBytes(fs) + rest, |fs|) == Got(fs, rest)
  {
    hide FieldBytes, ReadField;
    if fs == [] {
      assert FieldsBytes(fs) + rest == rest;
    } else {
      assert FieldsBytes(fs) + rest == FieldBytes(fs[0]) + (FieldsBytes(fs[1..]) + rest);
      FieldRead(fs[0], FieldsBytes(fs[1..]) + rest);
      FieldsRead(fs[1..], rest);
      assert [fs[0]] + fs[1..] == fs;
    }
  }

  /** Reading a written document gives it back, with any bytes that follow untouched. */
  lemma DocumentRoundTrip(d: Document, rest: seq<Byte>)
    ensures ReadDoc(DocBytes(d) + rest) == Got(d, rest)
  {
    hide WordBytes, IntBytes, FieldsBytes, ReadWord, ReadInt, ReadFields;
    var body := FieldsBytes(d.fields) + rest;
    assert DocBytes(d) + rest == WordBytes(d.boost) + (IntBytes(|d.fields|) + body);
    WordRead(d.boost, IntBytes(|d.fields|) + body);
    IntRead(|d.fields|, body);
    FieldsRead(d.fields, rest);
  }

  // ----- writing what was read -----

  lemma LowAndHigh(lo: int, hi: int)
    requires 0 <= lo < 0x100
    ensures (lo + 0x100 * hi) % 0x100 == lo && (lo + 0x100 * hi) / 0x100 == hi
  {
  }

  lemma WordDigits(a: Byte, b: Byte, c: Byte, d: Byte)
    ensures WordBytes(WordOf(a, b, c, d)) == [a, b, c, d]
  {
    LowAndHigh(a, b + 0x100 * (c + 0x100 * d));
    LowAndHigh(b, c + 0x100 * d);
    LowAndHigh(c, d);
  }

  lemma WordWritten(bs: seq<Byte>)
    requires ReadWord(bs).Got?
    ensures bs == WordBytes(ReadWord(bs).value) + ReadWord(bs).rest
  {
    assert bs == [bs[0], bs[1], bs[2], bs[3]] + bs[4..];
    WordDigits(bs[0], bs[1], bs[2], bs[3]);
  }

  lemma IntWritten(bs: seq<Byte>)
    requires ReadInt(bs).Got?
    ensures bs == IntBytes(ReadInt(bs).value) + ReadInt(bs).rest
  {
    WordWritten(bs);
  }

  lemma {:induction false} CharsWritten(bs: seq<Byte>, n: nat)
    requires ReadChars(bs, n).Got?
    ensures bs == CharsBytes(ReadChars(bs, n).value) + ReadChars(bs, n).rest
  {
    if n > 0 {
      CharsWritten(bs[2..], n - 1);
      var cs := ReadChars(bs[2..], n - 1).value;
      var s: seq<Char16> := [CharOf(bs[0], bs[1])] + cs;
      assert s[1..] == cs;
      assert CharsBytes(s) == [bs[0], bs[1]] + CharsBytes(cs);
      assert bs == [bs[0], bs[1]] + bs[2..];
    }
  }

  lemma TextWritten(bs: seq<Byte>)
    requires ReadText(bs).Got?
    ensures bs == TextBytes(ReadText(bs).value) + ReadText(bs).rest
  {
    hide IntBytes, CharsBytes, ReadInt, ReadChars;
    IntWritten(bs);
    var n := ReadInt(bs);
    CharsWritten(n.rest, n.value);
  }

  lemma FieldWritten(bs: seq<Byte>)
    requires ReadField(bs).Got?
    ensures bs == FieldBytes(ReadField(bs).value) + ReadField(bs).rest
  {
    hide TextBytes, IntBytes, WordBytes, ReadText, ReadInt, ReadWord;
    var name := ReadText(bs);
    var value := ReadText(name.rest);
    var config := ReadInt(value.rest);
    TextWritten(bs);
    TextWritten(name.rest);
    IntWritten(value.rest);
    WordWritten(config.rest);
  }

  lemma {:induction false} FieldsWritten(bs: seq<Byte>, n: int)
    requires ReadFields(bs, n).Got?
    ensures bs == FieldsBytes(ReadFields(bs, n).value) + ReadFields(bs, n).rest
    decreases n
  {
    hide FieldBytes, ReadField;
    if n > 0 {
      var f := ReadField(bs);
      FieldWritten(bs);
      FieldsWritten(f.rest, n - 1);
      var fs := ReadFields(f.rest, n - 1).value;
      assert ([f.value] + fs)[1..] == fs;
    }
  }

  /** The number of fields that the bytes announce. */
  function Announced(bs: seq<Byte>): int
    requires ReadDoc(bs).Got?
  {
    ReadInt(ReadWord(bs).rest).value
  }

  lemma ImageAnnouncesItsCount(d: Document, rest: seq<Byte>)
    ensures ReadDoc(DocBytes(d) + rest).Got? && Announced(DocBytes(d) + rest) == |d.fields|
  {
    DocumentRoundTrip(d, rest);
    hide WordBytes, IntBytes, FieldsBytes, ReadWord, ReadInt, ReadFields;
    var tail := FieldsBytes(d.fields) + rest;
    assert DocBytes(d) + rest == WordBytes(d.boost) + (IntBytes(|d.fields|) + tail);
    WordRead(d.boost, IntBytes(|d.fields|) + tail);
    IntRead(|d.fields|, tail);
  }

  lemma {:induction false} ReadIsWritten(bs: seq<Byte>)
    requires ReadDoc(bs).Got? && Announced(bs) >= 0
    ensures bs == DocBytes(ReadDoc(bs).value) + ReadDoc(bs).rest
  {
    hide WordBytes, IntBytes, FieldsBytes, ReadWord, ReadInt, ReadFields;
    var boost := ReadWord(bs);
    var count := ReadInt(boost.rest);
    WordWritten(bs);
    IntWritten(boost.rest);
    FieldsWritten(count.rest, count.value);
  }

  /**
   Whatever can be read is the image of the document it yields, byte for byte, if and only if it
   does not announce a negative number of fields, which is read as an empty document.
  */
  lemma ReadIsWrittenIff(bs: seq<Byte>)
    requires ReadDoc(bs).Got?
    ensures bs == DocBytes(ReadDoc(bs).value) + ReadDoc(bs).rest <==> Announced(bs) >= 0
  {
    ImageAnnouncesItsCount(ReadDoc(bs).value, ReadDoc(bs).rest);
    if Announced(bs) >= 0 { ReadIsWritten(bs); }
    hide ReadDoc, DocBytes;
  }

  // ----- sizes -----

  /** CDocumentField::Size. */
  function FieldSize(f: Field): int { 4 + 4 + 2 * |f.name| + 4 + 2 * |f.value| + 4 }

  function FieldSizes(fs: seq<Field>): int { if fs == [] then 0 else FieldSize(fs[0]) + FieldSizes(fs[1..]) }

  /** CSearchDocument::Size, which takes the boost for a TReal of eight bytes. */
  function DocSize(d: Document): int { 4 + 8 + FieldSizes(d.fields) }

  lemma {:induction false} FieldsLength(fs: seq<Field>)
    ensures |FieldsBytes(fs)| == FieldSizes(fs) && FieldSizes(fs) >= 0
  {
    if fs != [] { FieldsLength(fs[1..]); }
  }

  /** The serialised length is always four less than Size, and Size is never zero. */
  lemma SerialisedLength(d: Document)
    ensures |DocBytes(d)| == DocSize(d) - 4 && DocSize(d) >= 12
  {
    FieldsLength(d.fields);
  }

  // ----- the layout -----

  /** The number that four bytes stand for, the lowest first. */
  function Little(b: seq<Byte>): int
    requires |b| == 4
  {
    (b[0] as int) + 0x100 * (b[1] as int) + 0x1_0000 * (b[2] as int) + 0x100_0000 * (b[3] as int)
  }

  /** Little-endian, two's complement; a character takes two bytes. */
  lemma NumberLayout(w: Word32, n: Int32)
    ensures Little(WordBytes(w)) == w
    ensures Little(IntBytes(n)) == (n as int) + if n < 0 then 0x1_0000_0000 else 0
  {
  }

  lemma {:induction false} CharLayout(s: seq<Char16>, i: nat)
    requires i < |s|
    ensures (CharsBytes(s)[2 * i] as int) + 0x100 * (CharsBytes(s)[2 * i + 1] as int) == s[i]
  {
    if i > 0 { CharLayout(s[1..], i - 1); }
  }

  /** A field is the length of its name, the name, the length of its value, the value, the configuration, the boost. */
  lemma FieldLayout(f: Field)
    ensures var b, n, v := FieldBytes(f), 2 * |f.name|, 2 * |f.value|;
      && |b| == n + v + 16
      && b[..4] == IntBytes(|f.name|) && b[4..4 + n] == CharsBytes(f.name)
      && b[4 + n..8 + n] == IntBytes(|f.value|) && b[8 + n..8 + n + v] == CharsBytes(f.value)
      && b[8 + n + v..12 + n + v] == IntBytes(f.config) && b[12 + n + v..] == WordBytes(f.boost)
  {
    hide WordBytes, IntBytes, CharsBytes;
  }

  /** A document is its boost, the number of its fields and the fields in order. */
  lemma {:induction false} DocumentLayout(d: Document, i: nat)
    requires i < |d.fields|
    ensures var b := DocBytes(d);
      && |b| >= 8 && b[..4] == WordBytes(d.boost) && b[4..8] == IntBytes(|d.fields|)
      && b == b[..8] + FieldsBytes(d.fields[..i]) + FieldBytes(d.fields[i]) + FieldsBytes(d.fields[i + 1..])
  {
    FieldsLayout(d.fields, i);
    var before, after := FieldsBytes(d.fields[..i]), FieldsBytes(d.fields[i + 1..]);
    HeadOf(WordBytes(d.boost), IntBytes(|d.fields|), before, FieldBytes(d.fields[i]), after);
    hide WordBytes, IntBytes, FieldBytes, FieldsBytes;
  }

  lemma HeadOf(a: seq<Byte>, b: seq<Byte>, p: seq<Byte>, q: seq<Byte>, r: seq<Byte>)
    requires |a| == 4 && |b| == 4
    ensures var all := a + b + (p + q + r);
      |all| >= 8 && all[..4] == a && all[4..8] == b && all == all[..8] + p + q + r
  {
    var all := a + b + (p + q + r);
    assert all[..8] == a + b;
  }

  lemma {:induction false} FieldsLayout(fs: seq<Field>, i: nat)
    requires i < |fs|
    ensures FieldsBytes(fs) == FieldsBytes(fs[..i]) + FieldBytes(fs[i]) + FieldsBytes(fs[i + 1..])
  {
    hide FieldBytes;
    if i == 0 {
      assert fs[..0] == [];
    } else {
      FieldsLayout(fs[1..], i - 1);
      assert fs[1..][..i - 1] == fs[..i][1..] && fs[1..][i..] == fs[i + 1..];
    }
  }

  // ----- sequences read one element at a time -----

  function Prepended<T>(xs: seq<T>, r: Read<seq<T>>): Read<seq<T>> {
    match r
    case Got(ys, rest) => Got(xs + ys, rest)
    case Leaves => Leaves
  }

  lemma PrependNothing<T>(r: Read<seq<T>>)
    ensures Prepended([], r) == r
  {
    if r.Got? { assert [] + r.value == r.value; }
  }

  lemma PrependOneMore<T>(xs: seq<T>, x: T, r: Read<seq<T>>)
    ensures Prepended(xs, Prepended([x], r)) == Prepended(xs + [x], r)
  {
    if r.Got? { assert xs + ([x] + r.value) == xs + [x] + r.value; }
  }
}
