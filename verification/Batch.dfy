/**
 Fetching a batch of documents: the server converts the stored documents and remembers their
 sizes in a static array (CCPixAbstractSearcher.cpp), the client gets the sizes first and then one
 blob, which it cuts by the sizes less four (rsearchserversession.cpp).
*/
module Batch {
  import opened Options
  import opened Wire
  import opened SearchDocument

  // ----- converting a stored document -----

  datatype Stored = Stored(name: Text, value: Text)

  /** The fields of a document of the index, few enough for their number to be a TInt with three more. */
  type Record = s: seq<Stored> | |s| < 0x7FFF_FFFC

  const DOCUID: Text := [0x5F, 0x64, 0x6F, 0x63, 0x75, 0x69, 0x64]                // _docuid
  const APPCLASS: Text := [0x5F, 0x61, 0x70, 0x70, 0x63, 0x6C, 0x61, 0x73, 0x73]  // _appclass
  const EXCERPT: Text := [0x5F, 0x65, 0x78, 0x63, 0x65, 0x72, 0x70, 0x74]         // _excerpt

  const ESTORE_YES: Int32 := 1
  const EINDEX_NO: Int32 := 16
  const EINDEX_TOKENIZED: Int32 := 32
  const EINDEX_UNTOKENIZED: Int32 := 64

  predicate IsSystem(name: Text) { name == DOCUID || name == APPCLASS || name == EXCERPT }

  predicate Stores(ss: seq<Stored>, name: Text) { exists i :: 0 <= i < |ss| && ss[i].name == name }

  /** The first field of that name is at place i. */
  predicate IsFirst(ss: seq<Stored>, name: Text, i: nat) {
    i < |ss| && ss[i].name == name && forall j | 0 <= j < i :: ss[j].name != name
  }

  /** The last field of that name is at place i. */
  predicate IsLast(ss: seq<Stored>, name: Text, i: nat) {
    i < |ss| && ss[i].name == name && forall j | i < j < |ss| :: ss[j].name != name
  }

  /** cpix_Document_getFieldValue: the first value of that name, or nothing, which counts as empty. */
  function FirstValue(ss: seq<Stored>, name: Text): Text {
    if ss == [] then [] else if ss[0].name == name then ss[0].value else FirstValue(ss[1..], name)
  }

  function LastValue(ss: seq<Stored>, name: Text): Option<Text> {
    if ss == [] then None
    else if ss[|ss| - 1].name == name then Some(ss[|ss| - 1].value) else LastValue(ss[..|ss| - 1], name)
  }

  lemma {:induction false} FirstValueAt(ss: seq<Stored>, name: Text, i: nat)
    requires IsFirst(ss, name, i)
    ensures FirstValue(ss, name) == ss[i].value
  {
    if i > 0 {
      assert forall j | 0 <= j < i - 1 :: ss[1..][j] == ss[j + 1];
      FirstValueAt(ss[1..], name, i - 1);
    }
  }

  lemma {:induction false} LastValueAt(ss: seq<Stored>, name: Text, i: nat)
    requires IsLast(ss, name, i)
    ensures LastValue(ss, name) == Some(ss[i].value)
  {
    if i < |ss| - 1 { LastValueAt(ss[..|ss| - 1], name, i); }
  }

  /** A stored name has a first and a last place. */
  lemma {:induction false} SomePlaces(ss: seq<Stored>, name: Text)
    requires Stores(ss, name)
    ensures exists i: nat :: IsFirst(ss, name, i)
    ensures exists i: nat :: IsLast(ss, name, i)
  {
    var rest, last := ss[..|ss| - 1], |ss| - 1;
    if Stores(rest, name) {
      SomePlaces(rest, name);
      var i: nat :| IsFirst(rest, name, i);
      assert IsFirst(ss, name, i);
      var j: nat :| IsLast(rest, name, j);
      assert IsLast(ss, name, if ss[last].name == name then last else j);
    } else {
      assert forall j | 0 <= j < last :: rest[j] == ss[j];
      assert IsFirst(ss, name, last) && IsLast(ss, name, last);
    }
  }

  lemma {:induction false} NoValue(ss: seq<Stored>, name: Text)
    requires !Stores(ss, name)
    ensures FirstValue(ss, name) == [] && LastValue(ss, name).None?
  {
    if ss != [] {
      assert forall j | 0 <= j < |ss| - 1 :: ss[1..][j] == ss[j + 1] && ss[..|ss| - 1][j] == ss[j];
      NoValue(ss[1..], name);
      NoValue(ss[..|ss| - 1], name);
    }
  }

  /** CSearchDocument::ConstructL without a filter. */
  function Constructed(docId: Text, appClass: Text, excerpt: Text): seq<Field> {
    var fs := Added([], DOCUID, docId, ESTORE_YES + EINDEX_UNTOKENIZED);
    var gs := if appClass != [] then Added(fs, APPCLASS, appClass, ESTORE_YES + EINDEX_TOKENIZED) else fs;
    if excerpt != [] then Added(gs, EXCERPT, excerpt, ESTORE_YES + EINDEX_NO) else gs
  }

  function AddedAll(fs: seq<Field>, ss: seq<Stored>): seq<Field> {
    if ss == [] then fs else
    var gs := AddedAll(fs, ss[..|ss| - 1]);
    var s := ss[|ss| - 1];
    if IsSystem(s.name) then gs else Added(gs, s.name, s.value, ESTORE_YES + EINDEX_TOKENIZED)
  }

  function ConvertedFields(ss: seq<Stored>): seq<Field> {
    AddedAll(Constructed(FirstValue(ss, DOCUID), FirstValue(ss, APPCLASS), FirstValue(ss, EXCERPT)), ss)
  }

  lemma {:induction false} RemovedIsShorter(fs: seq<Field>, name: Text)
    ensures |Removed(fs, name)| <= |fs|
  {
    if fs != [] { RemovedIsShorter(fs[1..], name); }
  }

  lemma {:induction false} AddedAllLength(fs: seq<Field>, ss: seq<Stored>)
    ensures |AddedAll(fs, ss)| <= |fs| + |ss|
  {
    if ss != [] {
      AddedAllLength(fs, ss[..|ss| - 1]);
      RemovedIsShorter(AddedAll(fs, ss[..|ss| - 1]), ss[|ss| - 1].name);
    }
  }

  lemma ConstructedLength(docId: Text, appClass: Text, excerpt: Text)
    ensures |Constructed(docId, appClass, excerpt)| <= 3
  {
    var fs := Added([], DOCUID, docId, ESTORE_YES + EINDEX_UNTOKENIZED);
    RemovedIsShorter(fs, APPCLASS);
    RemovedIsShorter(Added(fs, APPCLASS, appClass, ESTORE_YES + EINDEX_TOKENIZED), EXCERPT);
    RemovedIsShorter(fs, EXCERPT);
  }

  function Converted(ss: Record): Document {
    ConstructedLength(FirstValue(ss, DOCUID), FirstValue(ss, APPCLASS), FirstValue(ss, EXCERPT));
    AddedAllLength(Constructed(FirstValue(ss, DOCUID), FirstValue(ss, APPCLASS), FirstValue(ss, EXCERPT)), ss);
    Document(KDEFAULT_BOOST, ConvertedFields(ss))
  }

  lemma {:induction false} AddedAllMeans(fs: seq<Field>, ss: seq<Stored>, n: Text)
    requires DistinctNames(fs)
    ensures DistinctNames(AddedAll(fs, ss))
    ensures Lookup(AddedAll(fs, ss), n) ==
      if IsSystem(n) || LastValue(ss, n).None? then Lookup(fs, n)
      else Some(Field(n, LastValue(ss, n).value, ESTORE_YES + EINDEX_TOKENIZED, KDEFAULT_BOOST))
  {
    if ss != [] {
      AddedAllMeans(fs, ss[..|ss| - 1], n);
      var s := ss[|ss| - 1];
      if !IsSystem(s.name) {
        AddingUpdates(AddedAll(fs, ss[..|ss| - 1]), s.name, s.value, ESTORE_YES + EINDEX_TOKENIZED, n);
      }
    }
  }

  lemma ConstructedMeans(docId: Text, appClass: Text, excerpt: Text, n: Text)
    ensures var fs := Constructed(docId, appClass, excerpt);
      && DistinctNames(fs)
      && Lookup(fs, n) ==
           if n == DOCUID then Some(Field(n, docId, ESTORE_YES + EINDEX_UNTOKENIZED, KDEFAULT_BOOST))
           else if n == APPCLASS && appClass != []
             then Some(Field(n, appClass, ESTORE_YES + EINDEX_TOKENIZED, KDEFAULT_BOOST))
           else if n == EXCERPT && excerpt != [] then Some(Field(n, excerpt, ESTORE_YES + EINDEX_NO, KDEFAULT_BOOST))
           else None
  {
    hide Added, Removed, Lookup;
    var fs := Added([], DOCUID, docId, ESTORE_YES + EINDEX_UNTOKENIZED);
    NothingThere(n);
    AddingUpdates([], DOCUID, docId, ESTORE_YES + EINDEX_UNTOKENIZED, n);
    AddingUpdates(fs, APPCLASS, appClass, ESTORE_YES + EINDEX_TOKENIZED, n);
    var gs := if appClass != [] then Added(fs, APPCLASS, appClass, ESTORE_YES + EINDEX_TOKENIZED) else fs;
    AddingUpdates(gs, EXCERPT, excerpt, ESTORE_YES + EINDEX_NO, n);
    assert |DOCUID| != |APPCLASS| && |APPCLASS| != |EXCERPT| && |DOCUID| != |EXCERPT|;
  }

  lemma NothingThere(n: Text)
    ensures DistinctNames([]) && Lookup([], n).None?
  {
  }

  /**
   What a converted document answers, with i the first place of the name among the stored fields, or
   the last one for a name that is not a system field: the system fields carry the first value
   stored, an empty class or excerpt is left out, any other field carries the last value stored, a
   name that is not stored is not there except for an empty document id, and no name occurs twice.
   All are stored, with boost 1; the document id is indexed as it is, the excerpt is not indexed, all else is tokenized.
  */
  lemma ConvertedMeans(ss: Record, n: Text, i: nat)
    ensures DistinctNames(Converted(ss).fields)
    ensures Stores(ss, n) ==> (exists j: nat :: IsFirst(ss, n, j)) && (exists j: nat :: IsLast(ss, n, j))
    ensures IsFirst(ss, n, i) && n == DOCUID ==>
      Lookup(Converted(ss).fields, n) == Some(Field(n, ss[i].value, 0x41, 0x3F80_0000))
    ensures IsFirst(ss, n, i) && n == APPCLASS && ss[i].value != [] ==>
      Lookup(Converted(ss).fields, n) == Some(Field(n, ss[i].value, 0x21, 0x3F80_0000))
    ensures IsFirst(ss, n, i) && n == EXCERPT && ss[i].value != [] ==>
      Lookup(Converted(ss).fields, n) == Some(Field(n, ss[i].value, 0x11, 0x3F80_0000))
    ensures IsFirst(ss, n, i) && (n == APPCLASS || n == EXCERPT) && ss[i].value == [] ==>
      Lookup(Converted(ss).fields, n).None?
    ensures IsLast(ss, n, i) && n != DOCUID && n != APPCLASS && n != EXCERPT ==>
      Lookup(Converted(ss).fields, n) == Some(Field(n, ss[i].value, 0x21, 0x3F80_0000))
    ensures !Stores(ss, n) ==>
      Lookup(Converted(ss).fields, n)
        == if n == DOCUID then Some(Field(n, [], 0x41, 0x3F80_0000)) else None
  {
    if IsFirst(ss, n, i) { FirstValueAt(ss, n, i); }
    if IsLast(ss, n, i) { LastValueAt(ss, n, i); }
    if Stores(ss, n) { SomePlaces(ss, n); } else { NoValue(ss, n); }
    assert IsFirst(ss, n, i) || IsLast(ss, n, i) ==> i < |ss|;
    hide IsFirst, IsLast, Stores;
    var docId, appClass, excerpt := FirstValue(ss, DOCUID), FirstValue(ss, APPCLASS), FirstValue(ss, EXCERPT);
    hide Added, Lookup, AddedAll, Constructed, DistinctNames, FirstValue, LastValue;
    ConstructedMeans(docId, appClass, excerpt, n);
    AddedAllMeans(Constructed(docId, appClass, excerpt), ss, n);
    assert |DOCUID| != |APPCLASS| && |APPCLASS| != |EXCERPT| && |DOCUID| != |EXCERPT|;
  }

  // ----- sizes and images of a list of documents -----

  function Sizes(ds: seq<Document>): (r: seq<int>)
    ensures |r| == |ds|
  {
    seq(|ds|, i requires 0 <= i < |ds| => DocSize(ds[i]))
  }

  function Sum(ns: seq<int>): int { if ns == [] then 0 else ns[0] + Sum(ns[1..]) }

  function Image(ds: seq<Document>): seq<Byte> { if ds == [] then [] else DocBytes(ds[0]) + Image(ds[1..]) }

  lemma ImageRest(ds: seq<Document>, k: nat)
    requires k <= |ds|
    ensures if k == |ds| then Image(ds[k..]) == [] else Image(ds[k..]) == DocBytes(ds[k]) + Image(ds[k + 1..])
  {
    if k < |ds| { assert ds[k..][1..] == ds[k + 1..]; }
  }

  lemma SizesRest(ds: seq<Document>)
    requires ds != []
    ensures Sizes(ds)[1..] == Sizes(ds[1..])
  {
  }

  /** The sizes are four too large for every document. */
  lemma {:induction false} ImageLength(ds: seq<Document>)
    ensures |Image(ds)| + 4 * |ds| == Sum(Sizes(ds))
  {
    if ds != [] {
      SerialisedLength(ds[0]);
      SizesRest(ds);
      ImageLength(ds[1..]);
    }
  }

  function Zeros(n: nat): seq<int> { seq(n, _ => 0) }

  lemma {:induction false} SumOfZeros(n: nat)
    ensures Sum(Zeros(n)) == 0
  {
    if n > 0 {
      assert Zeros(n)[1..] == Zeros(n - 1);
      SumOfZeros(n - 1);
    }
  }

  // ----- the server -----

  /** CCPixAbstractSearcher: one size list for all searches of all clients. */
  class SearcherStatics {
    var docSizeArray: seq<int>

    constructor ()
    {
      docSizeArray := [];
    }
  }

  class SubSession {
    const statics: SearcherStatics
    var idocList: seq<Document>

    constructor (statics: SearcherStatics)
      ensures this.statics == statics && idocList == []
    {
      this.statics, idocList := statics, [];
    }

    /** ConvertBatchDocumentL: a document whose pointer is NULL is skipped. */
    method ConvertBatchDocumentL(documents: seq<Option<Record>>)
      modifies this, statics
      ensures idocList == ConvertedList(documents) && statics.docSizeArray == Sizes(idocList)
    {
      statics.docSizeArray := [];
      var docArray: seq<Document> := [];
      var i := 0;
      while i < |documents|
        invariant i <= |documents| && docArray + ConvertedList(documents[i..]) == ConvertedList(documents)
        invariant statics.docSizeArray == Sizes(docArray)
      {
        assert documents[i..][1..] == documents[i + 1..];
        if documents[i].Some? {
          var document := Converted(documents[i].value);
          assert docArray + ([document] + ConvertedList(documents[i + 1..]))
            == docArray + [document] + ConvertedList(documents[i + 1..]);
          assert Sizes(docArray + [document]) == Sizes(docArray) + [DocSize(document)];
          statics.docSizeArray := statics.docSizeArray + [DocSize(document)];
          docArray := docArray + [document];
        }
        i := i + 1;
      }
      idocList := docArray;
    }

    /**
     GetBatchDocumentCompleteL: what is written into the zeroed size list of the client. None stands
     for the panic of indexing an empty array, and for the leave when the list is too short.
    */
    method GetBatchDocumentCompleteL(documents: seq<Option<Record>>, requested: nat)
      returns (sizeList: Option<seq<int>>)
      modifies this, statics
      ensures idocList == ConvertedList(documents) && statics.docSizeArray == Sizes(idocList)
      ensures sizeList.Some? <==> 0 < |idocList| <= requested
      ensures sizeList.Some? ==> sizeList.value == Sizes(idocList) + Zeros(requested - |idocList|)
    {
      ConvertBatchDocumentL(documents);
      var n := |statics.docSizeArray|;
      sizeList := if 0 < n <= requested then Some(statics.docSizeArray + Zeros(requested - n)) else None;
    }

    method TotalSize() returns (totalSize: int)
      ensures totalSize == Sum(statics.docSizeArray)
    {
      var ns := statics.docSizeArray;
      totalSize := 0;
      for i := 0 to |ns|
        invariant totalSize + Sum(ns[i..]) == Sum(ns)
      {
        assert ns[i..][1..] == ns[i + 1..];
        totalSize := totalSize + ns[i];
      }
    }

    /** The loop of GetBatchDocumentObjectL that writes the documents into one stream. */
    method ExternalizeAll(stream: WriteStream) returns (ok: bool)
      requires stream.Valid() && stream.bytes == []
      modifies stream
      ensures ok == (|Image(idocList)| <= stream.max) && (ok ==> stream.bytes == Image(idocList))
    {
      hide DocBytes, Image;
      ok := true;
      assert idocList[0..] == idocList;
      for i := 0 to |idocList|
        invariant ok && stream.Valid() && stream.bytes + Image(idocList[i..]) == Image(idocList)
      {
        ImageRest(idocList, i);
        assert |stream.bytes| + |DocBytes(idocList[i])| + |Image(idocList[i + 1..])| == |Image(idocList)|;
        ok := ExternalizeDocument(idocList[i], stream);
        if !ok { return; }
      }
      ImageRest(idocList, |idocList|);
      assert stream.bytes == Image(idocList);
    }

    /** GetBatchDocumentObjectL into a client buffer of the given size; None if it leaves. */
    method GetBatchDocumentObjectL(clientBuffer: int) returns (blob: Option<seq<Byte>>)
      requires Sum(statics.docSizeArray) >= -1
      ensures blob.Some? <==> |Image(idocList)| <= Sum(statics.docSizeArray) + 1 && |Image(idocList)| <= clientBuffer
      ensures blob.Some? ==> blob.value == Image(idocList)
    {
      var totalSize := TotalSize();
      var stream := new WriteStream(totalSize + 1);
      var ok := ExternalizeAll(stream);
      blob := if ok && |stream.bytes| <= clientBuffer then Some(stream.bytes) else None;
    }
  }

  /** ExternalizeL of one document of the list. */
  method ExternalizeDocument(d: Document, stream: WriteStream) returns (ok: bool)
    requires stream.Valid()
    modifies stream
    ensures Wrote(ok, stream, old(stream.bytes), DocBytes(d))
  {
    var document := new CSearchDocument();
    document.fields, document.boost := d.fields, d.boost;
    ok := document.ExternalizeL(stream);
  }

  function ConvertedList(documents: seq<Option<Record>>): seq<Document> {
    if documents == [] then []
    else (if documents[0].Some? then [Converted(documents[0].value)] else []) + ConvertedList(documents[1..])
  }

  /** Batches are converted document by document, in order, without those whose pointer is NULL. */
  lemma {:induction false} ConvertedInOrder(a: seq<Option<Record>>, b: seq<Option<Record>>, r: Record)
    ensures ConvertedList(a + b) == ConvertedList(a) + ConvertedList(b)
    ensures ConvertedList([Some(r)]) == [Converted(r)] && ConvertedList([None]) == [] && ConvertedList([]) == []
  {
    var none: seq<Option<Record>> := [None];
    assert [Some(r)][1..] == [] && none[1..] == [];
    if a == [] {
      assert a + b == b;
    } else {
      assert (a + b)[1..] == a[1..] + b;
      ConvertedInOrder(a[1..], b, r);
    }
  }

  // ----- the client -----

  lemma SizesThenZeros(ds: seq<Document>, n: nat, i: nat)
    requires i < |ds| + n
    ensures var list := Sizes(ds) + Zeros(n); (list[i] != 0 <==> i < |ds|) && (i < |ds| ==> list[i] == DocSize(ds[i]))
  {
    if i < |ds| { SerialisedLength(ds[i]); }
  }

  /** The first loop of GetBatchDocumentObjectL: the leading sizes that are not zero, and their sum. */
  method CountSizes(sizeList: seq<int>, ghost ds: seq<Document>) returns (count: nat, total: int)
    requires |ds| <= |sizeList| && sizeList == Sizes(ds) + Zeros(|sizeList| - |ds|)
    ensures count == |ds| && total == Sum(Sizes(ds))
  {
    count, total := 0, 0;
    while count < |sizeList| && sizeList[count] != 0
      invariant count <= |ds| && total + Sum(Sizes(ds[count..])) == Sum(Sizes(ds))
    {
      SizesThenZeros(ds, |sizeList| - |ds|, count);
      SizesRest(ds[count..]);
      assert ds[count..][1..] == ds[count + 1..];
      total := total + sizeList[count];
      count := count + 1;
    }
    if count < |ds| { SizesThenZeros(ds, |sizeList| - |ds|, count); }
  }

  /** One turn of the second loop: the piece of the blob at startpos, and the document read from it. */
  method ReadPiece(blob: seq<Byte>, startpos: nat, size: int, ghost d: Document, ghost tail: seq<Byte>)
    returns (document: Document)
    requires startpos <= |blob| && blob[startpos..] == DocBytes(d) + tail && size == DocSize(d)
    ensures document == d && size >= 4 && startpos + size - 4 <= |blob| && blob[startpos + size - 4..] == tail
  {
    SerialisedLength(d);
    hide DocBytes, DocSize, ReadDoc;
    var piece := blob[startpos..startpos + size - 4];
    assert piece == blob[startpos..][..size - 4] == DocBytes(d) + [];
    assert blob[startpos + size - 4..] == blob[startpos..][size - 4..];
    DocumentRoundTrip(d, []);
    var stream := new ReadStream(piece);
    document := ReadDoc(stream.bytes).value;
  }

  /** The second loop: cuts the blob by the sizes less four and reads a document from each piece. */
  method CutBlob(sizeList: seq<int>, count: nat, blob: seq<Byte>, ghost ds: seq<Document>) returns (docs: seq<Document>)
    requires count == |ds| <= |sizeList| && sizeList[..count] == Sizes(ds) && blob == Image(ds)
    ensures docs == ds
  {
    hide DocBytes, Image, DocSize;
    docs := [];
    var startpos := 0;
    assert ds[0..] == ds;
    for k := 0 to count
      invariant 0 <= startpos <= |blob| && blob[startpos..] == Image(ds[k..]) && docs == ds[..k]
    {
      ImageRest(ds, k);
      assert sizeList[k] == sizeList[..count][k];
      var document := ReadPiece(blob, startpos, sizeList[k], ds[k], Image(ds[k + 1..]));
      docs := docs + [document];
      startpos := startpos + sizeList[k] - 4;
    }
  }

  /**
   GetBatchDocumentObjectL of the client, with the size list of its own batch. It gets exactly
   the documents of that batch if and only if the images still fit into the buffer the server
   allocates from the static array, which another batch may have replaced in between.
  */
  method GetBatchDocuments(sizeList: seq<int>, server: SubSession) returns (docs: Option<seq<Document>>)
    requires |server.idocList| <= |sizeList| && Sum(server.statics.docSizeArray) >= -1
    requires sizeList == Sizes(server.idocList) + Zeros(|sizeList| - |server.idocList|)
    ensures docs.Some? <==> server.idocList == [] || |Image(server.idocList)| <= Sum(server.statics.docSizeArray) + 1
    ensures docs.Some? ==> docs.value == server.idocList
  {
    ghost var ds := server.idocList;
    var count, total := CountSizes(sizeList, ds);
    if count == 0 { return Some([]); }
    ImageLength(ds);
    var blob := server.GetBatchDocumentObjectL(total + 2);
    if blob.None? { return None; }
    assert sizeList[..count] == Sizes(ds);
    var cut := CutBlob(sizeList, count, blob.value, ds);
    docs := Some(cut);
  }

  /** Undisturbed, both buffers suffice. */
  lemma BuffersSuffice(ds: seq<Document>)
    ensures |Image(ds)| <= Sum(Sizes(ds)) + 1 && |Image(ds)| <= Sum(Sizes(ds)) + 2
  {
    ImageLength(ds);
  }

  /** The sizes of other documents leave four bytes for each of them, and one, to spare. */
  lemma {:induction false} FitsAfterOtherBatchIff(ds: seq<Document>, others: seq<Document>)
    ensures |Image(ds)| <= Sum(Sizes(others)) + 1 <==> |Image(ds)| <= |Image(others)| + 4 * |others| + 1
  {
    ImageLength(others);
  }

  /** Undisturbed, the client gets its batch, unless it is empty or longer than was asked for. */
  method Transfer(mine: SubSession, documents: seq<Option<Record>>, requested: nat)
    returns (docs: Option<seq<Document>>)
    modifies mine, mine.statics
    ensures docs.Some? <==> 0 < |ConvertedList(documents)| <= requested
    ensures docs.Some? ==> docs.value == ConvertedList(documents)
  {
    var sizeList := mine.GetBatchDocumentCompleteL(documents, requested);
    if sizeList.None? { return None; }
    ImageLength(mine.idocList);
    BuffersSuffice(mine.idocList);
    docs := GetBatchDocuments(sizeList.value, mine);
  }

  /**
   Another client's batch comes between the two calls of the transfer and replaces the static sizes.
   The transfer then works if and only if the images of this batch are at most as long as those of
   the other one, with four bytes for each of the other documents and one more to spare.
  */
  method TransferAfterOther(mine: SubSession, documents: seq<Option<Record>>, requested: nat,
                            other: SubSession, otherDocuments: seq<Option<Record>>, otherRequested: nat)
    returns (docs: Option<seq<Document>>)
    requires mine != other && mine.statics == other.statics
    modifies mine, other, mine.statics
    ensures var ds, others := ConvertedList(documents), ConvertedList(otherDocuments);
      docs.Some? <==> 0 < |ds| <= requested && |Image(ds)| <= |Image(others)| + 4 * |others| + 1
    ensures docs.Some? ==> docs.value == ConvertedList(documents)
  {
    var sizeList := mine.GetBatchDocumentCompleteL(documents, requested);
    if sizeList.None? { return None; }
    var _ := other.GetBatchDocumentCompleteL(otherDocuments, otherRequested);
    ImageLength(other.idocList);
    FitsAfterOtherBatchIff(mine.idocList, other.idocList);
    docs := GetBatchDocuments(sizeList.value, mine);
  }
}
