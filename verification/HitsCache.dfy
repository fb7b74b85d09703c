/**
 The page cache over a ranked list of hits (cpixhits.cpp, documentconsumer.cpp). Documents of
 the list are wrapped a page at a time; a wrapper is an object the cache owns, named here by the
 number it got when it was made, so that `freed` records the order of the deletes.
*/
module HitsCache {
  import opened Options
  import Errors = ErrorPool

  /** What hits->doc(i) does: returns a document, or throws CL_ERR_DeletedDocument, or throws anything else. */
  datatype Hit = Readable(doc: nat) | Deleted | Broken

  datatype Entry = Entry(index: int, doc: nat, id: nat)

  function HitAt(hits: seq<Hit>, i: int): Hit { if 0 <= i < |hits| then hits[i] else Broken }

  function Min(a: int, b: int): int { if a <= b then a else b }

  // ----- the plain meaning of a page -----

  /** Where fetching from b stops: at the first document that cannot be read and was not deleted, or at e. */
  function Stop(hits: seq<Hit>, b: int, e: int): (r: int)
    decreases e - b
    ensures b <= e ==> b <= r <= e
  {
    if b >= e || HitAt(hits, b).Broken? then b else Stop(hits, b + 1, e)
  }

  predicate AllReadable(hits: seq<Hit>, b: int, e: int) { forall i | b <= i < e :: HitAt(hits, i).Readable? }

  function ReadableIn(hits: seq<Hit>, b: int, e: int): set<int> {
    set i | b <= i < e && HitAt(hits, i).Readable?
  }

  /** Where a page fetched from b ends. */
  function Limit(hits: seq<Hit>, size: nat, b: int): int { Stop(hits, b, Min(b + size, |hits|)) }

  /** What a page fetched from b holds. */
  function Page(hits: seq<Hit>, size: nat, b: int): set<int> { ReadableIn(hits, b, Limit(hits, size, b)) }

  lemma {:induction false} StopIsFirst(hits: seq<Hit>, b: int, e: int)
    requires b <= e
    ensures forall i | b <= i < Stop(hits, b, e) :: !HitAt(hits, i).Broken?
    ensures Stop(hits, b, e) < e ==> HitAt(hits, Stop(hits, b, e)).Broken?
    decreases e - b
  {
    if b < e && !HitAt(hits, b).Broken? { StopIsFirst(hits, b + 1, e); }
  }

  /** Starting later, with a limit no smaller, stops no sooner. */
  lemma StopLater(hits: seq<Hit>, b: int, e: int, c: int, f: int)
    requires b <= c <= Stop(hits, b, e) && b <= e <= f
    ensures Stop(hits, b, e) <= Stop(hits, c, f)
  {
    StopIsFirst(hits, b, e);
    StopIsFirst(hits, c, f);
  }

  /** Any hit of a page is followed, in that page, by nothing that a page fetched from it would not hold. */
  lemma PagesOverlap(hits: seq<Hit>, size: nat, b: int, c: int)
    requires c in Page(hits, size, b)
    ensures forall i | i in Page(hits, size, b) && i >= c :: i in Page(hits, size, c)
  {
    StopLater(hits, b, Min(b + size, |hits|), c, Min(c + size, |hits|));
  }

  // ----- the wrapper map, in key order -----

  predicate Sorted(es: seq<Entry>) { forall i, j | 0 <= i < j < |es| :: es[i].index < es[j].index }

  function Keys(es: seq<Entry>): set<int> { set e | e in es :: e.index }

  function Ids(es: seq<Entry>): (r: seq<nat>)
    ensures |r| == |es| && forall i | 0 <= i < |es| :: r[i] == es[i].id
  {
    seq(|es|, i requires 0 <= i < |es| => es[i].id)
  }

  lemma IdsNext(es: seq<Entry>, i: nat)
    requires i < |es|
    ensures Ids(es[..i + 1]) == Ids(es[..i]) + [es[i].id]
  {
  }

  /** std::map::find: the place of the key, or the end. */
  function Find(es: seq<Entry>, index: int): (r: nat)
    ensures r <= |es|
    ensures forall i | 0 <= i < r :: es[i].index != index
    ensures r < |es| ==> es[r].index == index
  {
    if es == [] || es[0].index == index then 0 else 1 + Find(es[1..], index)
  }

  /** The place before which a new key belongs. */
  function Place(es: seq<Entry>, index: int): (r: nat)
    ensures r <= |es|
    ensures forall i | 0 <= i < r :: es[i].index < index
    ensures r < |es| ==> es[r].index >= index
  {
    if es == [] || es[0].index >= index then 0 else 1 + Place(es[1..], index)
  }

  lemma FoundIff(es: seq<Entry>, index: int)
    ensures Find(es, index) < |es| <==> index in Keys(es)
  {
    if index in Keys(es) {
      var e :| e in es && e.index == index;
    }
    if Find(es, index) < |es| { assert es[Find(es, index)] in es; }
  }

  /** Each wrapper made so far is in the map once or was freed once, never both. */
  ghost predicate Owned(es: seq<Entry>, freed: seq<nat>, made: nat) {
    forall id: nat :: multiset(Ids(es))[id] + multiset(freed)[id] == if id < made then 1 else 0
  }

  lemma FreeingKeepsOwned(es: seq<Entry>, freed: seq<nat>, made: nat, k: nat)
    requires Owned(es, freed, made) && k <= |es|
    ensures Owned(es[k..], freed + Ids(es[..k]), made)
  {
    assert Ids(es) == Ids(es[..k]) + Ids(es[k..]);
  }

  lemma MakingKeepsOwned(es: seq<Entry>, freed: seq<nat>, made: nat, k: nat, e: Entry)
    requires Owned(es, freed, made) && k <= |es| && e.id == made
    ensures Owned(es[..k] + [e] + es[k..], freed, made + 1)
  {
    assert Ids(es) == Ids(es[..k]) + Ids(es[k..]);
    assert Ids(es[..k] + [e] + es[k..]) == Ids(es[..k]) + [made] + Ids(es[k..]);
  }

  lemma OwnedAreMade(es: seq<Entry>, freed: seq<nat>, made: nat)
    requires Owned(es, freed, made)
    ensures forall e | e in es :: e.id < made
  {
    forall e | e in es ensures e.id < made {
      var i :| 0 <= i < |es| && es[i] == e;
      assert Ids(es)[i] == e.id;
      assert multiset(Ids(es))[e.id] > 0;
    }
  }

  /** The keys from the given one on, if that one is there. */
  function From(ks: set<int>, index: int): set<int> { set k | k in ks && index in ks && k >= index }

  /** What destroyWrappers leaves. */
  function Rest(es: seq<Entry>, index: int): seq<Entry> { if index == -1 then [] else es[Find(es, index)..] }

  lemma TailIsSorted(es: seq<Entry>, k: nat)
    requires Sorted(es) && k <= |es|
    ensures Sorted(es[k..]) && forall e | e in es[k..] :: e in es
  {
  }

  lemma KeysOfRest(es: seq<Entry>, index: int)
    requires Sorted(es) && -1 !in Keys(es)
    ensures Keys(Rest(es, index)) == From(Keys(es), index)
  {
    FoundIff(es, index);
    var f := Find(es, index);
    assert index == -1 ==> f == |es|;
    forall k | k in From(Keys(es), index) ensures k in Keys(es[f..]) {
      var i :| 0 <= i < |es| && es[i].index == k;
      assert i >= f;
      assert es[f..][i - f] == es[i];
    }
  }

  function Inserted(es: seq<Entry>, e: Entry): seq<Entry> {
    es[..Place(es, e.index)] + [e] + es[Place(es, e.index)..]
  }

  lemma MembersOfInserted(es: seq<Entry>, e: Entry)
    ensures forall x :: x in Inserted(es, e) <==> x in es || x == e
    ensures Keys(Inserted(es, e)) == Keys(es) + {e.index}
  {
    var k := Place(es, e.index);
    assert es == es[..k] + es[k..];
    forall x ensures x in Inserted(es, e) <==> x in es || x == e {
      assert x in es <==> x in es[..k] || x in es[k..];
    }
  }

  lemma InsertedIsSorted(es: seq<Entry>, e: Entry)
    requires Sorted(es) && e.index !in Keys(es)
    ensures Sorted(Inserted(es, e))
  {
    var k := Place(es, e.index);
    if k < |es| { assert es[k] in es; }
  }

  lemma ReadableNext(hits: seq<Hit>, b: int, e: int)
    requires b <= e
    ensures ReadableIn(hits, b, e + 1) == ReadableIn(hits, b, e) + if HitAt(hits, e).Readable? then {e} else {}
  {
  }

  lemma NothingKept(es: seq<Entry>, index: int)
    ensures index !in Keys(es) ==> Rest(es, index) == []
  {
    FoundIff(es, index);
  }

  lemma ReadableNone(hits: seq<Hit>, b: int)
    ensures ReadableIn(hits, b, b) == {}
  {
  }

  /** The i-th document asked for, when the call has come as far as n: it is there, and its wrapper is alive. */
  ghost predicate Delivered(hits: seq<Hit>, es: seq<Entry>, made: nat, r: Option<Entry>, index: int, i: nat, n: nat) {
    && (r.Some? <==> i < n && HitAt(hits, index + i).Readable?)
    && (r.Some? ==> HitAt(hits, index + i) == Readable(r.value.doc) && r.value.index == index + i && r.value.id < made)
    && (r.Some? ==> (r.value in es <==> AllReadable(hits, index + i + 1, index + n)))
  }

  lemma DeliveredNext(hits: seq<Hit>, es: seq<Entry>, made: nat, es': seq<Entry>, made': nat, r: Option<Entry>,
      index: int, j: nat, i: nat)
    requires Delivered(hits, es, made, r, index, j, i) && j != i && made <= made'
    requires HitAt(hits, index + i).Readable? ==> es' == es
    requires !HitAt(hits, index + i).Readable? ==> forall e | e in es' :: e.id >= made
    ensures Delivered(hits, es', made', r, index, j, i + 1)
  {
    if j < i {
      var b := index + j + 1;
      assert AllReadable(hits, b, index + i + 1)
        <==> AllReadable(hits, b, index + i) && HitAt(hits, index + i).Readable?;
    }
  }

  predicate AllPresent(target: seq<Option<Entry>>, es: seq<Entry>) {
    forall i | 0 <= i < |target| :: target[i].Some? && target[i].value in es
  }

  /** All documents asked for are there, with live wrappers, if and only if all these hits can be read. */
  lemma PresentIff(hits: seq<Hit>, es: seq<Entry>, made: nat, target: seq<Option<Entry>>, index: int, n: nat)
    requires n <= |target| && forall i | 0 <= i < |target| :: Delivered(hits, es, made, target[i], index, i, n)
    ensures AllPresent(target[..n], es) <==> AllReadable(hits, index, index + n)
  {
    if AllPresent(target[..n], es) {
      forall i | index <= i < index + n ensures HitAt(hits, i).Readable? {
        assert target[..n][i - index].Some?;
        assert Delivered(hits, es, made, target[i - index], index, i - index, n);
      }
    }
  }

  /** resetDocumentCache: the size of the map, an exception, or undefined behaviour. */
  datatype Reset = Size(size: nat) | Throws | Undefined

  /** cpix_Hits_doc: the error left in the hits object and the number of documents asked for, or undefined behaviour. */
  datatype Called = Returned(err: Option<Errors.Ref>, n: nat) | Lost

  // ----- errors -----

  const ET_CPIX_EXC := 0x0200
  const FAILED_TO_FETCH := "Failed to fetch doc"   // the number of the document and the reason are left out

  function Held(err: Option<Errors.Ref>): set<Errors.Ref> { if err.Some? then {err.value} else {} }

  /** How many of these hits cannot be read. */
  function Unreadable(hits: seq<Hit>, b: int, e: int): nat
    decreases e - b
  {
    if e <= b then 0 else Unreadable(hits, b, e - 1) + (if HitAt(hits, e - 1).Readable? then 0 else 1)
  }

  lemma {:induction false} UnreadableIff(hits: seq<Hit>, b: int, e: int)
    ensures Unreadable(hits, b, e) == 0 <==> AllReadable(hits, b, e)
    decreases e - b
  {
    if b < e { UnreadableIff(hits, b, e - 1); }
  }

  /** The pool items taken into use that are no longer the error of the call: nobody knows them any more. */
  function Leaked(before: set<Errors.Ref>, after: set<Errors.Ref>, err: Option<Errors.Ref>): set<Errors.Ref> {
    after - before - Held(err)
  }

  /** Since the call began, `count` errors were made, of which the last is held unless a call has succeeded since. */
  ghost predicate Reported(before: Errors.Pool, p: Errors.Pool, err: Option<Errors.Ref>, count: nat) {
    && Errors.Proper(p) && before.used <= p.used && |p.used| == |before.used| + count
    && Held(err) <= p.used - before.used
  }

  lemma LeakedCount(before: Errors.Pool, p: Errors.Pool, err: Option<Errors.Ref>, count: nat)
    requires Reported(before, p, err, count)
    ensures |Leaked(before.used, p.used, err)| + |Held(err)| == count
  {
    assert p.used == before.used + Held(err) + Leaked(before.used, p.used, err);
  }

  // ----- what a call does, told from where the last page was fetched -----

  function Lowest(hits: seq<Hit>, b: int, e: int): int
    decreases e - b
  {
    if b >= e || HitAt(hits, b).Readable? then b else Lowest(hits, b + 1, e)
  }

  /** The first key of a page. */
  function First(hits: seq<Hit>, size: nat, b: int): int { Lowest(hits, b, Limit(hits, size, b)) }

  /** The test by which resetDocumentCache skips the fetch. */
  predicate Covered(hits: seq<Hit>, size: nat, b: int, index: int, count: nat) {
    First(hits, size, b) <= index && index + count <= First(hits, size, b) + |Page(hits, size, b)|
  }

  /** How many documents cpix_Hits_doc asks the cache for. */
  function Attempts(hits: seq<Hit>, size: nat, b: int, index: int, count: nat): nat {
    if Covered(hits, size, b, index, count) then count
    else if HitAt(hits, index).Readable? then Min(count, |Page(hits, size, index)|)
    else 0
  }

  function AfterReset(hits: seq<Hit>, size: nat, b: int, index: int, count: nat): int {
    if Covered(hits, size, b, index, count) then b else index
  }

  function AfterGet(hits: seq<Hit>, size: nat, b: int, index: int): int {
    if index in Page(hits, size, b) then b else index
  }

  function AfterGets(hits: seq<Hit>, size: nat, b: int, index: int, n: nat): int
    decreases n
  {
    if n == 0 then b else AfterGets(hits, size, AfterGet(hits, size, b, index), index + 1, n - 1)
  }

  /** One request of a client to cpix_Hits_doc. */
  datatype Call = Call(index: int, count: nat)

  function AfterCall(hits: seq<Hit>, size: nat, b: int, c: Call): int {
    AfterGets(hits, size, AfterReset(hits, size, b, c.index, c.count), c.index,
      Attempts(hits, size, b, c.index, c.count))
  }

  class LuceneHits {
    const hits: seq<Hit>
    const pageSize: nat
    var wrappers: seq<Entry>
    var made: nat
    var freed: seq<nat>
    ghost var loaded: int   // the index the last page was fetched for

    /** The representation: keys in order, each wrapper owned once, each entry the hit at its index. */
    ghost predicate Shape()
      reads this
    {
      && pageSize > 0
      && Sorted(wrappers) && Owned(wrappers, freed, made)
      && (forall e | e in wrappers :: HitAt(hits, e.index) == Readable(e.doc))
    }

    /** The cache is exactly one page of the plain list. */
    ghost predicate Valid()
      reads this
    {
      Shape() && Keys(wrappers) == Page(hits, pageSize, loaded)
    }

    constructor (hits: seq<Hit>, pageSize: nat)
      requires pageSize > 0
      ensures Valid() && this.hits == hits && this.pageSize == pageSize && wrappers == [] && loaded == |hits|
    {
      this.hits, this.pageSize := hits, pageSize;
      wrappers, made, freed, loaded := [], 0, [], |hits|;
      new;
      assert Page(hits, pageSize, |hits|) == {};
    }

    /** The whole constructor of the source: it fetches the first page, and throws if that throws. */
    static method Open(hits: seq<Hit>, pageSize: nat) returns (r: Option<LuceneHits>)
      requires pageSize > 0
      ensures r.Some? <==> hits == [] || hits[0].Readable?
      ensures r.Some? ==> fresh(r.value) && r.value.Valid() && r.value.hits == hits && r.value.pageSize == pageSize
      ensures r.Some? ==> r.value.loaded == 0 && (r.value.wrappers == [] <==> hits == [])
    {
      var h := new LuceneHits(hits, pageSize);
      if |hits| > 0 {
        var ok := h.GetDocument_(0);
        if !ok { return None; }
      }
      r := Some(h);
    }

    /** Whether the map is empty is known from where the last page was fetched. */
    lemma EmptyIff()
      requires Valid()
      ensures wrappers == [] <==> Page(hits, pageSize, loaded) == {}
    {
      if wrappers != [] { assert wrappers[0] in wrappers && wrappers[0].index in Keys(wrappers); }
    }

    /** Deletes all wrappers, or those before the given key; a key that is not there means all. */
    method DestroyWrappers(index: int)
      requires Shape()
      modifies this`wrappers, this`freed
      ensures Shape()
      ensures wrappers == Rest(old(wrappers), index)
      ensures freed == old(freed) + Ids(old(wrappers)[..|old(wrappers)| - |wrappers|])
    {
      ghost var es := wrappers;
      var end := if index == -1 then |wrappers| else Find(wrappers, index);
      assert Ids(es[..0]) == [];
      hide Owned, Ids, Sorted, Find, HitAt;
      var i := 0;
      while i != end
        invariant i <= end && wrappers == es && freed == old(freed) + Ids(es[..i])
        decreases end - i
      {
        freed := freed + [wrappers[i].id];
        IdsNext(es, i);
        i := i + 1;
      }
      FreeingKeepsOwned(es, old(freed), made, end);
      TailIsSorted(es, end);
      wrappers := wrappers[end..];
      assert |es| - |wrappers| == end;
    }

    /** Wraps a document, unless its index is wrapped already. */
    method WrapDocument(index: int, doc: nat)
      requires Shape() && HitAt(hits, index) == Readable(doc)
      modifies this`wrappers, this`made
      ensures Shape() && Keys(wrappers) == Keys(old(wrappers)) + {index}
      ensures index in Keys(old(wrappers)) ==> wrappers == old(wrappers) && made == old(made)
      ensures forall e | e in wrappers :: e in old(wrappers) || (e.id == old(made) && e.index == index)
      ensures made >= old(made)
    {
      FoundIff(wrappers, index);
      if Find(wrappers, index) == |wrappers| {
        var e := Entry(index, doc, made);
        MakingKeepsOwned(wrappers, freed, made, Place(wrappers, index), e);
        MembersOfInserted(wrappers, e);
        InsertedIsSorted(wrappers, e);
        wrappers, made := Inserted(wrappers, e), made + 1;
      }
    }

    /** One turn of that loop: useDocument or failedDocument. */
    method Consume(idx: int) returns (goOn: bool)
      requires Shape()
      modifies this`wrappers, this`made
      ensures Shape() && made >= old(made)
      ensures Keys(wrappers) == Keys(old(wrappers)) + if HitAt(hits, idx).Readable? then {idx} else {}
      ensures goOn == !HitAt(hits, idx).Broken?
      ensures forall e | e in wrappers :: e in old(wrappers) || e.id >= old(made)
    {
      match HitAt(hits, idx) {
        case Readable(doc) => WrapDocument(idx, doc); goOn := true;
        case Deleted => goOn := true;
        case Broken => goOn := false;
      }
    }

    /** DocumentConsumer::fetchDocuments: stops at the first failure other than a deleted document. */
    method FetchDocuments(begin: int, end: int)
      requires Shape()
      modifies this`wrappers, this`made
      ensures Shape()
      ensures Keys(wrappers) == Keys(old(wrappers)) + ReadableIn(hits, begin, Stop(hits, begin, end))
      ensures made >= old(made)
      ensures forall e | e in wrappers :: e in old(wrappers) || e.id >= old(made)
    {
      hide ReadableIn, Shape, Keys, HitAt;
      ReadableNone(hits, begin);
      var idx, goOn := begin, true;
      while goOn && idx < end
        invariant Shape() && made >= old(made)
        invariant idx > begin ==> idx <= end
        invariant goOn ==> Stop(hits, begin, end) == Stop(hits, idx, end)
        invariant !goOn ==> Stop(hits, begin, end) == idx - 1
        invariant idx >= begin
        invariant Keys(wrappers) == Keys(old(wrappers)) + ReadableIn(hits, begin, if goOn then idx else idx - 1)
        invariant forall e | e in wrappers :: e in old(wrappers) || e.id >= old(made)
        decreases end - idx
      {
        ReadableNext(hits, begin, idx);
        goOn := Consume(idx);
        idx := idx + 1;
      }
    }

    /** LuceneHits::getDocument_: drops what precedes the index and fetches a page from it. */
    method GetDocument_(index: int) returns (ok: bool)
      requires Valid()
      modifies this
      ensures Valid() && loaded == index
      ensures ok == HitAt(hits, index).Readable? && made >= old(made)
      ensures wrappers == [] <==> Page(hits, pageSize, index) == {}
      ensures index !in Keys(old(wrappers)) ==> forall e | e in wrappers :: e.id >= old(made)
    {
      NothingKept(wrappers, index);
      KeysOfRest(wrappers, index);
      hide ReadableIn, Page, Keys, HitAt, From, Find, Rest, Owned, Sorted, Ids;
      BeyondTheEnd(index);
      DestroyWrappers(index);
      loaded := index;
      if index >= |hits| {
        EmptyIff();
        return false;
      }
      KeptIsInPage(index, old(loaded));
      ok := FetchPage(index);
      EmptyIff();
    }

    /** setPageBoundaryForIndex for a valid index, the fetch, and the check that the document has arrived. */
    method FetchPage(index: int) returns (ok: bool)
      requires Shape() && index < |hits| && Keys(wrappers) <= Page(hits, pageSize, index)
      modifies this
      ensures Valid() && loaded == index && made >= old(made)
      ensures ok == HitAt(hits, index).Readable?
      ensures forall e | e in wrappers :: e in old(wrappers) || e.id >= old(made)
    {
      loaded := index;
      KeptIsInPage(index, index);
      FetchDocuments(index, Min(|hits|, index + pageSize));
      FoundIff(wrappers, index);
      hide ReadableIn, Page, Keys, HitAt, Find, Owned, Sorted;
      ok := Find(wrappers, index) != |wrappers|;
    }

    lemma BeyondTheEnd(index: int)
      requires Valid()
      ensures index >= |hits| ==> Page(hits, pageSize, index) == {} && From(Keys(wrappers), index) == {}
      ensures HitAt(hits, index).Readable? ==> index < |hits|
    {
    }

    /** The wrappers kept from the page of b belong to the page fetched from index. */
    lemma KeptIsInPage(index: int, b: int)
      requires index < |hits| && pageSize > 0
      ensures From(Page(hits, pageSize, b), index) <= Page(hits, pageSize, index)
      ensures Page(hits, pageSize, index) == ReadableIn(hits, index, Stop(hits, index, Min(|hits|, index + pageSize)))
      ensures index in Page(hits, pageSize, index) <==> HitAt(hits, index).Readable?
    {
      if index in Page(hits, pageSize, b) { PagesOverlap(hits, pageSize, b, index); }
    }

    /** What the client gets: the hit at the index, wherever the cache stands. */
    method GetDocument(index: int) returns (r: Option<Entry>)
      requires Valid()
      modifies this
      ensures Valid()
      ensures made >= old(made)
      ensures r.Some? <==> HitAt(hits, index).Readable?
      ensures r.Some? ==> r.value in wrappers && r.value.index == index && HitAt(hits, index) == Readable(r.value.doc)
      ensures loaded == AfterGet(hits, pageSize, old(loaded), index)
      ensures index in Keys(old(wrappers)) ==> wrappers == old(wrappers) && freed == old(freed) && made == old(made)
      ensures index !in Keys(old(wrappers)) ==> forall e | e in wrappers :: e.id >= old(made)
    {
      FoundIff(wrappers, index);
      if Find(wrappers, index) == |wrappers| {
        var ok := GetDocument_(index);
        if !ok { return None; }
        FoundIff(wrappers, index);
      }
      r := Some(wrappers[Find(wrappers, index)]);
    }

    /**
     Makes sure that the requested documents are cached; the number of cached documents, unless it
     throws. It reads the first key of the map without looking whether there is one.
    */
    method ResetDocumentCache(index: int, count: nat) returns (r: Reset)
      requires Valid()
      modifies this
      ensures Valid()
      ensures r.Undefined? <==> old(wrappers) == []
      ensures r.Undefined? || Covered(hits, pageSize, old(loaded), index, count) ==>
        wrappers == old(wrappers) && loaded == old(loaded) && freed == old(freed) && made == old(made)
      ensures !r.Undefined? ==> loaded == AfterReset(hits, pageSize, old(loaded), index, count)
      ensures !r.Undefined? ==>
        r == if Covered(hits, pageSize, old(loaded), index, count) || HitAt(hits, index).Readable?
          then Size(|wrappers|) else Throws
    {
      if wrappers == [] { return Undefined; }
      KeysOfPage();
      var reqCount := index + count;
      var i := wrappers[0].index + |wrappers|;
      if i < reqCount || index < wrappers[0].index {
        var ok := GetDocument_(index);
        if !ok { return Throws; }
      }
      r := Size(|wrappers|);
    }

    /** What resetDocumentCache reads of the map is known from where the last page was fetched. */
    lemma KeysOfPage()
      requires Valid()
      ensures |wrappers| == |Page(hits, pageSize, loaded)|
      ensures wrappers != [] ==> wrappers[0].index == First(hits, pageSize, loaded)
    {
      AsManyKeys(wrappers);
      if wrappers != [] {
        assert wrappers[0] in wrappers && wrappers[0].index in Keys(wrappers);
        FirstOfPage(hits, pageSize, loaded);
        var e :| e in wrappers && e.index == First(hits, pageSize, loaded);
      }
    }

    /** All requested documents lie within the page last fetched, and nothing read so far was lost. */
    ghost predicate InReach(index: int, n: nat)
      reads this
    {
      loaded <= index && index + n <= Limit(hits, pageSize, loaded)
    }

    lemma WithinReach(index: int, n: nat)
      requires Valid() && InReach(index, n) && n > 0
      ensures index in Keys(wrappers) <==> HitAt(hits, index).Readable?
      ensures index + n <= Limit(hits, pageSize, index)
    {
      StopLater(hits, loaded, Min(loaded + pageSize, |hits|), index, Min(index + pageSize, |hits|));
    }

    /**
     XlateExc in the slave thread: the error of the hits object is set to NULL, without being
     released, and if the call threw to a new one from the pool.
    */
    method XlateExc(threw: bool, pool: Errors.ErrorInfoPool, ghost before: Errors.Pool,
        ghost err: Option<Errors.Ref>, ghost count: nat)
      returns (err': Option<Errors.Ref>)
      requires Reported(before, pool.View(), err, count)
      modifies pool
      ensures Reported(before, pool.View(), err', count + if threw then 1 else 0) && err'.Some? == threw
    {
      err' := None;
      if threw {
        Errors.SlaveErrorsArePrivate(pool.View(), ET_CPIX_EXC, Some(FAILED_TO_FETCH));
        var r := pool.CreateError(true, ET_CPIX_EXC, Some(FAILED_TO_FETCH));
        err' := Some(r);
      }
    }

    /** One turn of the loop of cpix_Hits_doc. */
    method DeliverOne(index: int, i: nat, ghost n: nat, target: array<Option<Entry>>) returns (failed: bool)
      requires Valid() && i < n <= target.Length && InReach(index + i, n - i)
      requires forall j | 0 <= j < target.Length :: Delivered(hits, wrappers, made, target[j], index, j, i)
      modifies this, target
      ensures Valid() && InReach(index + i + 1, n - i - 1) && loaded == AfterGet(hits, pageSize, old(loaded), index + i)
      ensures forall j | 0 <= j < target.Length :: Delivered(hits, wrappers, made, target[j], index, j, i + 1)
      ensures failed == !HitAt(hits, index + i).Readable?
    {
      ghost var es, m := wrappers, made;
      WithinReach(index + i, n - i);
      OwnedAreMade(wrappers, freed, made);
      var doc := GetDocument(index + i);
      forall j | 0 <= j < target.Length && j != i ensures Delivered(hits, wrappers, made, target[j], index, j, i + 1) {
        DeliveredNext(hits, es, m, wrappers, made, target[j], index, j, i);
      }
      failed := doc.None?;
      if !failed { target[i] := doc; }
    }

    /** The first call of cpix_Hits_doc, and the number of turns its loop takes. */
    method Prepare(index: int, count: nat) returns (failed: bool, turns: nat)
      requires Valid() && wrappers != []
      modifies this
      ensures Valid() && turns == Attempts(hits, pageSize, old(loaded), index, count) && turns <= count
      ensures loaded == AfterReset(hits, pageSize, old(loaded), index, count) && (turns > 0 ==> InReach(index, turns))
      ensures failed == (!Covered(hits, pageSize, old(loaded), index, count) && !HitAt(hits, index).Readable?)
      ensures !failed && count > 0 ==> turns > 0
      ensures failed ==> turns == 0
    {
      EmptyIff();
      var result := ResetDocumentCache(index, count);
      failed := result.Throws?;
      turns := if failed then 0 else Min(count, result.size);
      KeysOfPage();
      AttemptsReach(hits, pageSize, old(loaded), index, count);
    }

    /**
     cpix_Hits_doc for target.Length documents from the given index, in the slave thread. It is
     undefined on an empty map; otherwise it asks for n documents, and the error left in the hits
     object is that of the last call alone. The errors of the calls before are lost to the pool.
    */
    method HitsDoc(index: int, target: array<Option<Entry>>, pool: Errors.ErrorInfoPool) returns (r: Called)
      requires Valid() && forall i | 0 <= i < target.Length :: target[i].None?
      requires Errors.Proper(pool.View())
      modifies this, target, pool
      ensures Valid() && Errors.Proper(pool.View())
      ensures r.Lost? <==> old(wrappers) == []
      ensures r.Returned? ==> r.n == Attempts(hits, pageSize, old(loaded), index, target.Length) <= target.Length
      ensures r.Returned? ==> loaded == AfterCall(hits, pageSize, old(loaded), Call(index, target.Length))
      ensures r.Returned? ==>
        forall i | 0 <= i < target.Length :: Delivered(hits, wrappers, made, target[i], index, i, r.n)
      ensures r.Returned? ==> (AllPresent(target[..r.n], wrappers) <==> AllReadable(hits, index, index + r.n))
      ensures r.Returned? && r.n > 0 ==> r.err.Some? == !HitAt(hits, index + r.n - 1).Readable?
      ensures r.Returned? && r.n == 0 && target.Length > 0 ==> r.err.Some?
      ensures r.Returned? ==> (r.err.None? && !AllPresent(target[..r.n], wrappers) <==>
        r.n > 0 && HitAt(hits, index + r.n - 1).Readable? && !AllReadable(hits, index, index + r.n - 1))
      ensures r.Returned? ==> old(pool.used) <= pool.used && Held(r.err) <= pool.used - old(pool.used)
      ensures r.Returned? ==>
        |Leaked(old(pool.used), pool.used, r.err)| == if r.n > 0 then Unreadable(hits, index, index + r.n - 1) else 0
      ensures r.Returned? ==>
        (Leaked(old(pool.used), pool.used, r.err) != {} <==> r.n > 0 && !AllReadable(hits, index, index + r.n - 1))
    {
      if wrappers == [] { return Lost; }
      ghost var before := pool.View();
      var err, n := Turns(index, target, pool);
      hide Valid, Delivered, HitAt, AllReadable, AllPresent, Attempts, AfterCall, Errors.Proper, Leaked, Held,
        Unreadable, Reported;
      PresentIff(hits, wrappers, made, target[..], index, n);
      LastIsLast(index, n);
      Account(before, pool.View(), err, n == 0 && err.Some?, index, n);
      r := Returned(err, n);
    }

    /** Both parts of cpix_Hits_doc, when the map is not empty. */
    method Turns(index: int, target: array<Option<Entry>>, pool: Errors.ErrorInfoPool)
      returns (err: Option<Errors.Ref>, n: nat)
      requires Valid() && wrappers != [] && forall i | 0 <= i < target.Length :: target[i].None?
      requires Errors.Proper(pool.View())
      modifies this, target, pool
      ensures Valid() && n == Attempts(hits, pageSize, old(loaded), index, target.Length) <= target.Length
      ensures loaded == AfterCall(hits, pageSize, old(loaded), Call(index, target.Length))
      ensures forall i | 0 <= i < target.Length :: Delivered(hits, wrappers, made, target[i], index, i, n)
      ensures n > 0 ==> err.Some? == !HitAt(hits, index + n - 1).Readable?
      ensures n == 0 && target.Length > 0 ==> err.Some?
      ensures Reported(old(pool.View()), pool.View(), err,
        (if n == 0 && err.Some? then 1 else 0) + Unreadable(hits, index, index + n))
    {
      NothingDelivered(index, target[..]);
      ghost var before := pool.View();
      NothingReported(before);
      var failed, turns := Prepare(index, target.Length);
      hide Limit, Page, Delivered, Keys, Owned, Sorted, Shape, HitAt, Attempts, AfterGet, AfterReset;
      hide Errors.Proper, Unreadable, Reported;
      err := XlateExc(failed, pool, before, None, 0);
      err := Deliver(index, turns, err, target, pool, before, if failed then 1 else 0);
      n := turns;
    }

    lemma NothingReported(p: Errors.Pool)
      requires Errors.Proper(p)
      ensures Reported(p, p, None, 0)
    {
    }

    /** What becomes of the errors of a call: the last one may be held, the others have leaked. */
    lemma Account(before: Errors.Pool, p: Errors.Pool, err: Option<Errors.Ref>, failed: bool, index: int, n: nat)
      requires Reported(before, p, err, (if failed then 1 else 0) + Unreadable(hits, index, index + n))
      requires if n > 0 then !failed && err.Some? == !HitAt(hits, index + n - 1).Readable? else err.Some? == failed
      ensures Errors.Proper(p) && before.used <= p.used && Held(err) <= p.used - before.used
      ensures |Leaked(before.used, p.used, err)| == if n > 0 then Unreadable(hits, index, index + n - 1) else 0
      ensures Leaked(before.used, p.used, err) != {} <==> n > 0 && !AllReadable(hits, index, index + n - 1)
    {
      LeakedCount(before, p, err, (if failed then 1 else 0) + Unreadable(hits, index, index + n));
      UnreadableIff(hits, index, index + n - 1);
      hide Leaked, Errors.Proper, AllReadable;
    }

    /** The loop of cpix_Hits_doc. */
    method Deliver(index: int, turns: nat, first: Option<Errors.Ref>, target: array<Option<Entry>>,
                   pool: Errors.ErrorInfoPool, ghost before: Errors.Pool, ghost count: nat)
      returns (err: Option<Errors.Ref>)
      requires Valid() && turns <= target.Length && (turns > 0 ==> InReach(index, turns))
      requires forall i | 0 <= i < target.Length :: Delivered(hits, wrappers, made, target[i], index, i, 0)
      requires Reported(before, pool.View(), first, count)
      modifies this, target, pool
      ensures Valid() && loaded == AfterGets(hits, pageSize, old(loaded), index, turns)
      ensures forall i | 0 <= i < target.Length :: Delivered(hits, wrappers, made, target[i], index, i, turns)
      ensures err.Some? == if turns > 0 then !HitAt(hits, index + turns - 1).Readable? else first.Some?
      ensures Reported(before, pool.View(), err, count + Unreadable(hits, index, index + turns))
    {
      hide Limit, Page, Delivered, Keys, Owned, Sorted, ReadableIn, Stop, Shape, HitAt, AfterGet, Reported;
      err := first;
      var n := 0;
      while n < turns
        invariant n <= turns && Valid() && (turns > 0 ==> InReach(index + n, turns - n))
        invariant AfterGets(hits, pageSize, loaded, index + n, turns - n)
          == AfterGets(hits, pageSize, old(loaded), index, turns)
        invariant forall i | 0 <= i < target.Length :: Delivered(hits, wrappers, made, target[i], index, i, n)
        invariant err.Some? == if n > 0 then !HitAt(hits, index + n - 1).Readable? else first.Some?
        invariant Reported(before, pool.View(), err, count + Unreadable(hits, index, index + n))
      {
        ghost var soFar := count + Unreadable(hits, index, index + n);
        var failed := DeliverOne(index, n, turns, target);
        err := XlateExc(failed, pool, before, err, soFar);
        n := n + 1;
      }
    }

    lemma LastIsLast(index: int, n: nat)
      ensures AllReadable(hits, index, index)
      ensures n > 0 ==>
        (AllReadable(hits, index, index + n) <==>
          AllReadable(hits, index, index + n - 1) && HitAt(hits, index + n - 1).Readable?)
    {
    }

    lemma NothingDelivered(index: int, target: seq<Option<Entry>>)
      requires forall i | 0 <= i < |target| :: target[i].None?
      ensures forall es, made, i | 0 <= i < |target| :: Delivered(hits, es, made, target[i], index, i, 0)
    {
    }
  }

  // ----- the test is a correct test -----

  lemma {:induction false} SizeOfInterval(s: set<int>, b: int, e: int)
    requires forall i | i in s :: b <= i < e
    requires b <= e
    ensures |s| <= e - b
    ensures |s| == e - b ==> forall i | b <= i < e :: i in s
    decreases e - b
  {
    if b == e {
      assert forall i :: i !in s;
      assert s == {};
    } else {
      var rest := s - {e - 1};
      assert s == if e - 1 in s then rest + {e - 1} else rest;
      SizeOfInterval(rest, b, e - 1);
    }
  }

  lemma {:induction false} AsManyKeys(es: seq<Entry>)
    requires Sorted(es)
    ensures |Keys(es)| == |es|
  {
    if es == [] {
      assert Keys(es) == {};
    } else {
      var last := |es| - 1;
      AsManyKeys(es[..last]);
      assert es == es[..last] + [es[last]];
      assert Keys(es) == Keys(es[..last]) + {es[last].index};
    }
  }

  lemma {:induction false} LowestIsLeast(hits: seq<Hit>, b: int, e: int)
    requires b <= e
    ensures b <= Lowest(hits, b, e) <= e
    ensures forall i | i in ReadableIn(hits, b, e) :: Lowest(hits, b, e) <= i
    ensures ReadableIn(hits, b, e) != {} ==> Lowest(hits, b, e) in ReadableIn(hits, b, e)
    decreases e - b
  {
    if b < e && !HitAt(hits, b).Readable? {
      LowestIsLeast(hits, b + 1, e);
      assert ReadableIn(hits, b, e) == ReadableIn(hits, b + 1, e);
    } else if b < e {
      assert b in ReadableIn(hits, b, e);
    }
  }

  lemma FirstOfPage(hits: seq<Hit>, size: nat, b: int)
    requires Page(hits, size, b) != {}
    ensures First(hits, size, b) in Page(hits, size, b)
    ensures forall k | k in Page(hits, size, b) :: First(hits, size, b) <= k
  {
    LowestIsLeast(hits, b, Limit(hits, size, b));
  }

  /** A page, counted from its first key on, reaches no further than it was fetched. */
  lemma PageReaches(hits: seq<Hit>, size: nat, b: int)
    requires Page(hits, size, b) != {}
    ensures b <= First(hits, size, b) && First(hits, size, b) + |Page(hits, size, b)| <= Limit(hits, size, b)
    ensures Limit(hits, size, b) <= Min(b + size, |hits|)
  {
    FirstOfPage(hits, size, b);
    SizeOfInterval(Page(hits, size, b), First(hits, size, b), Limit(hits, size, b));
  }

  /** The documents cpix_Hits_doc asks for lie within the page its first call leaves. */
  lemma AttemptsReach(hits: seq<Hit>, size: nat, b: int, index: int, count: nat)
    requires size > 0 && Page(hits, size, b) != {}
    ensures var n, m := Attempts(hits, size, b, index, count), AfterReset(hits, size, b, index, count);
      n <= count && (n > 0 ==> m <= index && index + n <= Limit(hits, size, m) <= |hits|)
    ensures (Covered(hits, size, b, index, count) || HitAt(hits, index).Readable?) && count > 0
      ==> Attempts(hits, size, b, index, count) > 0
  {
    if Covered(hits, size, b, index, count) {
      PageReaches(hits, size, b);
    } else if HitAt(hits, index).Readable? {
      ReadableHasPage(hits, size, index);
      PageReaches(hits, size, index);
      FirstOfPage(hits, size, index);
    }
  }

  lemma ReadableHasPage(hits: seq<Hit>, size: nat, index: int)
    requires size > 0
    ensures index in Page(hits, size, index) <==> HitAt(hits, index).Readable?
  {
  }

  /** When the fetch is skipped, every requested document that can be read is cached. */
  lemma CoveredIsCached(hits: seq<Hit>, size: nat, b: int, index: int, count: nat)
    requires Page(hits, size, b) != {} && Covered(hits, size, b, index, count)
    ensures b <= index && index + count <= Limit(hits, size, b)
    ensures ReadableIn(hits, index, index + count) <= Page(hits, size, b)
  {
    PageReaches(hits, size, b);
  }

  /**
   After the reset all requested documents are cached, for a request of at most a page within the
   list, if and only if all of them can be read: no gap elsewhere in the list matters.
  */
  lemma ResetCachesAllIff(hits: seq<Hit>, size: nat, b: int, index: int, count: nat)
    requires Page(hits, size, b) != {} && 0 <= index && count <= size && index + count <= |hits|
    ensures AllIn(Page(hits, size, AfterReset(hits, size, b, index, count)), index, index + count)
      <==> AllReadable(hits, index, index + count)
  {
    if AllReadable(hits, index, index + count) {
      if Covered(hits, size, b, index, count) {
        CoveredIsCached(hits, size, b, index, count);
      } else {
        StopIsFirst(hits, index, Min(index + size, |hits|));
      }
      forall i | index <= i < index + count ensures i in Page(hits, size, AfterReset(hits, size, b, index, count)) {
        assert HitAt(hits, i).Readable?;
        assert i in ReadableIn(hits, index, index + count);
      }
    } else {
      var i :| index <= i < index + count && !HitAt(hits, i).Readable?;
      assert i !in Page(hits, size, AfterReset(hits, size, b, index, count));
    }
  }

  /** No hit that cannot be read lies between two that can, as far as the page was fetched. */
  predicate NoGap(hits: seq<Hit>, size: nat, b: int) {
    forall i, j, k | b <= i < j < k < Limit(hits, size, b) && HitAt(hits, i).Readable? && HitAt(hits, k).Readable? ::
      HitAt(hits, j).Readable?
  }

  /** That is so if and only if all hits from the first key on can be read, as many as there are keys. */
  lemma NoGapIff(hits: seq<Hit>, size: nat, b: int)
    requires Page(hits, size, b) != {}
    ensures NoGap(hits, size, b)
      <==> AllReadable(hits, First(hits, size, b), First(hits, size, b) + |Page(hits, size, b)|)
  {
    var page, f := Page(hits, size, b), First(hits, size, b);
    PageReaches(hits, size, b);
    FirstOfPage(hits, size, b);
    if AllReadable(hits, f, f + |page|) {
      var inside := ReadableIn(hits, f, f + |page|);
      WholeInterval(inside, f, f + |page|);
      SameSize(inside, page);
      forall i, j, k | b <= i < j < k < Limit(hits, size, b) && HitAt(hits, i).Readable? && HitAt(hits, k).Readable?
        ensures HitAt(hits, j).Readable?
      {
        assert i in page && k in page;
      }
    } else {
      var j :| f <= j < f + |page| && !HitAt(hits, j).Readable?;
      if NoGap(hits, size, b) {
        forall k | k in page ensures k < j { assert HitAt(hits, f).Readable? && HitAt(hits, k).Readable?; }
        SizeOfInterval(page, f, j);
      }
    }
  }

  /** The keys form one interval if and only if the page has no gap. */
  lemma AllInBetween(hits: seq<Hit>, size: nat, b: int)
    requires Page(hits, size, b) != {}
    ensures (forall k ::
      k in Page(hits, size, b) <==> First(hits, size, b) <= k < First(hits, size, b) + |Page(hits, size, b)|)
      <==> NoGap(hits, size, b)
  {
    var page, f := Page(hits, size, b), First(hits, size, b);
    PageReaches(hits, size, b);
    FirstOfPage(hits, size, b);
    NoGapIff(hits, size, b);
    hide NoGap;
    if NoGap(hits, size, b) {
      var inside := ReadableIn(hits, f, f + |page|);
      WholeInterval(inside, f, f + |page|);
      assert inside <= page;
      SameSize(inside, page);
    } else {
      var i :| f <= i < f + |page| && !HitAt(hits, i).Readable?;
      assert i !in page;
    }
  }

  lemma SameSize(a: set<int>, b: set<int>)
    requires a <= b && |a| == |b|
    ensures a == b
  {
    assert b == a + (b - a);
  }

  predicate AllIn(ks: set<int>, b: int, e: int) { forall i | b <= i < e :: i in ks }

  /** The test is exact, whatever is asked for, if and only if the page has no gap. */
  lemma CoveredIff(hits: seq<Hit>, size: nat, b: int)
    requires Page(hits, size, b) != {}
    ensures (forall index: int, count: nat | count > 0 ::
      Covered(hits, size, b, index, count) <==> AllIn(Page(hits, size, b), index, index + count))
        <==> NoGap(hits, size, b)
  {
    var page, f := Page(hits, size, b), First(hits, size, b);
    AllInBetween(hits, size, b);
    NoGapIff(hits, size, b);
    hide NoGap;
    if NoGap(hits, size, b) {
      forall index: int, count: nat | count > 0
        ensures Covered(hits, size, b, index, count) <==> AllIn(page, index, index + count)
      {
        if AllIn(page, index, index + count) { assert index in page && index + count - 1 in page; }
      }
    } else {
      assert Covered(hits, size, b, f, |page|);
      var i :| f <= i < f + |page| && !HitAt(hits, i).Readable?;
      assert i !in page;
    }
  }

  lemma {:induction false} WholeInterval(s: set<int>, b: int, e: int)
    requires b <= e && forall i :: i in s <==> b <= i < e
    ensures |s| == e - b
    decreases e - b
  {
    if b == e {
      assert forall i :: i !in s;
      assert s == {};
    } else {
      assert s == (s - {e - 1}) + {e - 1};
      WholeInterval(s - {e - 1}, b, e - 1);
    }
  }

  /**
   A call delivers every document asked for, up to a page and to the end of the list, if and only if
   these hits can be read; whatever else is missing from the list does not matter.
  */
  lemma DeliversAllIff(hits: seq<Hit>, size: nat, b: int, index: int, count: nat)
    requires size > 0 && Page(hits, size, b) != {} && 0 <= index < |hits|
    ensures var n, all := Attempts(hits, size, b, index, count), Min(count, Min(size, |hits| - index));
      n == all && AllReadable(hits, index, index + n) <==> AllReadable(hits, index, index + all)
  {
    var all := Min(count, Min(size, |hits| - index));
    if AllReadable(hits, index, index + all) {
      if Covered(hits, size, b, index, count) {
        PageReaches(hits, size, b);
      } else if all > 0 {
        var e := Min(index + size, |hits|);
        StopIsFirst(hits, index, e);
        var asked := ReadableIn(hits, index, index + all);
        assert forall i | index <= i < index + all :: HitAt(hits, i).Readable?;
        WholeInterval(asked, index, index + all);
        assert HitAt(hits, index).Readable?;
        forall i | index <= i < index + all ensures i in Page(hits, size, index) { assert HitAt(hits, i).Readable?; }
        MoreThan(asked, Page(hits, size, index));
        ReadableHasPage(hits, size, index);
        PageReaches(hits, size, index);
      }
    }
  }

  lemma MoreThan(a: set<int>, b: set<int>)
    requires a <= b
    ensures |a| <= |b|
  {
    assert b == a + (b - a);
  }

  // ----- the empty map -----

  /** The documents a call fetches last, if it fetches any, decide whether it leaves the map empty. */
  lemma {:induction false} GetsEmptyIff(hits: seq<Hit>, size: nat, b: int, index: int, n: nat)
    requires size > 0 && n > 0
    ensures Page(hits, size, AfterGets(hits, size, b, index, n)) == {} <==> Page(hits, size, index + n - 1) == {}
    decreases n
  {
    var c := AfterGet(hits, size, b, index);
    if n == 1 {
      if c == b { ReadableHasPage(hits, size, index); }
    } else {
      GetsEmptyIff(hits, size, c, index + 1, n - 1);
    }
  }

  /**
   A call that is defined leaves the map empty, so that the next one is not, if and only if no page
   can be fetched from the last hit it asks for, which is the first one if its fetch throws.
  */
  lemma CallEmptiesIff(hits: seq<Hit>, size: nat, b: int, c: Call)
    requires size > 0 && Page(hits, size, b) != {}
    ensures var n := Attempts(hits, size, b, c.index, c.count);
      Page(hits, size, AfterCall(hits, size, b, c)) == {} <==>
        if n > 0 then Page(hits, size, c.index + n - 1) == {}
        else !Covered(hits, size, b, c.index, c.count) && Page(hits, size, c.index) == {}
  {
    var n := Attempts(hits, size, b, c.index, c.count);
    if n > 0 { GetsEmptyIff(hits, size, AfterReset(hits, size, b, c.index, c.count), c.index, n); }
  }

  predicate InBounds(hits: seq<Hit>, cs: seq<Call>) { forall c | c in cs :: 0 <= c.index < |hits| }

  /** Each of the calls finds an entry in the map. */
  predicate AllDefined(hits: seq<Hit>, size: nat, b: int, cs: seq<Call>)
    decreases |cs|
  {
    cs == [] || (Page(hits, size, b) != {} && AllDefined(hits, size, AfterCall(hits, size, b, cs[0]), cs[1..]))
  }

  predicate EveryPageHolds(hits: seq<Hit>, size: nat) { forall i | 0 <= i < |hits| :: Page(hits, size, i) != {} }

  lemma {:induction false} HoldsForAll(hits: seq<Hit>, size: nat, b: int, cs: seq<Call>)
    requires size > 0 && Page(hits, size, b) != {} && InBounds(hits, cs) && EveryPageHolds(hits, size)
    ensures AllDefined(hits, size, b, cs)
    decreases |cs|
  {
    if cs != [] {
      CallEmptiesIff(hits, size, b, cs[0]);
      AttemptsReach(hits, size, b, cs[0].index, cs[0].count);
      HoldsForAll(hits, size, AfterCall(hits, size, b, cs[0]), cs[1..]);
    }
  }

  /** Asking for one document from which no page can be fetched is the last thing that is defined. */
  lemma LastDefinedCall(hits: seq<Hit>, size: nat, b: int, i: int, c: Call)
    requires size > 0 && Page(hits, size, i) == {}
    ensures !AllDefined(hits, size, b, [Call(i, 1), c])
  {
    ReadableHasPage(hits, size, i);
    if Page(hits, size, b) != {} {
      CallEmptiesIff(hits, size, b, Call(i, 1));
      assert [Call(i, 1), c][1..] == [c];
      assert Attempts(hits, size, b, i, 1) <= 1;
    }
  }

  /**
   Once a page is cached, all calls the server admits are defined, in whatever sequence, if and only
   if a page can be fetched from every hit of the list.
  */
  lemma EveryCallIsDefinedIff(hits: seq<Hit>, size: nat, b: int)
    requires size > 0 && Page(hits, size, b) != {}
    ensures (forall cs | InBounds(hits, cs) :: AllDefined(hits, size, b, cs)) <==> EveryPageHolds(hits, size)
  {
    if EveryPageHolds(hits, size) {
      forall cs | InBounds(hits, cs) ensures AllDefined(hits, size, b, cs) { HoldsForAll(hits, size, b, cs); }
    } else {
      var i :| 0 <= i < |hits| && Page(hits, size, i) == {};
      LastDefinedCall(hits, size, b, i, Call(i, 1));
      assert InBounds(hits, [Call(i, 1), Call(i, 1)]);
    }
  }

  predicate SomeReadable(hits: seq<Hit>, b: int, n: nat) { exists i :: b <= i < b + n && HitAt(hits, i).Readable? }

  /** That is so if and only if nothing is broken, the last hit can be read, and no whole page is deleted. */
  lemma EveryPageHoldsIff(hits: seq<Hit>, size: nat)
    requires size > 0
    ensures EveryPageHolds(hits, size) <==>
      && (forall i | 0 <= i < |hits| :: !hits[i].Broken?)
      && (hits != [] ==> hits[|hits| - 1].Readable?)
      && (forall b | 0 <= b <= |hits| - size :: SomeReadable(hits, b, size))
  {
    if EveryPageHolds(hits, size) {
      forall i | 0 <= i < |hits| && (hits[i].Broken? || i == |hits| - 1) ensures hits[i].Readable? {
        FirstOfPage(hits, size, i);
      }
      forall b | 0 <= b <= |hits| - size ensures SomeReadable(hits, b, size) {
        FirstOfPage(hits, size, b);
        PageReaches(hits, size, b);
        assert HitAt(hits, First(hits, size, b)).Readable?;
      }
    }
    if (forall i | 0 <= i < |hits| :: !hits[i].Broken?) && (hits != [] ==> hits[|hits| - 1].Readable?)
      && (forall b | 0 <= b <= |hits| - size :: SomeReadable(hits, b, size))
    {
      forall b | 0 <= b < |hits| ensures Page(hits, size, b) != {} {
        var e := Min(b + size, |hits|);
        StopIsFirst(hits, b, e);
        if b <= |hits| - size { assert SomeReadable(hits, b, size); } else { assert HitAt(hits, |hits| - 1).Readable?; }
        var i :| b <= i < e && HitAt(hits, i).Readable?;
        assert i in Page(hits, size, b);
      }
    }
  }

  /**
   The map is emptied by requests that the server admits: with the second of two hits deleted, a
   request for it ends with an error, and the next request, for whatever it is, is undefined.
  */
  method EmptyMapIsReached(pageSize: nat, index: int, count: nat) returns (first: Called, second: Called)
    requires pageSize > 0
    ensures first.Returned? && first.err.Some? && first.n == 0 && second == Lost
  {
    var list := [Readable(7), Deleted];
    var h := LuceneHits.Open(list, pageSize);
    var pool := new Errors.ErrorInfoPool();
    ghost var b := h.value.loaded;
    LastDefinedPage(list, pageSize);
    var target := new Option<Entry>[1](_ => None);
    first := h.value.HitsDoc(1, target, pool);
    CallEmptiesIff(list, pageSize, b, Call(1, 1));
    h.value.EmptyIff();
    var next := new Option<Entry>[count](_ => None);
    second := h.value.HitsDoc(index, next, pool);
  }

  lemma LastDefinedPage(list: seq<Hit>, size: nat)
    requires size > 0 && list == [Readable(7), Deleted]
    ensures Page(list, size, 0) != {} && Page(list, size, 1) == {}
    ensures !Covered(list, size, 0, 1, 1) && Attempts(list, size, 0, 1, 1) == 0
  {
    ReadableHasPage(list, size, 0);
    FirstOfPage(list, size, 0);
    assert Page(list, size, 0) == {0};
  }

  /**
   A deleted document in the middle goes unreported: each call sets the error of the one before it
   to NULL. Here the call takes three turns and ends without error, although the second document is
   missing, the wrapper delivered first has been freed, and the fourth was never asked for. The error
   of the second turn stays in use in the pool, although nobody holds it.
  */
  method GapGoesUnreported() returns (r: Called, got: seq<Option<Entry>>, cached: seq<Entry>, leaked: set<Errors.Ref>)
    ensures r == Returned(None, 3) && |got| == 4
    ensures got[0].Some? && got[0].value !in cached && got[1].None? && got[2].Some? && got[3].None?
    ensures |leaked| == 1
  {
    var list := [Readable(1), Deleted, Readable(2), Readable(3)];
    PageWithGap(list);
    OneUnreadable(list);
    hide Page, Attempts, Delivered, Unreadable;
    ghost var made;
    r, got, cached, leaked, made := FirstCall(list, 5, 0, 4);
    GapDelivered(list, cached, made, got);
  }

  /** One call of cpix_Hits_doc on a list that has just been opened, with the errors nobody holds afterwards. */
  method FirstCall(list: seq<Hit>, size: nat, index: int, count: nat)
    returns (r: Called, got: seq<Option<Entry>>, cached: seq<Entry>, leaked: set<Errors.Ref>, ghost made: nat)
    requires size > 0 && list != [] && list[0].Readable?
    ensures r.Returned? && r.n == Attempts(list, size, 0, index, count) && |got| == count
    ensures forall i | 0 <= i < count :: Delivered(list, cached, made, got[i], index, i, r.n)
    ensures r.n > 0 ==> r.err.Some? == !HitAt(list, index + r.n - 1).Readable?
    ensures |leaked| == if r.n > 0 then Unreadable(list, index, index + r.n - 1) else 0
  {
    var h := LuceneHits.Open(list, size);
    var pool := new Errors.ErrorInfoPool();
    var target := new Option<Entry>[count](_ => None);
    r := h.value.HitsDoc(index, target, pool);
    got, cached, leaked, made := target[..], h.value.wrappers, Leaked({}, pool.used, r.err), h.value.made;
  }

  lemma GapDelivered(list: seq<Hit>, es: seq<Entry>, made: nat, got: seq<Option<Entry>>)
    requires list == [Readable(1), Deleted, Readable(2), Readable(3)] && |got| == 4
    requires forall i | 0 <= i < 4 :: Delivered(list, es, made, got[i], 0, i, 3)
    ensures got[0].Some? && got[0].value !in es && got[1].None? && got[2].Some? && got[3].None?
  {
    assert !HitAt(list, 1).Readable?;
  }

  lemma OneUnreadable(list: seq<Hit>)
    requires list == [Readable(1), Deleted, Readable(2), Readable(3)]
    ensures Unreadable(list, 0, 2) == 1 && HitAt(list, 2).Readable?
  {
    assert Unreadable(list, 0, 1) == 0;
  }

  lemma PageWithGap(list: seq<Hit>)
    requires list == [Readable(1), Deleted, Readable(2), Readable(3)]
    ensures Page(list, 5, 0) == {0, 2, 3} && First(list, 5, 0) == 0 && Attempts(list, 5, 0, 0, 4) == 3
  {
    StopIsFirst(list, 0, 4);
    assert Page(list, 5, 0) == {0, 2, 3};
  }
}
