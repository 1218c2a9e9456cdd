/** The query semantics the handlers rely on from the document store:
    equality filters, `orderBy(field, direction)` (which also drops the
    documents that lack the field) and the typed value order (null <
    numbers < strings, strings by code point). CollectSorted is the
    engine that answers such a query over the stored documents. */
module StoreQuery {
  import opened Base
  import opened IssueModel

  /** A field value as the store orders it. */
  datatype Key = Null | Num(n: real) | Text(s: string)

  /** Lexicographic order on code points. */
  predicate StrLe(a: string, b: string)
    decreases |a|
  {
    a == [] || (b != [] && (a[0] < b[0] || (a[0] == b[0] && StrLe(a[1..], b[1..]))))
  }

  lemma {:induction false} StrLeTotal(a: string, b: string)
    ensures StrLe(a, b) || StrLe(b, a)
    decreases |a|
  {
    if a != [] && b != [] && a[0] == b[0] {
      StrLeTotal(a[1..], b[1..]);
    }
  }

  lemma {:induction false} StrLeTrans(a: string, b: string, c: string)
    requires StrLe(a, b) && StrLe(b, c)
    ensures StrLe(a, c)
    decreases |a|
  {
    if a != [] && b != [] && c != [] && a[0] == b[0] == c[0] {
      StrLeTrans(a[1..], b[1..], c[1..]);
    }
  }

  predicate KeyLe(a: Key, b: Key) {
    match a
    case Null => true
    case Num(x) => b.Text? || (b.Num? && x <= b.n)
    case Text(s) => b.Text? && StrLe(s, b.s)
  }

  lemma KeyLeTotal(a: Key, b: Key)
    ensures KeyLe(a, b) || KeyLe(b, a)
  {
    if a.Text? && b.Text? { StrLeTotal(a.s, b.s); }
  }

  lemma KeyLeTrans(a: Key, b: Key, c: Key)
    requires KeyLe(a, b) && KeyLe(b, c)
    ensures KeyLe(a, c)
  {
    if a.Text? && b.Text? && c.Text? { StrLeTrans(a.s, b.s, c.s); }
  }

  function OptText(o: Option<string>): Option<Key> {
    if o.Some? then Some(Text(o.value)) else None
  }

  /** The value of a top-level field, or None when the document lacks it.
      `imageUrl` is stored as null when there is no image; an absent
      address, updatedBy or category is no field at all. */
  function KeyOf(i: Issue, field: string): Option<Key> {
    if field == "createdAt" then Some(Num(i.createdAt as real))
    else if field == "updatedAt" then Some(Num(i.updatedAt as real))
    else if field == "aiConfidence" then Some(Num(i.aiConfidence))
    else if field == "status" then Some(Text(i.status))
    else if field == "severity" then Some(Text(i.severity))
    else if field == "title" then Some(Text(i.title))
    else if field == "description" then Some(Text(i.description))
    else if field == "userId" then Some(Text(i.userId))
    else if field == "imageUrl" then (if i.imageUrl.Some? then Some(Text(i.imageUrl.value)) else Some(Null))
    else if field == "address" then OptText(i.address)
    else if field == "updatedBy" then OptText(i.updatedBy)
    else if field == "category" then OptText(i.category)
    else None
  }

  /** The field path that names the document id (`FieldPath.documentId()`). */
  const DOCUMENT_ID := "__name__"

  /** Every document has its id; other fields only when stored. */
  predicate HasField(i: Issue, field: string) {
    field == DOCUMENT_ID || KeyOf(i, field).Some?
  }

  /** The value a document is ordered by. Ordering by the document id
      compares references, which within one collection compare as their
      ids do; every listed value is then a reference, so its place among
      the other value types never matters. */
  function Rank(d: Doc, field: string): Key {
    if field == DOCUMENT_ID then Text(d.id) else KeyOf(d.data, field).GetOr(Null)
  }

  /** The AND of the equality filters a truthy query parameter adds. */
  predicate MatchesFilters(i: Issue, q: Query) {
    && (Truthy(q.status) ==> i.status == q.status.value)
    && (Truthy(q.severity) ==> i.severity == q.severity.value)
    && (Truthy(q.category) ==> i.category == Some(q.category.value))
  }

  /** A document the query returns: it passes the filters and has the
      field it is ordered by. */
  predicate Selected(i: Issue, q: Query, field: string) {
    MatchesFilters(i, q) && HasField(i, field)
  }

  /** `a` may come before `b` in the requested direction. */
  predicate Precedes(a: Doc, b: Doc, field: string, desc: bool) {
    if desc then KeyLe(Rank(b, field), Rank(a, field)) else KeyLe(Rank(a, field), Rank(b, field))
  }

  lemma PrecedesTotal(a: Doc, b: Doc, field: string, desc: bool)
    ensures Precedes(a, b, field, desc) || Precedes(b, a, field, desc)
  {
    KeyLeTotal(Rank(a, field), Rank(b, field));
  }

  lemma PrecedesTrans(a: Doc, b: Doc, c: Doc, field: string, desc: bool)
    requires Precedes(a, b, field, desc) && Precedes(b, c, field, desc)
    ensures Precedes(a, c, field, desc)
  {
    if desc {
      KeyLeTrans(Rank(c, field), Rank(b, field), Rank(a, field));
    } else {
      KeyLeTrans(Rank(a, field), Rank(b, field), Rank(c, field));
    }
  }

  predicate Ordered(r: seq<Doc>, field: string, desc: bool) {
    forall i, j :: 0 <= i < j < |r| ==> Precedes(r[i], r[j], field, desc)
  }

  predicate DistinctIds(r: seq<Doc>) {
    forall i, j :: 0 <= i < j < |r| ==> r[i].id != r[j].id
  }

  /** `r` answers the query over `docs`: exactly the selected documents,
      each once, in the requested order. */
  ghost predicate IsListing(r: seq<Doc>, docs: map<string, Issue>, q: Query, field: string, desc: bool) {
    && (forall d :: d in r <==> d.id in docs && d.data == docs[d.id] && Selected(d.data, q, field))
    && DistinctIds(r)
    && Ordered(r, field, desc)
  }

  /** Placing `d` at `p`, after everything that may precede it and before
      something it precedes, keeps the order. */
  lemma InsertKeepsOrder(r: seq<Doc>, d: Doc, p: nat, field: string, desc: bool)
    requires Ordered(r, field, desc) && p <= |r|
    requires forall i :: 0 <= i < p ==> Precedes(r[i], d, field, desc)
    requires p < |r| ==> Precedes(d, r[p], field, desc)
    ensures Ordered(r[..p] + [d] + r[p..], field, desc)
  {
    var s := r[..p] + [d] + r[p..];
    forall i, j | 0 <= i < j < |s| ensures Precedes(s[i], s[j], field, desc) {
      if j < p {
        assert s[i] == r[i] && s[j] == r[j];
      } else if j == p {
        assert s[i] == r[i] && s[j] == d;
      } else if i < p {
        assert s[i] == r[i] && s[j] == r[j - 1];
      } else if i == p {
        assert s[i] == d && s[j] == r[j - 1];
        if j - 1 > p {
          assert Precedes(r[p], r[j - 1], field, desc);
          PrecedesTrans(d, r[p], r[j - 1], field, desc);
        }
      } else {
        assert s[i] == r[i - 1] && s[j] == r[j - 1];
      }
    }
  }

  lemma InsertKeepsDistinct(r: seq<Doc>, d: Doc, p: nat)
    requires DistinctIds(r) && p <= |r|
    requires forall e :: e in r ==> e.id != d.id
    ensures DistinctIds(r[..p] + [d] + r[p..])
    ensures forall e :: e in r[..p] + [d] + r[p..] <==> e in r || e == d
  {
    var s := r[..p] + [d] + r[p..];
    forall i, j | 0 <= i < j < |s| ensures s[i].id != s[j].id {
      if j < p {
        assert s[i] == r[i] && s[j] == r[j];
      } else if j == p {
        assert s[i] == r[i] && s[j] == d;
      } else if i < p {
        assert s[i] == r[i] && s[j] == r[j - 1];
      } else if i == p {
        assert s[i] == d && s[j] == r[j - 1];
      } else {
        assert s[i] == r[i - 1] && s[j] == r[j - 1];
      }
    }
    assert r == r[..p] + r[p..];
  }

  /** Inserts `d` after every document that may precede it. */
  method InsertOrdered(r: seq<Doc>, d: Doc, field: string, desc: bool) returns (s: seq<Doc>)
    requires Ordered(r, field, desc)
    requires DistinctIds(r) && forall e :: e in r ==> e.id != d.id
    ensures Ordered(s, field, desc) && DistinctIds(s)
    ensures forall e :: e in s <==> e in r || e == d
  {
    var p := 0;
    while p < |r| && Precedes(r[p], d, field, desc)
      invariant 0 <= p <= |r|
      invariant forall i :: 0 <= i < p ==> Precedes(r[i], d, field, desc)
    {
      p := p + 1;
    }
    if p < |r| {
      PrecedesTotal(r[p], d, field, desc);
    }
    InsertKeepsOrder(r, d, p, field, desc);
    InsertKeepsDistinct(r, d, p);
    s := r[..p] + [d] + r[p..];
  }

  /** Answers a query over the stored documents, one document at a time. */
  method CollectSorted(docs: map<string, Issue>, q: Query, field: string, desc: bool) returns (r: seq<Doc>)
    ensures IsListing(r, docs, q, field, desc)
  {
    var pending := docs.Keys;
    r := [];
    while pending != {}
      invariant pending <= docs.Keys
      invariant forall d :: d in r <==>
        d.id in docs && d.id !in pending && d.data == docs[d.id] && Selected(d.data, q, field)
      invariant DistinctIds(r) && Ordered(r, field, desc)
      decreases pending
    {
      var k :| k in pending;
      pending := pending - {k};
      if Selected(docs[k], q, field) {
        r := InsertOrdered(r, Doc(k, docs[k]), field, desc);
      }
    }
  }

  /** Every listed document passes every supplied filter, and every stored
      document that passes them all (and has the sort field) is listed. */
  lemma ListingIsConjunction(r: seq<Doc>, docs: map<string, Issue>, q: Query, field: string, desc: bool, k: string)
    requires IsListing(r, docs, q, field, desc)
    requires k in docs
    ensures Doc(k, docs[k]) in r <==>
      && (Truthy(q.status) ==> docs[k].status == q.status.value)
      && (Truthy(q.severity) ==> docs[k].severity == q.severity.value)
      && (Truthy(q.category) ==> docs[k].category == Some(q.category.value))
      && HasField(docs[k], field)
  {
  }

  /** A listing holds as many entries as there are selected documents. */
  lemma {:induction false} ListingLength(r: seq<Doc>, docs: map<string, Issue>, q: Query, field: string, desc: bool)
    requires IsListing(r, docs, q, field, desc)
    ensures |r| == |set k | k in docs && Selected(docs[k], q, field)|
  {
    var ids := set d | d in r :: d.id;
    var keys := set k | k in docs && Selected(docs[k], q, field);
    forall k | k in keys ensures k in ids {
      assert Doc(k, docs[k]) in r;
    }
    assert ids == keys;
    IdsCount(r);
  }

  lemma {:induction false} IdsCount(r: seq<Doc>)
    requires DistinctIds(r)
    ensures |set d | d in r :: d.id| == |r|
  {
    if r != [] {
      var tail := r[1..];
      assert DistinctIds(tail);
      IdsCount(tail);
      var before := set d | d in tail :: d.id;
      assert r[0].id !in before;
      assert (set d | d in r :: d.id) == before + {r[0].id};
    }
  }
}
