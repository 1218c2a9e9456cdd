/** The admin dashboard's aggregate counts: a pure count over every
    stored issue. The admin handlers that touch the store live in
    IssueStore. */
module AdminController {
  import opened Base
  import opened IssueModel

  const STATUS_UPDATED_ADMIN := "Status updated successfully"

  /** `sortBy = 'createdAt'`: the default applies only when the parameter is absent. */
  function SortField(q: Query): string {
    q.sortBy.GetOr("createdAt")
  }

  /** `order = 'desc'`: the default applies only when the parameter is absent. */
  function SortOrder(q: Query): string {
    q.order.GetOr("desc")
  }

  /** The direction the store client applies: it lower-cases the string
      before checking it, so "DESC" reads as "desc". */
  function Direction(q: Query): string {
    ToLower(SortOrder(q))
  }

  /** A character the store client refuses anywhere in a field path. */
  predicate IsReservedPathChar(c: char) {
    c == '~' || c == '*' || c == '/' || c == '[' || c == ']'
  }

  /** A field path the store client accepts as a string: non-empty, free of
      reserved characters, and with no empty part between dots (so no
      leading or trailing dot and no ".."). */
  predicate ValidFieldPath(s: string) {
    && |s| > 0
    && (forall i :: 0 <= i < |s| ==> !IsReservedPathChar(s[i]))
    && s[0] != '.' && s[|s| - 1] != '.'
    && (forall i :: 0 <= i < |s| - 1 ==> !(s[i] == '.' && s[i + 1] == '.'))
  }

  /** A path without dots or reserved characters is one valid part. */
  lemma PlainNameIsValidPath(s: string)
    requires |s| > 0
    requires forall i :: 0 <= i < |s| ==> 'a' <= s[i] <= 'z' || 'A' <= s[i] <= 'Z'
    ensures ValidFieldPath(s)
  {
  }

  /** A sort field holding a reserved character, such as "a/b", makes the
      ordering invalid whatever the direction. */
  lemma ReservedCharRejectsOrdering(q: Query, i: nat)
    requires q.sortBy.Some? && i < |q.sortBy.value| && IsReservedPathChar(q.sortBy.value[i])
    ensures !IsValidOrdering(q)
  {
  }

  /** The store accepts the ordering: a valid field path and a direction
      of "asc" or "desc" in any case; anything else throws. */
  predicate IsValidOrdering(q: Query) {
    ValidFieldPath(SortField(q)) && (Direction(q) == "asc" || Direction(q) == "desc")
  }

  predicate Descending(q: Query) {
    Direction(q) == "desc"
  }

  /** Without `order` the direction is descending, a valid ordering needs
      only a valid field path, and without `sortBy` as well the ordering is
      valid. */
  lemma DescendingByDefault(q: Query)
    requires q.order.None?
    ensures Descending(q)
    ensures IsValidOrdering(q) <==> ValidFieldPath(SortField(q))
    ensures q.sortBy.None? ==> IsValidOrdering(q)
  {
    PlainNameIsValidPath("createdAt");
    assert "desc" == ['d', 'e', 's', 'c'];
    ToLowerOfLower("desc");
  }

  datatype SeverityCounts = SeverityCounts(low: nat, medium: nat, high: nat)

  datatype Stats = Stats(total: nat, pending: nat, inProgress: nat, resolved: nat, bySeverity: SeverityCounts)

  /** The reply without a store. */
  const ZERO_STATS := Stats(0, 0, 0, 0, SeverityCounts(0, 0, 0))

  function WithStatusSet(docs: map<string, Issue>, s: string): set<string> {
    set k | k in docs && docs[k].status == s
  }

  function WithSeveritySet(docs: map<string, Issue>, s: string): set<string> {
    set k | k in docs && docs[k].severity == s
  }

  /** The counts over the whole collection. */
  function StatsOf(docs: map<string, Issue>): (r: Stats)
    ensures r.total == |docs|
    ensures r.pending <= r.total && r.inProgress <= r.total && r.resolved <= r.total
  {
    SubsetCount(WithStatusSet(docs, OPEN), docs.Keys);
    SubsetCount(WithStatusSet(docs, IN_PROGRESS), docs.Keys);
    SubsetCount(WithStatusSet(docs, RESOLVED), docs.Keys);
    Stats(
      total := |docs|,
      pending := |WithStatusSet(docs, OPEN)|,
      inProgress := |WithStatusSet(docs, IN_PROGRESS)|,
      resolved := |WithStatusSet(docs, RESOLVED)|,
      bySeverity := SeverityCounts(
        |WithSeveritySet(docs, "low")|,
        |WithSeveritySet(docs, "medium")|,
        |WithSeveritySet(docs, "high")|))
  }

  lemma {:induction false} SubsetCount(a: set<string>, b: set<string>)
    requires a <= b
    ensures |a| <= |b|
    decreases |a|
  {
    if a != {} {
      var x :| x in a;
      SubsetCount(a - {x}, b - {x});
    }
  }

  /** Three pairwise disjoint parts of a set have at most its size, and
      exactly its size when they cover it. */
  lemma PartsCount(a: set<string>, b: set<string>, c: set<string>, all: set<string>)
    requires a <= all && b <= all && c <= all
    requires a !! b && a !! c && b !! c
    ensures |a| + |b| + |c| <= |all|
    ensures a + b + c == all ==> |a| + |b| + |c| == |all|
  {
    assert |a + b| == |a| + |b|;
    assert (a + b) !! c;
    assert |a + b + c| == |a + b| + |c|;
    SubsetCount(a + b + c, all);
  }

  /** pending + inProgress + resolved never exceeds total, and equals it
      when every stored status is one of the three. */
  lemma StatusCountsBounded(docs: map<string, Issue>)
    ensures var s := StatsOf(docs);
      s.pending + s.inProgress + s.resolved <= s.total
    ensures (forall k :: k in docs ==> IsAllowedStatus(docs[k].status)) ==>
      var s := StatsOf(docs);
      s.pending + s.inProgress + s.resolved == s.total
  {
    var a, b, c := WithStatusSet(docs, OPEN), WithStatusSet(docs, IN_PROGRESS), WithStatusSet(docs, RESOLVED);
    if forall k :: k in docs ==> IsAllowedStatus(docs[k].status) {
      assert a + b + c == docs.Keys;
    }
    PartsCount(a, b, c, docs.Keys);
  }

  /** low + medium + high never exceeds total. */
  lemma SeverityCountsBounded(docs: map<string, Issue>)
    ensures var s := StatsOf(docs);
      s.bySeverity.low + s.bySeverity.medium + s.bySeverity.high <= s.total
  {
    PartsCount(WithSeveritySet(docs, "low"), WithSeveritySet(docs, "medium"), WithSeveritySet(docs, "high"), docs.Keys);
  }
}
