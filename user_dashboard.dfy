/** The citizen dashboard page: the signed-in user's own issues out of the
    public list, three counts over them and the first four. */
module UserDashboard {
  import opened Base
  import opened IssueModel
  import opened StoreQuery
  import IssueStore

  /** The counts the page shows. */
  datatype UserStats = UserStats(total: nat, resolved: nat, inProgress: nat)

  const ZERO := UserStats(0, 0, 0)
  const RECENT_COUNT := 4

  /** `a` is `b` with some entries removed, the rest in their order. */
  predicate IsSubsequence(a: seq<Doc>, b: seq<Doc>) {
    if a == [] then true
    else if b == [] then false
    else if a[0] == b[0] then IsSubsequence(a[1..], b[1..])
    else IsSubsequence(a, b[1..])
  }

  /** `allIssues.filter(issue => issue.userId === userId)`. */
  function UserIssues(all: seq<Doc>, userId: string): (r: seq<Doc>)
    ensures |r| <= |all|
    ensures forall d :: d in r <==> d in all && d.data.userId == userId
    ensures IsSubsequence(r, all)
  {
    if all == [] then []
    else
      var rest := UserIssues(all[1..], userId);
      assert forall d :: d in all <==> d == all[0] || d in all[1..];
      if all[0].data.userId == userId then [all[0]] + rest else rest
  }

  /** The number of entries with the given status. */
  function CountStatus(s: seq<Doc>, status: string): (n: nat)
    ensures n <= |s|
  {
    if s == [] then 0
    else (if s[0].data.status == status then 1 else 0) + CountStatus(s[1..], status)
  }

  function Stats(all: seq<Doc>, userId: string): UserStats {
    var mine := UserIssues(all, userId);
    UserStats(|mine|, CountStatus(mine, RESOLVED), CountStatus(mine, IN_PROGRESS))
  }

  /** Two different statuses never count the same entry twice. */
  lemma {:induction false} TwoStatusesBounded(s: seq<Doc>, a: string, b: string)
    requires a != b
    ensures CountStatus(s, a) + CountStatus(s, b) <= |s|
  {
    if s != [] {
      TwoStatusesBounded(s[1..], a, b);
    }
  }

  /** resolved + inProgress never exceeds total. */
  lemma StatsBounded(all: seq<Doc>, userId: string)
    ensures var st := Stats(all, userId);
      st.resolved + st.inProgress <= st.total && st.total <= |all|
  {
    TwoStatusesBounded(UserIssues(all, userId), RESOLVED, IN_PROGRESS);
  }

  /** `userIssues.slice(0, 4)`: the first four of the user's issues in the
      order the server sent them, or all of them when there are fewer. */
  function Recent(all: seq<Doc>, userId: string): (r: seq<Doc>)
    ensures var mine := UserIssues(all, userId);
      && |r| == (if |mine| < RECENT_COUNT then |mine| else RECENT_COUNT)
      && r == mine[..|r|]
  {
    var mine := UserIssues(all, userId);
    if |mine| < RECENT_COUNT then mine else mine[..RECENT_COUNT]
  }

  /** A subsequence of a list with distinct ids has distinct ids. */
  lemma {:induction false} UserIssuesDistinct(all: seq<Doc>, userId: string)
    requires DistinctIds(all)
    ensures DistinctIds(UserIssues(all, userId))
  {
    if all != [] {
      assert DistinctIds(all[1..]) by {
        forall i, j | 0 <= i < j < |all[1..]| ensures all[1..][i].id != all[1..][j].id {
          assert all[1..][i] == all[i + 1] && all[1..][j] == all[j + 1];
        }
      }
      UserIssuesDistinct(all[1..], userId);
      var rest := UserIssues(all[1..], userId);
      if all[0].data.userId == userId {
        forall d | d in rest ensures d.id != all[0].id {
          var k :| 0 <= k < |all[1..]| && all[1..][k] == d;
          assert d == all[k + 1];
        }
      }
    }
  }

  /** Over the public list the page's total is the number of stored issues
      the user filed. */
  lemma TotalMatchesStore(r: seq<Doc>, docs: map<string, Issue>, userId: string)
    requires IsListing(r, docs, IssueStore.NO_FILTERS, "createdAt", true)
    ensures Stats(r, userId).total == |set k | k in docs && docs[k].userId == userId|
  {
    var mine := UserIssues(r, userId);
    UserIssuesDistinct(r, userId);
    IdsCount(mine);
    var ids := set d | d in mine :: d.id;
    var keys := set k | k in docs && docs[k].userId == userId;
    forall k | k in keys ensures k in ids {
      assert Doc(k, docs[k]) in r;
      assert Doc(k, docs[k]) in mine;
    }
    assert ids == keys;
  }

  /** The page's state: the counts, the recent issues and the spinner. */
  datatype Page = Page(stats: UserStats, recent: seq<Doc>, loading: bool)

  const INITIAL := Page(ZERO, [], true)

  /** `fetchDashboardData` once the public list arrived (`Some`) or the
      request failed (`None`): a failure keeps the counts and the recent
      list and only turns the spinner off. */
  function AfterFetch(p: Page, response: Option<seq<Doc>>, userId: string): (r: Page)
    ensures !r.loading
    ensures response.None? ==> r.stats == p.stats && r.recent == p.recent
    ensures response.Some? ==>
      r.stats == Stats(response.value, userId) && r.recent == Recent(response.value, userId)
  {
    match response
    case None => p.(loading := false)
    case Some(all) => Page(Stats(all, userId), Recent(all, userId), false)
  }
}
