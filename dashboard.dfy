/**
  The dashboard state of frontend/src/App.jsx: the report list, its initial
  copy and the favourites, the three handlers that replace them, and the
  derived `filteredReports` list and `stats` counts.
 */
module Dashboard {
  import opened Wrappers
  import opened Text
  import opened Seqs

  /** A report as the client holds it. */
  datatype ClientReport = ClientReport(
    id: string,
    status: string,
    hazardType: Option<string>,
    description: Option<string>,
    timestamp: int)

  // ------------------------------------------------------- handleAction

  /** `prev.map(r => r.id === id ? {...r, status} : r)` */
  function SetStatusById(reports: seq<ClientReport>, id: string, status: string): (r: seq<ClientReport>)
    ensures |r| == |reports|
    ensures forall i :: 0 <= i < |r| && reports[i].id == id ==> r[i] == reports[i].(status := status)
    ensures forall i :: 0 <= i < |r| && reports[i].id != id ==> r[i] == reports[i]
  {
    if reports == [] then []
    else
      var head := if reports[0].id == id then reports[0].(status := status) else reports[0];
      [head] + SetStatusById(reports[1..], id, status)
  }

  /** Acting twice on the same id leaves only the second status. */
  lemma {:induction false} LastActionWins(reports: seq<ClientReport>, id: string, first: string, second: string)
    ensures SetStatusById(SetStatusById(reports, id, first), id, second) == SetStatusById(reports, id, second)
  {
    if reports != [] {
      LastActionWins(reports[1..], id, first, second);
    }
  }

  // ------------------------------------------------------- toggleFavorite

  /** Removes `id` when present (every copy), appends it otherwise. */
  function Toggle(favorites: seq<string>, id: string): (r: seq<string>)
    ensures id in r <==> id !in favorites
    ensures forall x :: x != id ==> (x in r <==> x in favorites)
    ensures NoDuplicates(favorites) ==> NoDuplicates(r)
  {
    if id in favorites then
      var kept := Filter(favorites, fid => fid != id);
      FilterNoDuplicatesWhen(favorites, fid => fid != id);
      kept
    else favorites + [id]
  }

  lemma FilterNoDuplicatesWhen(s: seq<string>, p: string -> bool)
    ensures NoDuplicates(s) ==> NoDuplicates(Filter(s, p))
  {
    if NoDuplicates(s) {
      FilterNoDuplicates(s, p);
    }
  }

  /** Toggling an absent id twice restores the list exactly. */
  lemma ToggleTwiceRestores(favorites: seq<string>, id: string)
    requires id !in favorites
    ensures Toggle(Toggle(favorites, id), id) == favorites
  {
    var p := (fid: string) => fid != id;
    FilterAppend(favorites, [id], p);
    FilterAll(favorites, p);
  }

  /** Toggling a present id twice keeps the same members but moves the id to
      the end, so the list itself is not restored. */
  lemma ToggleTwiceReorders()
    ensures Toggle(Toggle(["a", "b"], "a"), "a") == ["b", "a"]
  {
    var p := (fid: string) => fid != "a";
    assert Filter(["a", "b"], p) == ["b"] by {
      assert ["a", "b"][1..] == ["b"];
      assert Filter(["b"], p) == ["b"] by { assert ["b"][1..] == []; }
    }
  }

  // ------------------------------------------------------- filteredReports

  /** Only the literal "All" is a wildcard. */
  predicate MatchesStatus(statusFilter: string, r: ClientReport)
  {
    statusFilter == "All" || r.status == statusFilter
  }

  /** `field?.toLowerCase().includes(term.toLowerCase())` */
  predicate FieldMatches(field: Option<string>, term: string)
  {
    field.Some? && Contains(ToLower(field.value), ToLower(term))
  }

  predicate MatchesSearch(searchTerm: string, r: ClientReport)
  {
    FieldMatches(r.hazardType, searchTerm) || FieldMatches(r.description, searchTerm)
  }

  /** The comparator's code-point stand-in for `localeCompare`. */
  function LexCompare(a: string, b: string): (c: int)
    ensures -1 <= c <= 1
    ensures c == 0 <==> a == b
  {
    if a == [] && b == [] then 0
    else if a == [] then -1
    else if b == [] then 1
    else if a[0] < b[0] then -1
    else if a[0] > b[0] then 1
    else
      var c := LexCompare(a[1..], b[1..]);
      assert a == [a[0]] + a[1..] && b == [b[0]] + b[1..];
      c
  }

  lemma {:induction false} LexCompareAntisymmetric(a: string, b: string)
    ensures LexCompare(a, b) == -LexCompare(b, a)
  {
    if a != [] && b != [] && a[0] == b[0] {
      LexCompareAntisymmetric(a[1..], b[1..]);
    }
  }

  /** The comparator passed to `sort`. */
  function Cmp(sortBy: string, a: ClientReport, b: ClientReport): int
  {
    if sortBy == "latest" then b.timestamp - a.timestamp
    else if sortBy == "oldest" then a.timestamp - b.timestamp
    else if sortBy == "status" then LexCompare(a.status, b.status)
    else 0
  }

  /** Any two reports can be ordered one way or the other. */
  lemma CmpTotal(sortBy: string, a: ClientReport, b: ClientReport)
    ensures Cmp(sortBy, a, b) <= 0 || Cmp(sortBy, b, a) <= 0
  {
    LexCompareAntisymmetric(a.status, b.status);
  }

  /** Neighbours are in comparator order. */
  predicate Sorted(sortBy: string, t: seq<ClientReport>)
  {
    forall i :: 0 <= i < |t| - 1 ==> Cmp(sortBy, t[i], t[i + 1]) <= 0
  }

  /** Places `x` before the first element it does not follow, so that equal
      elements keep their original order. */
  function Insert(sortBy: string, x: ClientReport, t: seq<ClientReport>): (r: seq<ClientReport>)
    ensures multiset(r) == multiset(t) + multiset{x}
    ensures |r| == |t| + 1
    ensures t != [] ==> r[0] == x || r[0] == t[0]
  {
    if t == [] then [x]
    else if Cmp(sortBy, x, t[0]) <= 0 then [x] + t
    else
      assert t == [t[0]] + t[1..];
      [t[0]] + Insert(sortBy, x, t[1..])
  }

  /** The stable sort that `Array.prototype.sort` performs. */
  function Sort(sortBy: string, s: seq<ClientReport>): (r: seq<ClientReport>)
    ensures multiset(r) == multiset(s)
    ensures |r| == |s|
  {
    if s == [] then []
    else
      assert s == [s[0]] + s[1..];
      Insert(sortBy, s[0], Sort(sortBy, s[1..]))
  }

  lemma {:induction false} InsertSorted(sortBy: string, x: ClientReport, t: seq<ClientReport>)
    requires Sorted(sortBy, t)
    ensures Sorted(sortBy, Insert(sortBy, x, t))
  {
    if t != [] && Cmp(sortBy, x, t[0]) > 0 {
      CmpTotal(sortBy, x, t[0]);
      InsertSorted(sortBy, x, t[1..]);
      var rest := Insert(sortBy, x, t[1..]);
      assert Cmp(sortBy, t[0], rest[0]) <= 0;
    }
  }

  lemma {:induction false} SortSorted(sortBy: string, s: seq<ClientReport>)
    ensures Sorted(sortBy, Sort(sortBy, s))
  {
    if s != [] {
      SortSorted(sortBy, s[1..]);
      InsertSorted(sortBy, s[0], Sort(sortBy, s[1..]));
    }
  }

  /** A key the comparator does not know leaves the list as it was. */
  lemma {:induction false} SortUnknownKey(sortBy: string, s: seq<ClientReport>)
    requires sortBy != "latest" && sortBy != "oldest" && sortBy != "status"
    ensures Sort(sortBy, s) == s
  {
    if s != [] {
      SortUnknownKey(sortBy, s[1..]);
      assert s == [s[0]] + s[1..];
    }
  }

  function Min(a: int, b: int): int { if a < b then a else b }

  /** `.slice(0, n)` */
  function Take<T>(s: seq<T>, n: nat): (r: seq<T>)
    ensures |r| == Min(n, |s|)
    ensures r <= s
  {
    s[..Min(n, |s|)]
  }

  lemma SortedPrefix(sortBy: string, t: seq<ClientReport>, n: nat)
    requires Sorted(sortBy, t)
    ensures Sorted(sortBy, Take(t, n))
  {
  }

  /** The reports the filter lets through, before sorting. */
  function Selected(reports: seq<ClientReport>, statusFilter: string, searchTerm: string): seq<ClientReport>
  {
    Filter(reports, (r: ClientReport) => MatchesStatus(statusFilter, r) && MatchesSearch(searchTerm, r))
  }

  /** `filteredReports`: at most `visibleCount` reports, each one of `reports`
      that passes both the status filter and the search. */
  function FilteredReports(reports: seq<ClientReport>, statusFilter: string, searchTerm: string,
                           sortBy: string, visibleCount: nat): (r: seq<ClientReport>)
    ensures |r| == Min(visibleCount, |Selected(reports, statusFilter, searchTerm)|)
    ensures forall i :: 0 <= i < |r| ==> r[i] in reports
    ensures forall i :: 0 <= i < |r| ==> MatchesSearch(searchTerm, r[i])
    ensures forall i :: 0 <= i < |r| ==> statusFilter != "All" ==> r[i].status == statusFilter
  {
    var r := Take(Sort(sortBy, Selected(reports, statusFilter, searchTerm)), visibleCount);
    VisibleAreSelected(reports, statusFilter, searchTerm, sortBy, r);
    r
  }

  /** A prefix of the sorted selection holds only reports the filter let through. */
  lemma VisibleAreSelected(reports: seq<ClientReport>, statusFilter: string, searchTerm: string,
                           sortBy: string, r: seq<ClientReport>)
    requires r <= Sort(sortBy, Selected(reports, statusFilter, searchTerm))
    ensures forall i :: 0 <= i < |r| ==>
      r[i] in reports && MatchesStatus(statusFilter, r[i]) && MatchesSearch(searchTerm, r[i])
  {
    var s := Selected(reports, statusFilter, searchTerm);
    var sorted := Sort(sortBy, s);
    forall i | 0 <= i < |r|
      ensures r[i] in reports && MatchesStatus(statusFilter, r[i]) && MatchesSearch(searchTerm, r[i])
    {
      assert r[i] == sorted[i];
      assert sorted[i] in multiset(s);
      var j :| 0 <= j < |s| && s[j] == r[i];
    }
  }

  /** Under "latest" the visible reports run from newest to oldest. */
  lemma LatestFirst(reports: seq<ClientReport>, statusFilter: string, searchTerm: string, visibleCount: nat)
    ensures var r := FilteredReports(reports, statusFilter, searchTerm, "latest", visibleCount);
      forall i :: 0 <= i < |r| - 1 ==> r[i].timestamp >= r[i + 1].timestamp
  {
    var s := Selected(reports, statusFilter, searchTerm);
    SortSorted("latest", s);
    SortedPrefix("latest", Sort("latest", s), visibleCount);
  }

  /** Under "oldest" the visible reports run from oldest to newest. */
  lemma OldestFirst(reports: seq<ClientReport>, statusFilter: string, searchTerm: string, visibleCount: nat)
    ensures var r := FilteredReports(reports, statusFilter, searchTerm, "oldest", visibleCount);
      forall i :: 0 <= i < |r| - 1 ==> r[i].timestamp <= r[i + 1].timestamp
  {
    var s := Selected(reports, statusFilter, searchTerm);
    SortSorted("oldest", s);
    SortedPrefix("oldest", Sort("oldest", s), visibleCount);
  }

  /** Under "status" the visible reports are in status order. */
  lemma ByStatus(reports: seq<ClientReport>, statusFilter: string, searchTerm: string, visibleCount: nat)
    ensures var r := FilteredReports(reports, statusFilter, searchTerm, "status", visibleCount);
      forall i :: 0 <= i < |r| - 1 ==> LexCompare(r[i].status, r[i + 1].status) <= 0
  {
    var s := Selected(reports, statusFilter, searchTerm);
    SortSorted("status", s);
    SortedPrefix("status", Sort("status", s), visibleCount);
  }

  /** Any other sort key keeps the filtered order. */
  lemma OtherKeyKeepsOrder(reports: seq<ClientReport>, statusFilter: string, searchTerm: string,
                           sortBy: string, visibleCount: nat)
    requires sortBy != "latest" && sortBy != "oldest" && sortBy != "status"
    ensures FilteredReports(reports, statusFilter, searchTerm, sortBy, visibleCount)
         == Take(Selected(reports, statusFilter, searchTerm), visibleCount)
  {
    SortUnknownKey(sortBy, Selected(reports, statusFilter, searchTerm));
  }

  /** Every report that passes the filter is shown when there is room. */
  lemma NothingHiddenWithinLimit(reports: seq<ClientReport>, statusFilter: string, searchTerm: string,
                                 sortBy: string, visibleCount: nat, x: ClientReport)
    requires x in reports && MatchesStatus(statusFilter, x) && MatchesSearch(searchTerm, x)
    requires |Selected(reports, statusFilter, searchTerm)| <= visibleCount
    ensures x in FilteredReports(reports, statusFilter, searchTerm, sortBy, visibleCount)
  {
    var s := Selected(reports, statusFilter, searchTerm);
    var i :| 0 <= i < |reports| && reports[i] == x;
    assert x in s;
    assert x in multiset(Sort(sortBy, s));
  }

  // ------------------------------------------------------- stats

  datatype Stats = Stats(pending: nat, approved: nat, rejected: nat)

  function CountStatus(reports: seq<ClientReport>, status: string): nat
  {
    |Filter(reports, (r: ClientReport) => r.status == status)|
  }

  lemma {:induction false} CountsBounded(reports: seq<ClientReport>)
    ensures CountStatus(reports, "Pending") + CountStatus(reports, "Approved")
          + CountStatus(reports, "Rejected") <= |reports|
  {
    if reports != [] {
      CountsBounded(reports[1..]);
    }
  }

  /** `stats`: the three counts never add up to more than the list. */
  function ComputeStats(reports: seq<ClientReport>): (s: Stats)
    ensures s.pending + s.approved + s.rejected <= |reports|
  {
    CountsBounded(reports);
    Stats(CountStatus(reports, "Pending"), CountStatus(reports, "Approved"), CountStatus(reports, "Rejected"))
  }

  /** Reports whose status differs from all three labels are counted nowhere:
      the server's lower-case "pending" and the "New" of the mock service
      among them. */
  lemma {:induction false} UnlabelledNotCounted(reports: seq<ClientReport>)
    requires forall i :: 0 <= i < |reports| ==>
      reports[i].status != "Pending" && reports[i].status != "Approved" && reports[i].status != "Rejected"
    ensures ComputeStats(reports) == Stats(0, 0, 0)
  {
    if reports != [] {
      UnlabelledNotCounted(reports[1..]);
    }
  }

  // ------------------------------------------------------- component state

  class DashboardState {
    var reports: seq<ClientReport>
    var initialReports: seq<ClientReport>
    var favorites: seq<string>
    var statusFilter: string
    var searchTerm: string
    var sortBy: string
    var visibleCount: nat

    constructor ()
      ensures reports == [] && initialReports == [] && favorites == []
      ensures statusFilter == "All" && searchTerm == "" && sortBy == "latest" && visibleCount == 5
    {
      reports, initialReports, favorites := [], [], [];
      statusFilter, searchTerm, sortBy, visibleCount := "All", "", "latest", 5;
    }

    /** The list the feed shows. */
    function Visible(): seq<ClientReport>
      reads this
    {
      FilteredReports(reports, statusFilter, searchTerm, sortBy, visibleCount)
    }

    /** `handleAction`: only the matching reports' status changes. */
    method HandleAction(id: string, status: string)
      modifies this
      ensures reports == SetStatusById(old(reports), id, status)
      ensures initialReports == old(initialReports) && favorites == old(favorites)
      ensures statusFilter == old(statusFilter) && searchTerm == old(searchTerm)
      ensures sortBy == old(sortBy) && visibleCount == old(visibleCount)
    {
      reports := SetStatusById(reports, id, status);
    }

    /** `toggleFavorite` */
    method ToggleFavorite(id: string)
      modifies this
      ensures favorites == Toggle(old(favorites), id)
      ensures reports == old(reports) && initialReports == old(initialReports)
      ensures statusFilter == old(statusFilter) && searchTerm == old(searchTerm)
      ensures sortBy == old(sortBy) && visibleCount == old(visibleCount)
    {
      favorites := Toggle(favorites, id);
    }

    /** `handleAddReport`: the new report goes first in both lists. */
    method HandleAddReport(r: ClientReport)
      modifies this
      ensures reports == [r] + old(reports) && initialReports == [r] + old(initialReports)
      ensures favorites == old(favorites)
      ensures statusFilter == old(statusFilter) && searchTerm == old(searchTerm)
      ensures sortBy == old(sortBy) && visibleCount == old(visibleCount)
    {
      reports := [r] + reports;
      initialReports := [r] + initialReports;
    }
  }
}
