/** The administrator's dashboard: the report table with its status filter
    and text search, the status and priority badges, the ward score badge,
    and the two leaderboards, which sort the ward and department fixtures in
    place. The status, assignment and escalation actions only log. */
module AdminDashboard {
  import opened Common
  import opened Reports
  import Community

  datatype Ward = Ward(id: string, name: string, reports: int, resolved: int, score: int)

  datatype Department = Department(id: string, name: string, reports: int, avgTime: string, efficiency: int)

  function WardScore(w: Ward): int { w.score }

  function DepartmentEfficiency(d: Department): int { d.efficiency }

  const Wards: seq<Ward> := [
    Ward("ward-1", "Ward 1 - Koramangala", 45, 38, 92),
    Ward("ward-2", "Ward 2 - Indiranagar", 52, 44, 89),
    Ward("ward-3", "Ward 3 - Whitefield", 38, 30, 85),
    Ward("ward-4", "Ward 4 - BTM Layout", 67, 48, 82)
  ]

  const Departments: seq<Department> := [
    Department("sanitation", "Sanitation Dept", 89, "2.1 days", 94),
    Department("water", "Water Board", 45, "1.8 days", 97),
    Department("health", "Public Health", 23, "3.2 days", 87)
  ]

  const AllStatuses: string := "all"

  /** The filter state of the page. The ward and department selections are
      kept but no filter reads them. */
  datatype Filters = Filters(selectedFilter: string, searchTerm: string, selectedWard: string, selectedDepartment: string)

  const InitialFilters: Filters := Filters(AllStatuses, "", "all", "all")

  /** A report is listed when its status is the selected one (any status for
      "all") and its title or location contains the search term. */
  predicate ReportListed(report: Report, f: Filters) {
    (f.selectedFilter == AllStatuses || report.status == f.selectedFilter) && MatchesSearch(report, f.searchTerm)
  }

  function FilterReports(reports: seq<Report>, f: Filters): (r: seq<Report>)
    ensures forall i :: 0 <= i < |r| ==> r[i] in reports
    ensures forall i :: 0 <= i < |r| ==>
      (f.selectedFilter == AllStatuses || r[i].status == f.selectedFilter) && MatchesSearch(r[i], f.searchTerm)
    ensures forall i :: 0 <= i < |reports| ==>
      ((f.selectedFilter == AllStatuses || reports[i].status == f.selectedFilter) && MatchesSearch(reports[i], f.searchTerm)
       ==> reports[i] in r)
  {
    Filter(reports, x => ReportListed(x, f))
  }

  /** The table keeps the order of the report list. */
  lemma FilterReportsKeepsOrder(reports: seq<Report>, f: Filters)
    ensures Subsequence(FilterReports(reports, f), reports)
  {
    FilterIsSubsequence(reports, x => ReportListed(x, f));
  }

  /** Selecting a ward or a department does not change the table. */
  lemma FilterIgnoresWardAndDepartment(reports: seq<Report>, f: Filters, ward: string, department: string)
    ensures FilterReports(reports, f.(selectedWard := ward, selectedDepartment := department)) == FilterReports(reports, f)
  {
    var g := f.(selectedWard := ward, selectedDepartment := department);
    FilterSamePredicate(reports, x => ReportListed(x, g), x => ReportListed(x, f));
  }

  /** With the "all" status the table is exactly the community feed's
      search result. */
  lemma AllStatusesIsCommunitySearch(reports: seq<Report>, f: Filters)
    requires f.selectedFilter == AllStatuses
    ensures FilterReports(reports, f) == Community.SearchReports(reports, f.searchTerm)
  {
    FilterSamePredicate(reports, x => ReportListed(x, f), x => MatchesSearch(x, f.searchTerm));
  }

  const GrayStatus: string := "bg-gray-100 text-gray-800 border-gray-200"

  /** The status badge of the report table, which unlike the community feed
      also knows under_review. */
  function StatusColor(status: string): (c: string)
    ensures c == GrayStatus <==> status !in {"reported", "under_review", "in_progress", "resolved"}
  {
    if status == "reported" then "bg-yellow-100 text-yellow-800 border-yellow-200"
    else if status == "under_review" then "bg-blue-100 text-blue-800 border-blue-200"
    else if status == "in_progress" then "bg-purple-100 text-purple-800 border-purple-200"
    else if status == "resolved" then "bg-green-100 text-green-800 border-green-200"
    else GrayStatus
  }

  /** Each known status has a badge of its own. */
  lemma StatusColorInjective(s: string, t: string)
    requires s in {"reported", "under_review", "in_progress", "resolved"}
    requires t in {"reported", "under_review", "in_progress", "resolved"}
    ensures StatusColor(s) == StatusColor(t) <==> s == t
  {
  }

  const GrayPriority: string := "text-gray-600 bg-gray-50 border-gray-200"

  function PriorityColor(severity: string): (c: string)
    ensures c == GrayPriority <==> severity !in {"high", "medium", "low"}
  {
    if severity == "high" then "text-red-600 bg-red-50 border-red-200"
    else if severity == "medium" then "text-yellow-600 bg-yellow-50 border-yellow-200"
    else if severity == "low" then "text-green-600 bg-green-50 border-green-200"
    else GrayPriority
  }

  /** Each known severity has a badge of its own. */
  lemma PriorityColorInjective(s: string, t: string)
    requires s in {"high", "medium", "low"} && t in {"high", "medium", "low"}
    ensures PriorityColor(s) == PriorityColor(t) <==> s == t
  {
  }

  /** The ward score badge: green from 90, yellow from 80, red below. */
  function WardBadge(score: int): (b: Band)
    ensures b == Green <==> score >= 90
    ensures b == Yellow <==> 80 <= score < 90
    ensures b == Red <==> score < 80
  {
    Banded(score, 90, 80)
  }

  /** A better ward score never gets a worse badge. */
  lemma WardBadgeMonotone(a: int, b: int)
    requires a <= b
    ensures WardBadge(a).Rank() <= WardBadge(b).Rank()
  {
    BandedMonotone(a, b, 90, 80);
  }

  /** Non-increasing by key. */
  ghost predicate SortedDescBy<T>(s: seq<T>, key: T -> int) {
    forall i, j :: 0 <= i < j < |s| ==> key(s[i]) >= key(s[j])
  }

  /** Sorted except that the element at j may be larger than those before
      it: the state of an insertion step while the element sinks towards
      the front. */
  ghost predicate SortedExcept<T>(s: seq<T>, n: int, j: int, key: T -> int) {
    n <= |s| && forall p, q :: 0 <= p < q < n && q != j ==> key(s[p]) >= key(s[q])
  }

  /** Exchanges two neighbours; nothing else moves. */
  method SwapWithPrevious<T>(a: array<T>, j: int)
    requires 0 < j < a.Length
    modifies a
    ensures a[..] == old(a[..])[j - 1 := old(a[j])][j := old(a[j - 1])]
    ensures multiset(a[..]) == multiset(old(a[..]))
  {
    a[j - 1], a[j] := a[j], a[j - 1];
  }

  /** Moves a[i] forwards past every smaller neighbour, so that a[..i+1]
      is sorted when a[..i] was. */
  method InsertDescending<T>(a: array<T>, i: int, key: T -> int)
    requires 0 <= i < a.Length
    requires SortedDescBy(a[..i], key)
    modifies a
    ensures SortedDescBy(a[..i + 1], key)
    ensures multiset(a[..]) == multiset(old(a[..]))
    ensures a[i + 1..] == old(a[i + 1..])
  {
    var j := i;
    assert SortedExcept(a[..], i + 1, j, key) by {
      forall p, q | 0 <= p < q < i + 1 && q != j ensures key(a[..][p]) >= key(a[..][q]) {
        assert a[..][p] == a[..i][p] && a[..][q] == a[..i][q];
      }
    }
    while j > 0 && key(a[j - 1]) < key(a[j])
      invariant 0 <= j <= i
      invariant SortedExcept(a[..], i + 1, j, key)
      invariant multiset(a[..]) == multiset(old(a[..]))
      invariant a[i + 1..] == old(a[i + 1..])
    {
      ghost var before := a[..];
      SwapWithPrevious(a, j);
      j := j - 1;
      assert SortedExcept(a[..], i + 1, j, key) by {
        forall p, q | 0 <= p < q < i + 1 && q != j ensures key(a[..][p]) >= key(a[..][q]) {
          if q == j + 1 && p < j {
            assert SortedExcept(before, i + 1, j + 1, key);
            assert key(before[p]) >= key(before[j]);
          }
        }
      }
    }
    ghost var prefix := a[..i + 1];
    assert SortedDescBy(prefix, key) by {
      forall p, q | 0 <= p < q < i + 1 ensures key(prefix[p]) >= key(prefix[q]) {
        assert prefix[p] == a[..][p] && prefix[q] == a[..][q];
        if q == j && p < j - 1 {
          assert key(a[..][p]) >= key(a[..][j - 1]);
        }
      }
    }
  }

  /** `a.sort((x, y) => key(y) - key(x))`, in place: the array ends up a
      permutation of its old contents, in non-increasing key order. */
  method SortDescendingBy<T>(a: array<T>, key: T -> int)
    modifies a
    ensures SortedDescBy(a[..], key)
    ensures multiset(a[..]) == multiset(old(a[..]))
  {
    var i := 0;
    while i < a.Length
      invariant 0 <= i <= a.Length
      invariant SortedDescBy(a[..i], key)
      invariant multiset(a[..]) == multiset(old(a[..]))
    {
      InsertDescending(a, i, key);
      i := i + 1;
    }
    assert a[..a.Length] == a[..];
  }

  /** The first element of a sorted permutation is one of the original
      elements, and it has the largest key of them all. */
  lemma SortedHeadIsMaximum<T>(s: seq<T>, original: seq<T>, key: T -> int)
    requires SortedDescBy(s, key) && multiset(s) == multiset(original) && |s| > 0
    ensures exists k :: 0 <= k < |original| && original[k] == s[0]
    ensures forall i :: 0 <= i < |original| ==> key(original[i]) <= key(s[0])
  {
    assert s[0] in multiset(original);
    forall i | 0 <= i < |original| ensures key(original[i]) <= key(s[0]) {
      assert original[i] in multiset(s);
      var k :| 0 <= k < |s| && s[k] == original[i];
    }
  }

  /** The "Cleanest Wards" leaderboard: the wards by score, best first. */
  method CleanestWards(wards: array<Ward>)
    modifies wards
    ensures SortedDescBy(wards[..], WardScore)
    ensures multiset(wards[..]) == multiset(old(wards[..]))
  {
    SortDescendingBy(wards, WardScore);
  }

  /** The "Most Efficient Departments" leaderboard: by efficiency, best first. */
  method MostEfficientDepartments(departments: array<Department>)
    modifies departments
    ensures SortedDescBy(departments[..], DepartmentEfficiency)
    ensures multiset(departments[..]) == multiset(old(departments[..]))
  {
    SortDescendingBy(departments, DepartmentEfficiency);
  }

  /** The ward leaderboard of the fixtures is headed by the best score, 92. */
  method WardLeaderboardScenario() returns (top: Ward, count: nat)
    ensures top.score == 92 && count == 4
  {
    var wards := new Ward[] [Wards[0], Wards[1], Wards[2], Wards[3]];
    assert wards[..] == Wards;
    CleanestWards(wards);
    SortedHeadIsMaximum(wards[..], Wards, WardScore);
    var k :| 0 <= k < |Wards| && Wards[k] == wards[0];
    assert WardScore(Wards[0]) == 92;
    top, count := wards[0], wards.Length;
  }

  /** The department leaderboard of the fixtures is headed by the Water
      Board's 97. */
  method DepartmentLeaderboardScenario() returns (top: Department)
    ensures top.efficiency == 97
  {
    var departments := new Department[] [Departments[0], Departments[1], Departments[2]];
    assert departments[..] == Departments;
    MostEfficientDepartments(departments);
    SortedHeadIsMaximum(departments[..], Departments, DepartmentEfficiency);
    var k :| 0 <= k < |Departments| && Departments[k] == departments[0];
    assert DepartmentEfficiency(Departments[1]) == 97;
    top := departments[0];
  }

  class AdminDashboardPage {
    var filters: Filters

    /** The first render lists every report, in order. */
    constructor ()
      ensures filters == InitialFilters
      ensures FilteredReports() == MockReports
    {
      filters := InitialFilters;
      AllStatusesIsCommunitySearch(MockReports, InitialFilters);
      Community.EmptySearchKeepsAll(MockReports);
    }

    /** The report table: the reports the filters list, in order. */
    function FilteredReports(): (r: seq<Report>)
      reads this
      ensures Subsequence(r, MockReports)
      ensures forall i :: 0 <= i < |r| ==> ReportListed(r[i], filters)
    {
      FilterReportsKeepsOrder(MockReports, filters);
      FilterReports(MockReports, filters)
    }

    method SetSelectedFilter(status: string)
      modifies this`filters
      ensures filters == old(filters).(selectedFilter := status)
      ensures status == AllStatuses ==> FilteredReports() == Community.SearchReports(MockReports, filters.searchTerm)
    {
      filters := filters.(selectedFilter := status);
      if status == AllStatuses {
        AllStatusesIsCommunitySearch(MockReports, filters);
      }
    }

    method SetSearchTerm(term: string)
      modifies this`filters
      ensures filters == old(filters).(searchTerm := term)
      ensures filters.selectedFilter == AllStatuses ==> FilteredReports() == Community.SearchReports(MockReports, term)
    {
      filters := filters.(searchTerm := term);
      if filters.selectedFilter == AllStatuses {
        AllStatusesIsCommunitySearch(MockReports, filters);
      }
    }

    method SetSelectedWard(ward: string)
      modifies this`filters
      ensures filters == old(filters).(selectedWard := ward)
      ensures FilteredReports() == old(FilteredReports())
    {
      FilterIgnoresWardAndDepartment(MockReports, filters, ward, filters.selectedDepartment);
      filters := filters.(selectedWard := ward);
    }

    method SetSelectedDepartment(department: string)
      modifies this`filters
      ensures filters == old(filters).(selectedDepartment := department)
      ensures FilteredReports() == old(FilteredReports())
    {
      FilterIgnoresWardAndDepartment(MockReports, filters, filters.selectedWard, department);
      filters := filters.(selectedDepartment := department);
    }

    /** Logs only. */
    method HandleStatusChange(reportId: int, newStatus: string)
      ensures unchanged(this)
    {
    }

    /** Logs only. */
    method AssignToVolunteer(reportId: int)
      ensures unchanged(this)
    {
    }

    /** Logs only. */
    method EscalateReport(reportId: int)
      ensures unchanged(this)
    {
    }
  }
}
