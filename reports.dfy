/** The civic reports listed by the community feed and the admin dashboard,
    with the development fixtures and the text search both pages apply. */
module Reports {
  import opened Common

  datatype Report = Report(
    id: int, title: string, description: string, location: string, status: string,
    category: string, createdAt: string, upvotes: int, comments: int)

  const MockReports: seq<Report> := [
    Report(1, "Overflowing Garbage Bin", "The bin has not been cleared for days.",
           "Sector 15, Market Road", "reported", "garbage", "2025-09-25T10:00:00Z", 12, 2),
    Report(2, "Waterlogging on Main Street", "Heavy rains have caused severe waterlogging.",
           "Main Street, Near Park", "in_progress", "water", "2025-09-26T08:30:00Z", 8, 1),
    Report(3, "Broken Public Toilet", "Door broken and facilities not working",
           "Temple Road, Sector 9", "resolved", "broken toilet", "2025-09-27T20:15:00Z", 5, 0)
  ]

  /** The search of both pages: the title or the location contains the term,
      ignoring case. */
  predicate MatchesSearch(report: Report, searchTerm: string) {
    MatchesIgnoringCase(report.title, searchTerm) || MatchesIgnoringCase(report.location, searchTerm)
  }

  /** The empty search term matches every report. */
  lemma EmptySearchMatches(report: Report)
    ensures MatchesSearch(report, "")
  {
    ContainsEmpty(Lower(report.title));
  }
}
