/** The community feed: the searchable list of reports and the comment
    threads, a map from report id to its list of comments. */
module Community {
  import opened Common
  import opened Reports

  datatype Comment = Comment(id: int, user: string, text: string, time: string)

  type CommentMap = map<int, seq<Comment>>

  const InitialComments: CommentMap := map[
    1 := [Comment(1, "Priya S.", "I saw this too! It's been like this for 3 days.", "2 hours ago"),
          Comment(2, "Raj K.", "Reported to local authorities as well.", "1 hour ago")],
    2 := [Comment(3, "Anita M.", "This happens every monsoon. Need permanent solution.", "3 hours ago")]
  ]

  /** `comments[id] || []`: the thread of a report, empty when it has none. */
  function CommentsOf(m: CommentMap, reportId: int): (r: seq<Comment>)
    ensures reportId !in m ==> r == []
    ensures reportId in m ==> r == m[reportId]
  {
    if reportId in m then m[reportId] else []
  }

  /** The count shown above a thread. */
  function CommentCount(m: CommentMap, reportId: int): (n: nat)
    ensures n == 0 <==> reportId !in m || m[reportId] == []
  {
    |CommentsOf(m, reportId)|
  }

  /** The seeded threads: two comments on report 1, one on report 2, and
      none on any other report. */
  lemma InitialCommentCounts(reportId: int)
    ensures CommentCount(InitialComments, 1) == 2 && CommentCount(InitialComments, 2) == 1
    ensures reportId != 1 && reportId != 2 ==> CommentCount(InitialComments, reportId) == 0
  {
  }

  /** `{ ...prev, [id]: [...(prev[id] || []), c] }`: the comment goes at the
      end of that report's thread, which is created if absent; every other
      thread is untouched. */
  function AppendComment(m: CommentMap, reportId: int, c: Comment): (r: CommentMap)
    ensures r.Keys == m.Keys + {reportId}
    ensures r[reportId] == CommentsOf(m, reportId) + [c]
    ensures forall k :: k in m && k != reportId ==> r[k] == m[k]
    ensures CommentCount(r, reportId) == CommentCount(m, reportId) + 1
    ensures forall k :: k != reportId ==> CommentCount(r, k) == CommentCount(m, k)
  {
    m[reportId := CommentsOf(m, reportId) + [c]]
  }

  /** The reports whose title or location contains the search term; there
      is no status filter. */
  function SearchReports(reports: seq<Report>, searchTerm: string): (r: seq<Report>)
    ensures forall i :: 0 <= i < |r| ==> r[i] in reports && MatchesSearch(r[i], searchTerm)
    ensures forall i :: 0 <= i < |reports| && MatchesSearch(reports[i], searchTerm) ==> reports[i] in r
    ensures Subsequence(r, reports)
  {
    var p := (x: Report) => MatchesSearch(x, searchTerm);
    FilterIsSubsequence(reports, p);
    Filter(reports, p)
  }

  /** An empty search keeps every report, in order. */
  lemma EmptySearchKeepsAll(reports: seq<Report>)
    ensures SearchReports(reports, "") == reports
  {
    forall i | 0 <= i < |reports| ensures MatchesSearch(reports[i], "") {
      EmptySearchMatches(reports[i]);
    }
    FilterAllPass(reports, x => MatchesSearch(x, ""));
  }

  /** The feed's status badge: reported, in_progress and resolved have their
      own classes, anything else is gray. */
  function StatusColor(status: string): (c: string)
    ensures c == "bg-gray-100 text-gray-800 border-gray-200" <==> status !in {"reported", "in_progress", "resolved"}
  {
    if status == "reported" then "bg-yellow-100 text-yellow-800 border-yellow-200"
    else if status == "in_progress" then "bg-blue-100 text-blue-800 border-blue-200"
    else if status == "resolved" then "bg-green-100 text-green-800 border-green-200"
    else "bg-gray-100 text-gray-800 border-gray-200"
  }

  /** The three known statuses get three different badges. */
  lemma StatusColorsDistinct()
    ensures StatusColor("reported") != StatusColor("in_progress")
    ensures StatusColor("reported") != StatusColor("resolved")
    ensures StatusColor("in_progress") != StatusColor("resolved")
  {
  }

  class CommunityPage {
    var searchTerm: string
    var newComment: string
    var comments: CommentMap

    constructor ()
      ensures searchTerm == "" && newComment == "" && comments == InitialComments
    {
      searchTerm := "";
      newComment := "";
      comments := InitialComments;
    }

    /** The feed on screen: the reports matching the search, in order. */
    function FilteredReports(): (r: seq<Report>)
      reads this
      ensures Subsequence(r, MockReports)
      ensures forall i :: 0 <= i < |r| ==> MatchesSearch(r[i], searchTerm)
    {
      SearchReports(MockReports, searchTerm)
    }

    method SetNewComment(text: string)
      modifies this`newComment
      ensures newComment == text
      ensures searchTerm == old(searchTerm) && comments == old(comments)
    {
      newComment := text;
    }

    /** Ignores a blank draft. Otherwise appends it, as typed, to the
        report's thread and clears the draft. The clock value becomes the
        comment's id. */
    method HandleAddComment(reportId: int, now: int)
      modifies this`comments, this`newComment
      ensures IsBlank(old(newComment)) ==>
        comments == old(comments) && newComment == old(newComment)
      ensures !IsBlank(old(newComment)) ==>
        comments == AppendComment(old(comments), reportId, Comment(now, "You", old(newComment), "Just now")) &&
        newComment == ""
    {
      if IsBlank(newComment) {
        return;
      }
      var comment := Comment(now, "You", newComment, "Just now");
      comments := AppendComment(comments, reportId, comment);
      newComment := "";
    }

    /** Only shows a message: no state changes. */
    method HandleUpvote(reportId: int)
      ensures unchanged(this)
    {
    }
  }

  /** A comment on report 3, which has no thread yet, starts one; a
      white-space draft afterwards is ignored. */
  method CommentScenario() returns (count3: nat, count1: nat, draft: string)
    ensures count3 == 1 && count1 == 2 && draft == " "
  {
    var page := new CommunityPage();
    page.SetNewComment("Still broken");
    assert !IsJsWhitespace("Still broken"[0]);
    page.HandleAddComment(3, 1700000000000);
    page.SetNewComment(" ");
    assert IsBlank(" ");
    page.HandleAddComment(3, 1700000000001);
    count3, count1, draft := CommentCount(page.comments, 3), CommentCount(page.comments, 1), page.newComment;
  }
}
