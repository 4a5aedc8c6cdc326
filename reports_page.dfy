/**
 * The reports page (src/app/dashboard/reports/page.tsx): answering a report, the status, type
 * and search filters, the summary counts, the status badge text, the response buttons and the
 * reporter's initials.
 */
module ReportsPage {
  import opened Wrappers
  import opened Text
  import opened Lists

  /** A user's report; the optional fields are filled in when an administrator answers it. */
  datatype Report = Report(
    id: string,
    userId: string,
    userName: string,
    userEmail: string,
    reportType: string,
    subject: string,
    description: string,
    status: string,
    priority: string,
    createdAt: string,
    updatedAt: Option<string>,
    adminResponse: Option<string>,
    adminId: Option<string>,
    adminName: Option<string>,
    responseDate: Option<string>)

  const Responder := "Current Admin"

  /** `{ ...report, status, adminResponse, adminName: 'Current Admin', responseDate }` */
  function Answered(report: Report, status: string, text: string, now: string): Report {
    report.(status := status, adminResponse := Some(text), adminName := Some(Responder), responseDate := Some(now))
  }

  /** `reports.map(report => report.id === reportId ? answered : report)` */
  function RespondedReports(reports: seq<Report>, reportId: string, status: string, text: string, now: string): seq<Report> {
    if reports == [] then []
    else [if reports[0].id == reportId then Answered(reports[0], status, text, now) else reports[0]] +
         RespondedReports(reports[1..], reportId, status, text, now)
  }

  /**
   * Answering keeps the length and order of the list: the reports with the given id get the
   * new status, the response text, "Current Admin" and the time, every other field of theirs
   * (user, priority, dates, admin id) is kept, and all other reports are untouched.
   */
  lemma {:induction false} RespondedReportsChangesOnlyMatching(reports: seq<Report>, reportId: string,
                                                               status: string, text: string, now: string)
    ensures var r := RespondedReports(reports, reportId, status, text, now);
            |r| == |reports| &&
            (forall i | 0 <= i < |r| && reports[i].id != reportId :: r[i] == reports[i]) &&
            (forall i | 0 <= i < |r| && reports[i].id == reportId ::
               r[i] == Answered(reports[i], status, text, now) &&
               r[i].status == status && r[i].adminResponse == Some(text) &&
               r[i].adminName == Some(Responder) && r[i].responseDate == Some(now) &&
               r[i].id == reports[i].id && r[i].userName == reports[i].userName &&
               r[i].subject == reports[i].subject && r[i].description == reports[i].description &&
               r[i].reportType == reports[i].reportType)
  {
    if reports != [] {
      RespondedReportsChangesOnlyMatching(reports[1..], reportId, status, text, now);
      var r := RespondedReports(reports, reportId, status, text, now);
      var rest := RespondedReports(reports[1..], reportId, status, text, now);
      forall i | 1 <= i < |r|
        ensures r[i] == rest[i - 1] && reports[i] == reports[1..][i - 1]
      {
      }
    }
  }

  /** The search box: empty, or subject, reporter name or description contain the term ignoring case. */
  predicate SearchMatches(r: Report, term: string) {
    term == "" || ContainsIgnoreCase(r.subject, term) || ContainsIgnoreCase(r.userName, term) ||
    ContainsIgnoreCase(r.description, term)
  }

  predicate IsShown(r: Report, status: string, reportType: string, term: string) {
    (status == "all" || r.status == status) && (reportType == "all" || r.reportType == reportType) &&
    SearchMatches(r, term)
  }

  /** `filteredReports` */
  function FilteredReports(reports: seq<Report>, status: string, reportType: string, term: string): seq<Report> {
    Filter(reports, r => IsShown(r, status, reportType, term))
  }

  /** The filtered list keeps, in order, exactly the reports passing the status, type and search filters. */
  lemma FilteredReportsSelects(reports: seq<Report>, status: string, reportType: string, term: string)
    ensures IsSubsequence(FilteredReports(reports, status, reportType, term), reports)
    ensures forall r :: r in FilteredReports(reports, status, reportType, term) <==>
                          r in reports && (status == "all" || r.status == status) &&
                          (reportType == "all" || r.reportType == reportType) && SearchMatches(r, term)
  {
    FilterIsSubsequence(reports, r => IsShown(r, status, reportType, term));
  }

  predicate IsPending(r: Report) { r.status == "pending" }
  predicate IsInProgress(r: Report) { r.status == "in_progress" }
  predicate IsResolved(r: Report) { r.status == "resolved" }
  /** A report none of the three summary cards counts, a rejected one in particular. */
  predicate IsUncounted(r: Report) { !IsPending(r) && !IsInProgress(r) && !IsResolved(r) }

  /**
   * The pending, in-progress and resolved cards together with the uncounted reports make up
   * the total, so the three cards never exceed it and fall short by the rejected reports.
   */
  lemma {:induction false} StatsAddUp(reports: seq<Report>)
    ensures Count(reports, IsPending) + Count(reports, IsInProgress) + Count(reports, IsResolved) +
            Count(reports, IsUncounted) == |reports|
    ensures Count(reports, IsPending) + Count(reports, IsInProgress) + Count(reports, IsResolved) <= |reports|
  {
    if reports != [] {
      StatsAddUp(reports[1..]);
    }
  }

  /** `status.replace('_', ' ')`: only the first underscore becomes a space. */
  function StatusText(s: string): (r: string)
    ensures |r| == |s|
    ensures forall i | 0 <= i < |s| && r[i] != s[i] :: s[i] == '_' && r[i] == ' ' && '_' !in s[..i]
    ensures forall i | 0 <= i < |s| && s[i] == '_' && '_' !in s[..i] :: r[i] == ' '
  {
    if s == [] then []
    else if s[0] == '_' then " " + s[1..]
    else
      var rest := StatusText(s[1..]);
      assert forall i | 1 <= i < |s| :: s[1..][..i - 1] == s[1..i];
      [s[0]] + rest
  }

  /** A status without an underscore is shown as it is. */
  lemma StatusTextWithoutUnderscore(s: string)
    requires '_' !in s
    ensures StatusText(s) == s
  {
    var r := StatusText(s);
    forall i | 0 <= i < |s|
      ensures r[i] == s[i]
    {
    }
  }

  /** "in_progress" is shown as "in progress"; of "a_b_c" only the first underscore changes. */
  lemma StatusTextReplacesFirstOnly()
    ensures StatusText("in_progress") == "in progress"
    ensures StatusText("a_b_c") == "a b_c"
  {
    assert "in_progress"[1..] == "n_progress" && "n_progress"[1..] == "_progress";
    assert "_progress"[1..] == "progress";
    assert "a_b_c"[1..] == "_b_c" && "_b_c"[1..] == "b_c";
  }

  /** The Respond button appears on pending reports only. */
  predicate ShowsRespond(r: Report) {
    r.status == "pending"
  }

  /** Resolve and Reject are enabled when nothing is in flight and the response is not blank. */
  predicate CanSubmitResponse(isResponding: bool, responseText: string) {
    !isResponding && Trim(responseText) != ""
  }

  /** A response of spaces alone, or one already in flight, can never be submitted. */
  lemma CanSubmitResponseIff(isResponding: bool, responseText: string)
    ensures CanSubmitResponse(isResponding, responseText) <==> !isResponding && !IsBlank(responseText)
  {
    TrimEmptyIffBlank(responseText);
  }

  /** `getUserInitials(name)`, without a fallback: an empty name gives no letters. */
  function ReportInitials(name: string): (r: string)
    ensures |r| <= 2 && forall i | 0 <= i < |r| :: !('a' <= r[i] <= 'z')
    ensures name == "" ==> r == ""
  {
    assert WordStarts("", true) == "";
    InitialsAreWordStarts(name);
    Initials(name)
  }

  class ReportsPageState {
    var reports: seq<Report>
    var selectedReport: Option<Report>
    var responseText: string
    var isResponding: bool

    /** The page starts from a list it is given (the mock data the page loads). */
    constructor (initial: seq<Report>)
      ensures reports == initial && selectedReport == None && responseText == "" && !isResponding
    {
      reports := initial;
      selectedReport := None;
      responseText := "";
      isResponding := false;
    }

    /** The Respond button, shown on pending reports, opens the response card for that report. */
    method SelectReport(report: Report)
      requires ShowsRespond(report)
      modifies this
      ensures selectedReport == Some(report)
      ensures reports == old(reports) && responseText == old(responseText) && isResponding == old(isResponding)
    {
      selectedReport := Some(report);
    }

    /**
     * `handleResponse(reportId, status)`: the list is replaced by one in which the matching
     * report carries the answer; then the card closes, the text clears and `isResponding` ends false.
     */
    method HandleResponse(reportId: string, status: string, now: string)
      requires status == "resolved" || status == "rejected"
      modifies this
      ensures reports == RespondedReports(old(reports), reportId, status, old(responseText), now)
      ensures selectedReport == None && responseText == "" && !isResponding
    {
      isResponding := true;
      reports := RespondedReports(reports, reportId, status, responseText, now);
      selectedReport := None;
      responseText := "";
      isResponding := false;
    }
  }
}
