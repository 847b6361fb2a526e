/** The reports list page: loads every report once the user is known,
    previews each by its first line, and lets the user rename, delete and
    download reports through the report routes. */
module ReportsPage {
  import opened Js
  import opened Strings
  import opened Lists
  import opened Store
  import DownloadDocx

  /** A listed report: `{ id: doc.id, ...doc.data() }`. */
  datatype ReportRow = ReportRow(id: string, title: string, content: string, reportType: string, projectId: string)

  /** A request the page sends to a report route. */
  datatype PageRequest =
    | DeleteRequest(reportId: string)
    | UpdateRequest(reportId: string, title: string)
    | DownloadRequest(reportId: string, format: string)

  /** What a request to a route came to: an answer with `res.ok` and the
      body text, or a rejected promise (a network failure, or a body that
      cannot be read) with its error message. */
  datatype Reply = Answered(ok: bool, text: string) | Rejected(message: string)

  function RowOf(id: string, r: Report): (row: ReportRow)
    ensures row.id == id && row.title == r.title && row.content == r.content
    ensures row.reportType == r.reportType && row.projectId == r.projectId
  {
    ReportRow(id, r.title, r.content, r.reportType, r.projectId)
  }

  function RowsOf(docs: seq<(string, Report)>): (rows: seq<ReportRow>)
    ensures |rows| == |docs|
    ensures forall k :: 0 <= k < |docs| ==> rows[k] == RowOf(docs[k].0, docs[k].1)
  {
    if docs == [] then [] else [RowOf(docs[0].0, docs[0].1)] + RowsOf(docs[1..])
  }

  /** The list after a rename: the rows with that id get the new title,
      and nothing else changes. */
  function Retitle(rows: seq<ReportRow>, id: string, title: string): (r: seq<ReportRow>)
    ensures |r| == |rows|
    ensures forall k :: 0 <= k < |rows| ==>
              r[k] == (if rows[k].id == id then rows[k].(title := title) else rows[k])
  {
    if rows == [] then []
    else [if rows[0].id == id then rows[0].(title := title) else rows[0]] + Retitle(rows[1..], id, title)
  }

  /** The list after a delete keeps the other rows, in order. */
  function WithoutReport(rows: seq<ReportRow>, id: string): (r: seq<ReportRow>)
    ensures forall k :: 0 <= k < |r| ==> r[k].id != id
    ensures forall k :: 0 <= k < |rows| && rows[k].id != id ==> rows[k] in r
    ensures IsSubsequence(r, rows)
    ensures forall x :: multiset(r)[x] == if x.id != id then multiset(rows)[x] else 0
  {
    FilterIsSubsequence(rows, (row: ReportRow) => row.id != id);
    FilterMultiplicity(rows, (row: ReportRow) => row.id != id);
    Filter(rows, (row: ReportRow) => row.id != id)
  }

  /** The preview of a report: its first line, cut to 100 characters, with
      '...' when it was longer. */
  function Preview(content: string): (p: string)
    ensures '\n' !in p
    ensures |p| <= 103
    ensures var n := if |p| < 100 then |p| else 100;
            n <= |content| && p[..n] == content[..n]
    ensures |p| > 100 ==> |p| == 103 && p[100..] == "..."
    ensures '\n' !in content && |content| <= 100 ==> p == content
    // The first line, whole when it fits in 100 characters, otherwise its
    // first 100 characters and '...'.
    ensures var first := Split(content, '\n')[0];
            && (|first| <= 100 ==> p == first)
            && (|first| > 100 ==> p == first[..100] + "...")
  {
    var firstLine := Split(content, '\n')[0];
    FirstLine(content);
    var cut := SliceTo(firstLine, 100);
    assert '\n' !in cut by {
      forall k | 0 <= k < |cut| ensures cut[k] != '\n' {
        assert cut[k] == firstLine[k];
      }
    }
    cut + (if |firstLine| > 100 then "..." else "")
  }

  /** `content.split('\n')[0]` is the text before the first line break,
      and the whole content when there is none. */
  lemma FirstLine(content: string)
    ensures var first := Split(content, '\n')[0];
            && '\n' !in first && |first| <= |content| && first == content[..|first|]
            && ('\n' !in content ==> first == content)
  {
    SplitFirst(content, '\n');
    if '\n' !in content {
      SplitNoSeparator(content, '\n');
    }
  }

  /** `report-<id>.<format>`, the name the browser saves a download under. */
  function DownloadName(reportId: string, format: string): (name: string)
    ensures |name| == 7 + |reportId| + 1 + |format|
    ensures name[..7] == "report-" && name[7..7 + |reportId|] == reportId
    ensures name[7 + |reportId|..] == "." + format
  {
    "report-" + reportId + "." + format
  }

  /** The page saves a Word download under the name the route gives it. */
  lemma DocxNamesAgree(reportId: string)
    ensures DownloadName(reportId, "docx") == DownloadDocx.FileName(reportId)
  {
  }

  class Page {
    var reports: seq<ReportRow>
    var error: Option<string>
    var loadingReports: bool
    var editingReportId: Option<string>
    var editTitle: string
    /** Every `alert` shown, in order. */
    var alerts: seq<string>
    /** Every request sent to a report route, in order. */
    var sent: seq<PageRequest>
    /** The names of the files saved. */
    var saved: seq<string>

    constructor ()
      ensures reports == [] && error.None? && loadingReports
      ensures editingReportId.None? && editTitle == ""
      ensures alerts == [] && sent == [] && saved == []
    {
      reports, error, loadingReports := [], None, true;
      editingReportId, editTitle := None, "";
      alerts, sent, saved := [], [], [];
    }

    /** The effect that runs when the user state settles. `snapshot` is
        what the read of `reports` returns, or `failure` its error. */
    method Load(authLoading: bool, signedIn: bool, snapshot: seq<(string, Report)>, failure: Option<string>)
      modifies this`reports, this`error, this`loadingReports
      ensures authLoading ==> reports == old(reports) && error == old(error) && loadingReports == old(loadingReports)
      ensures !authLoading ==> !loadingReports
      ensures !authLoading && !signedIn ==>
                error == Some("Please log in to view reports.") && reports == old(reports)
      ensures !authLoading && signedIn && failure.None? ==> reports == RowsOf(snapshot) && error.None?
      ensures !authLoading && signedIn && failure.Some? ==>
                error == Some(OrElse(failure, "Error loading reports")) && reports == old(reports)
    {
      if authLoading {
        return;
      }
      if !signedIn {
        error := Some("Please log in to view reports.");
        loadingReports := false;
        return;
      }
      if failure.None? {
        reports := RowsOf(snapshot);
        error := None;
      } else {
        error := Some(OrElse(failure, "Error loading reports"));
      }
      loadingReports := false;
    }

    /** `handleDelete`: nothing without confirmation; otherwise the delete
        request, then either the row leaves the list or the error is shown:
        the route's text, or the message of the rejected request. */
    method HandleDelete(reportId: string, confirmed: bool, reply: Reply)
      modifies this`reports, this`alerts, this`sent
      ensures !confirmed ==> reports == old(reports) && alerts == old(alerts) && sent == old(sent)
      ensures confirmed ==> sent == old(sent) + [DeleteRequest(reportId)]
      ensures confirmed && reply.Answered? && reply.ok ==>
                reports == WithoutReport(old(reports), reportId) &&
                alerts == old(alerts) + ["Report deleted successfully!"]
      ensures confirmed && reply.Answered? && !reply.ok ==>
                reports == old(reports) && alerts == old(alerts) + ["Error deleting report: " + reply.text]
      ensures confirmed && reply.Rejected? ==>
                reports == old(reports) && alerts == old(alerts) + [reply.message]
    {
      if !confirmed {
        return;
      }
      sent := sent + [DeleteRequest(reportId)];
      if reply.Rejected? {
        alerts := alerts + [reply.message];
        return;
      }
      if !reply.ok {
        alerts := alerts + ["Error deleting report: " + reply.text];
        return;
      }
      reports := WithoutReport(reports, reportId);
      alerts := alerts + ["Report deleted successfully!"];
    }

    /** `startEditing`: the form opens on the report's current title. */
    method StartEditing(report: ReportRow)
      modifies this`editingReportId, this`editTitle
      ensures editingReportId == Some(report.id) && editTitle == report.title
    {
      editingReportId := Some(report.id);
      editTitle := report.title;
    }

    /** The Cancel button closes the form and keeps the typed title. */
    method CancelEditing()
      modifies this`editingReportId
      ensures editingReportId.None?
    {
      editingReportId := None;
    }

    /** `handleUpdate`: with a report open for editing, sends the new
        title; on success renames the row locally and closes the form. */
    method HandleUpdate(reply: Reply)
      modifies this`reports, this`editingReportId, this`editTitle, this`alerts, this`sent
      ensures !Truthy(old(editingReportId)) ==>
                && reports == old(reports) && editingReportId == old(editingReportId)
                && editTitle == old(editTitle) && alerts == old(alerts) && sent == old(sent)
      ensures Truthy(old(editingReportId)) ==>
                sent == old(sent) + [UpdateRequest(old(editingReportId).value, old(editTitle))]
      ensures Truthy(old(editingReportId)) && reply.Answered? && reply.ok ==>
                && reports == Retitle(old(reports), old(editingReportId).value, old(editTitle))
                && editingReportId.None? && editTitle == ""
                && alerts == old(alerts) + ["Report updated successfully!"]
      ensures Truthy(old(editingReportId)) && !(reply.Answered? && reply.ok) ==>
                && reports == old(reports) && editingReportId == old(editingReportId)
                && editTitle == old(editTitle)
                && alerts == old(alerts) + [if reply.Rejected? then reply.message
                                            else "Error updating report: " + reply.text]
    {
      if !Truthy(editingReportId) {
        return;
      }
      var id := editingReportId.value;
      sent := sent + [UpdateRequest(id, editTitle)];
      if reply.Rejected? {
        alerts := alerts + [reply.message];
        return;
      }
      if !reply.ok {
        alerts := alerts + ["Error updating report: " + reply.text];
        return;
      }
      reports := Retitle(reports, id, editTitle);
      editingReportId := None;
      editTitle := "";
      alerts := alerts + ["Report updated successfully!"];
    }

    /** `handleDownload`: fetches the file and saves it, or shows the
        route's error text. It catches nothing, so a rejected request ends
        it with neither a file nor an alert. */
    method HandleDownload(reportId: string, format: string, reply: Reply)
      modifies this`alerts, this`sent, this`saved
      ensures sent == old(sent) + [DownloadRequest(reportId, format)]
      ensures reply.Answered? && reply.ok ==>
                saved == old(saved) + [DownloadName(reportId, format)] && alerts == old(alerts)
      ensures reply.Answered? && !reply.ok ==>
                saved == old(saved) && alerts == old(alerts) + ["Error downloading report: " + reply.text]
      ensures reply.Rejected? ==> saved == old(saved) && alerts == old(alerts)
    {
      sent := sent + [DownloadRequest(reportId, format)];
      if reply.Rejected? {
        return;
      }
      if !reply.ok {
        alerts := alerts + ["Error downloading report: " + reply.text];
        return;
      }
      saved := saved + [DownloadName(reportId, format)];
    }
  }
}
