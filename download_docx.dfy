/** `GET /api/reports/download-docx?reportId=…`: renders a stored report
    as a Word document: four heading paragraphs, then one paragraph per
    line of the report's content. */
module DownloadDocx {
  import opened Js
  import opened Strings
  import opened Store
  import opened Http

  /** A run of text; `size` is in half-points. */
  datatype TextRun = TextRun(text: string, bold: bool, size: Option<int>, underline: bool)

  /** A paragraph and the space after it, in twentieths of a point. */
  datatype Paragraph = Paragraph(runs: seq<TextRun>, spacingAfter: int)

  /** The document the route builds, before it is packed into bytes. */
  datatype Docx = Docx(creator: string, title: string, description: string, paragraphs: seq<Paragraph>)

  /** The file sent, with its two headers. */
  datatype Download = Download(contentType: string, disposition: string, document: Docx)

  const DocxType := "application/vnd.openxmlformats-officedocument.wordprocessingml.document"

  function Plain(text: string): TextRun {
    TextRun(text, false, None, false)
  }

  /** The text a sequence of runs shows. */
  function RunsText(runs: seq<TextRun>): string {
    if runs == [] then "" else runs[0].text + RunsText(runs[1..])
  }

  /** The text of each paragraph. */
  function Texts(ps: seq<Paragraph>): (ts: seq<string>)
    ensures |ts| == |ps|
    ensures forall k :: 0 <= k < |ps| ==> ts[k] == RunsText(ps[k].runs)
  {
    if ps == [] then [] else [RunsText(ps[0].runs)] + Texts(ps[1..])
  }

  /** One paragraph per line, each a single plain run with 100 after it. */
  function LineParagraphs(lines: seq<string>): (ps: seq<Paragraph>)
    ensures |ps| == |lines|
    ensures forall k :: 0 <= k < |lines| ==> ps[k] == Paragraph([Plain(lines[k])], 100)
  {
    if lines == [] then [] else [Paragraph([Plain(lines[0])], 100)] + LineParagraphs(lines[1..])
  }

  /** The paragraphs give back the lines they were made from. */
  lemma {:induction false} LineParagraphsText(lines: seq<string>)
    ensures Texts(LineParagraphs(lines)) == lines
  {
    var ts := Texts(LineParagraphs(lines));
    forall k | 0 <= k < |lines| ensures ts[k] == lines[k] {
      assert RunsText([Plain(lines[k])]) == lines[k] + RunsText([]);
    }
  }

  /** The four paragraphs before the content: the title in bold,
      underlined, 16 pt, with 300 after; the type, the project id and a
      'Content:' label, each with 200 after. */
  function Heading(report: Report): seq<Paragraph> {
    [ Paragraph([TextRun("Report Title: " + report.title, true, Some(32), true)], 300),
      Paragraph([Plain("Type: " + report.reportType)], 200),
      Paragraph([Plain("Project ID: " + report.projectId)], 200),
      Paragraph([Plain("Content:")], 200) ]
  }

  function BuildDocument(report: Report): (d: Docx)
    ensures d.creator == "H2Safety.ai" && d.title == report.title && d.description == "Hydrogen Safety Report"
    ensures |d.paragraphs| == 4 + Occurrences(report.content, '\n') + 1
    ensures d.paragraphs[..4] == Heading(report)
    // Every content paragraph is one plain line, and the lines put back
    // together with '\n' are the report's content: nothing is lost or
    // reordered.
    ensures forall k :: 4 <= k < |d.paragraphs| ==>
              |d.paragraphs[k].runs| == 1 && '\n' !in d.paragraphs[k].runs[0].text &&
              d.paragraphs[k].spacingAfter == 100
    ensures Join(Texts(d.paragraphs[4..]), "\n") == report.content
  {
    var lines := Split(report.content, '\n');
    var d := Docx("H2Safety.ai", report.title, "Hydrogen Safety Report", Heading(report) + LineParagraphs(lines));
    SplitCount(report.content, '\n');
    assert d.paragraphs[4..] == LineParagraphs(lines);
    LineParagraphsText(lines);
    JoinSplit(report.content, '\n');
    d
  }

  /** `attachment; filename=report-<id>.docx`. */
  function FileName(reportId: string): (name: string)
    ensures |name| == |reportId| + 12
    ensures name[..7] == "report-" && name[7..7 + |reportId|] == reportId
    ensures name[|name| - 5..] == ".docx"
  {
    "report-" + reportId + ".docx"
  }

  /** The whole route; `reportId` is `None` when the query parameter is
      missing or repeated. */
  function Render(reports: map<string, Report>, reportId: Option<string>): (res: Response<Download>)
    ensures reportId.None? ==> res == Response(400, PlainText("Missing or invalid reportId"))
    ensures reportId.Some? && reportId.value !in reports ==> res == Response(404, PlainText("Report not found"))
    ensures res.status == 200 <==> reportId.Some? && reportId.value in reports
    ensures res.status == 200 ==>
              res == Response(200, Attachment(Download(DocxType, "attachment; filename=" + FileName(reportId.value),
                                                       BuildDocument(reports[reportId.value]))))
  {
    if reportId.None? then Response(400, PlainText("Missing or invalid reportId"))
    else if reportId.value !in reports then Response(404, PlainText("Report not found"))
    else
      var report := reports[reportId.value];
      Response(200, Attachment(Download(DocxType, "attachment; filename=" + FileName(reportId.value),
                                        BuildDocument(report))))
  }
}
