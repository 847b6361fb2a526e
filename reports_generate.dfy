/** `POST /api/reports/generate`: validates the request, reads the
    project and the thread, picks a prompt for the report type, asks the
    chat model once, stores the report and returns its text. */
module ReportsGenerate {
  import opened Js
  import opened Store
  import opened Http
  import opened Oracles
  import opened Transcript

  /** The request body; a field that is not a string is `None`. */
  datatype GenerateRequest = GenerateRequest(
    projectId: Option<string>, threadId: Option<string>,
    reportType: Option<string>, customPrompt: Option<string>)

  /** The success body `{ message, content }`. */
  datatype Generated = Generated(message: string, content: string)

  const InvalidRequest := "Missing or invalid projectId, threadId, or reportType"
  const ProjectNotFound := "Project not found"
  const ThreadNotFound := "Thread not found"
  const CustomRequired := "Custom prompt is required for custom reports."
  const InvalidType := "Invalid reportType. Use summary, communication, or custom."
  const InternalError := "An internal error occurred while generating the report."
  const NoContent := "No report content generated."

  /** The three identifying fields are strings. */
  predicate WellTyped(req: GenerateRequest) {
    req.projectId.Some? && req.threadId.Some? && req.reportType.Some?
  }

  /** A report type the route serves: 'summary', 'communication', or
      'custom' with a custom prompt that is a string and not blank. */
  predicate Serves(reportType: string, customPrompt: Option<string>) {
    || reportType == "summary"
    || reportType == "communication"
    || (reportType == "custom" && customPrompt.Some? && !IsBlank(customPrompt.value))
  }

  /** The outcome of steps 1 to 3: a refusal, or the prompt to send
      together with the project it was built from. */
  datatype Plan = Reject(status: int, error: string) | Ask(prompt: Prompt, project: ProjectDoc)

  function Prepare(req: GenerateRequest, projects: map<string, ProjectDoc>, threads: map<string, ThreadDoc>): (p: Plan)
    // The route asks the model exactly when every check passes.
    ensures p.Ask? <==>
              && WellTyped(req)
              && req.projectId.value in projects && req.threadId.value in threads
              && Serves(req.reportType.value, req.customPrompt)
    // The checks come in this order; the first one that fails decides the error.
    ensures !WellTyped(req) ==> p == Reject(400, InvalidRequest)
    ensures WellTyped(req) && req.projectId.value !in projects ==> p == Reject(404, ProjectNotFound)
    ensures WellTyped(req) && req.projectId.value in projects && req.threadId.value !in threads ==>
              p == Reject(404, ThreadNotFound)
    ensures WellTyped(req) && req.projectId.value in projects && req.threadId.value in threads &&
            !Serves(req.reportType.value, req.customPrompt) ==>
              p == Reject(400, if req.reportType.value == "custom" then CustomRequired else InvalidType)
    // The prompt embeds the stored project and the thread's transcript.
    ensures p.Ask? ==>
              && (req.reportType.value == "summary" <==> p.prompt.SummaryPrompt?)
              && (req.reportType.value == "communication" <==> p.prompt.CommunicationPrompt?)
              && (req.reportType.value == "custom" <==> p.prompt.CustomPrompt?)
    ensures p.Ask? ==>
              && p.project == projects[req.projectId.value]
              && p.prompt.project == p.project
              && p.prompt.transcript == Conversation(ThreadMessages(threads[req.threadId.value]))
    ensures p.Ask? && p.prompt.CustomPrompt? ==> p.prompt.request == req.customPrompt.value
  {
    if !WellTyped(req) then Reject(400, InvalidRequest)
    else if req.projectId.value !in projects then Reject(404, ProjectNotFound)
    else if req.threadId.value !in threads then Reject(404, ThreadNotFound)
    else
      var project := projects[req.projectId.value];
      var transcript := Conversation(ThreadMessages(threads[req.threadId.value]));
      match req.reportType.value
      case "summary" => Ask(SummaryPrompt(project, transcript), project)
      case "communication" => Ask(CommunicationPrompt(project, transcript), project)
      case "custom" =>
        if req.customPrompt.None? || Trim(req.customPrompt.value) == "" then Reject(400, CustomRequired)
        else Ask(CustomPrompt(req.customPrompt.value, project, transcript), project)
      case _ => Reject(400, InvalidType)
  }

  /** `c.toUpperCase()` for the characters that can reach it here. */
  function UpperAscii(c: char): (u: char)
    ensures 'a' <= c <= 'z' ==> 'A' <= u <= 'Z' && u as int == c as int - 32
    ensures !('a' <= c <= 'z') ==> u == c
  {
    if 'a' <= c <= 'z' then (c as int - 32) as char else c
  }

  /** `s.charAt(0).toUpperCase() + s.slice(1)`. */
  function Capitalize(s: string): (r: string)
    ensures |r| == |s|
    ensures s != "" ==> r[0] == UpperAscii(s[0]) && r[1..] == s[1..]
  {
    if s == "" then "" else [UpperAscii(s[0])] + s[1..]
  }

  const SuccessSuffix := " report generated successfully."

  /** The success message: the report type with its first letter in upper
      case, then ' report generated successfully.'. */
  function SuccessMessage(reportType: string): (m: string)
    ensures |m| == |reportType| + |SuccessSuffix|
    ensures reportType != "" ==> m[0] == UpperAscii(reportType[0]) && m[1..|reportType|] == reportType[1..]
    ensures m[|reportType|..] == SuccessSuffix
  {
    Capitalize(reportType) + SuccessSuffix
  }

  /** The stored report: the owner as user (or null), a title naming the
      project (or 'Project') and the type, and the generated text. */
  function NewReport(projectId: string, project: ProjectDoc, reportType: string, content: string, now: int): Report {
    Report(projectId, OrNull(project.ownerId),
           "Report - " + OrElse(project.projectName, "Project") + " (" + reportType + ")",
           content, reportType, DateValue(now))
  }

  /** What one request does: the response, the prompts sent (in order)
      and the report written, if any. */
  datatype Run = Run(response: Response<Generated>, prompts: seq<Prompt>, written: Option<(string, Report)>)

  /** The whole route as a function of the store, the model's replies
      (`reply(start, …)` answers this request's call), the new document's
      id, the clock and whether the report write fails. */
  function Generate(req: GenerateRequest, projects: map<string, ProjectDoc>, threads: map<string, ThreadDoc>,
                    reply: (nat, Prompt) -> Completion, start: nat,
                    reportId: string, now: int, writeFault: bool): (o: Run)
    // A refused request sends nothing and writes nothing.
    ensures var p := Prepare(req, projects, threads);
            p.Reject? ==> o == Run(Fail(p.status, p.error), [], None)
    // An accepted one sends its prompt exactly once.
    ensures var p := Prepare(req, projects, threads);
            p.Ask? ==> o.prompts == [p.prompt]
    // A report is stored exactly when the route answers 200, and it holds
    // the text the route returns, which is never empty.
    ensures o.written.Some? <==> o.response.status == 200
    ensures o.response.status == 200 ==>
              var r := o.written.value.1;
              && o.written.value.0 == reportId
              && o.response.payload.Json?
              && o.response.payload.value.content == r.content != ""
              && o.response.payload.value.message == SuccessMessage(r.reportType)
              && r.projectId == req.projectId.value && r.reportType == req.reportType.value
              && Serves(r.reportType, req.customPrompt)
              && r.userId == OrNull(projects[r.projectId].ownerId)
              && r.createdAt == DateValue(now)
              && r.title == "Report - " + OrElse(projects[r.projectId].projectName, "Project") + " (" + r.reportType + ")"
    // The text is the model's answer to the one prompt sent, or the
    // fallback text when that answer is missing or empty.
    ensures o.response.status == 200 ==>
              && o.prompts == [Prepare(req, projects, threads).prompt]
              && reply(start, o.prompts[0]).Returned?
              && o.written.value.1.content == TextOr(reply(start, o.prompts[0]), NoContent)
    // The model's failure and the write's failure give the same 500.
    ensures o.response.status == 500 <==>
              Prepare(req, projects, threads).Ask? && (reply(start, o.prompts[0]).Threw? || writeFault)
    ensures o.response.status == 500 ==> o.response == Fail(500, InternalError)
    ensures o.response.status in {200, 400, 404, 500}
  {
    var p := Prepare(req, projects, threads);
    if p.Reject? then Run(Fail(p.status, p.error), [], None)
    else
      var c := reply(start, p.prompt);
      if c.Threw? || writeFault then Run(Fail(500, InternalError), [p.prompt], None)
      else
        var content := TextOr(c, NoContent);
        var reportType := req.reportType.value;
        Run(Response(200, Json(Generated(SuccessMessage(reportType), content))), [p.prompt],
            Some((reportId, NewReport(req.projectId.value, p.project, reportType, content, now))))
  }

  method Handle(db: Firestore, llm: ChatCompletions, req: GenerateRequest, reportId: string, now: int, writeFault: bool)
    returns (res: Response<Generated>)
    modifies db`reports, llm`calls
    ensures var o := Generate(req, old(db.projects), old(db.threads), llm.reply, |old(llm.calls)|, reportId, now, writeFault);
            && res == o.response
            && llm.calls == old(llm.calls) + o.prompts
            && db.reports == Put(old(db.reports), o.written)
  {
    if req.projectId.None? || req.threadId.None? || req.reportType.None? {
      return Fail(400, InvalidRequest);
    }
    var projectId, threadId, reportType := req.projectId.value, req.threadId.value, req.reportType.value;
    if projectId !in db.projects {
      return Fail(404, ProjectNotFound);
    }
    var project := db.projects[projectId];
    if threadId !in db.threads {
      return Fail(404, ThreadNotFound);
    }
    var transcript := Conversation(ThreadMessages(db.threads[threadId]));
    var prompt;
    if reportType == "summary" {
      prompt := SummaryPrompt(project, transcript);
    } else if reportType == "communication" {
      prompt := CommunicationPrompt(project, transcript);
    } else if reportType == "custom" {
      if req.customPrompt.None? || Trim(req.customPrompt.value) == "" {
        return Fail(400, CustomRequired);
      }
      prompt := CustomPrompt(req.customPrompt.value, project, transcript);
    } else {
      return Fail(400, InvalidType);
    }
    var c := llm.Create(prompt);
    if c.Threw? {
      return Fail(500, InternalError);
    }
    var content := TextOr(c, NoContent);
    if writeFault {
      return Fail(500, InternalError);
    }
    db.reports := db.reports[reportId := NewReport(projectId, project, reportType, content, now)];
    res := Response(200, Json(Generated(SuccessMessage(reportType), content)));
  }
}
