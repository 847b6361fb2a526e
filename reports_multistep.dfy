/** `POST /api/reports/multistep-generate`: a four-stage chain of model
    calls (relevant sections, draft, references, refinement) whose last
    answer is stored as an engineering report. Each stage feeds the text
    of earlier stages into its prompt; a missing answer counts as ''. */
module ReportsMultistep {
  import opened Js
  import opened Store
  import opened Http
  import opened Oracles
  import opened Transcript
  import RG = ReportsGenerate

  /** The request body; a field that is not a string is `None`. */
  datatype MultistepRequest = MultistepRequest(projectId: Option<string>, threadId: Option<string>)

  const InvalidRequest := "Missing or invalid projectId/threadId"

  /** A stage's text: the answer, or '' when it is missing or empty. */
  function StageText(c: Completion): (t: string)
    requires c.Returned?
    ensures Truthy(c.content) ==> t == c.content.value
    ensures !Truthy(c.content) ==> t == ""
  {
    TextOr(c, "")
  }

  /** The chain stopped by a call that threw, or ran to the end. */
  datatype Chain = Halted(prompts: seq<Prompt>, message: string) | Finished(prompts: seq<Prompt>, content: string)

  /** The four calls; the `k`-th call of the chain is answered by
      `reply(start + k, …)`. */
  function Pipeline(project: ProjectDoc, transcript: string, reply: (nat, Prompt) -> Completion, start: nat): (r: Chain)
    ensures 1 <= |r.prompts| <= 4
    ensures r.prompts[0] == SectionsPrompt(project, transcript)
    // Every call before the last one returned; the chain stops exactly at
    // the first call that throws, with that call's message.
    ensures forall k :: 0 <= k < |r.prompts| - 1 ==> reply(start + k, r.prompts[k]).Returned?
    ensures r.Halted? <==> reply(start + |r.prompts| - 1, r.prompts[|r.prompts| - 1]).Threw?
    ensures r.Halted? ==> r.message == reply(start + |r.prompts| - 1, r.prompts[|r.prompts| - 1]).message
    // Each later prompt is built from the texts the earlier stages gave.
    ensures |r.prompts| >= 2 ==>
              r.prompts[1] == DraftPrompt(StageText(reply(start, r.prompts[0])), project, transcript)
    ensures |r.prompts| >= 3 ==>
              r.prompts[2] == ReferencesPrompt(StageText(reply(start + 1, r.prompts[1])))
    ensures |r.prompts| == 4 ==>
              r.prompts[3] == RefinePrompt(StageText(reply(start + 1, r.prompts[1])),
                                           StageText(reply(start + 2, r.prompts[2])))
    // The report is the refinement's text.
    ensures r.Finished? ==> |r.prompts| == 4 && r.content == StageText(reply(start + 3, r.prompts[3]))
  {
    var p0 := SectionsPrompt(project, transcript);
    var c0 := reply(start, p0);
    if c0.Threw? then Halted([p0], c0.message) else
    var p1 := DraftPrompt(StageText(c0), project, transcript);
    var c1 := reply(start + 1, p1);
    if c1.Threw? then Halted([p0, p1], c1.message) else
    var draft := StageText(c1);
    var p2 := ReferencesPrompt(draft);
    var c2 := reply(start + 2, p2);
    if c2.Threw? then Halted([p0, p1, p2], c2.message) else
    var p3 := RefinePrompt(draft, StageText(c2));
    var c3 := reply(start + 3, p3);
    if c3.Threw? then Halted([p0, p1, p2, p3], c3.message)
    else Finished([p0, p1, p2, p3], StageText(c3))
  }

  /** The stored report: type 'project', titled after the project. */
  function ProjectReport(projectId: string, project: ProjectDoc, content: string, now: int): (r: Report)
    ensures r.reportType == "project" && r.content == content && r.projectId == projectId
    ensures r.userId == OrNull(project.ownerId) && r.createdAt == DateValue(now)
    ensures r.title == "Engineering Report - " + OrElse(project.projectName, "Project")
  {
    Report(projectId, OrNull(project.ownerId),
           "Engineering Report - " + OrElse(project.projectName, "Project"),
           content, "project", DateValue(now))
  }

  /** The whole route. `writeFault` is the store's error message when the
      report write fails. */
  function Multistep(req: MultistepRequest, projects: map<string, ProjectDoc>, threads: map<string, ThreadDoc>,
                     reply: (nat, Prompt) -> Completion, start: nat,
                     reportId: string, now: int, writeFault: Option<string>): (o: RG.Run)
    ensures req.projectId.None? || req.threadId.None? ==> o == RG.Run(Fail(400, InvalidRequest), [], None)
    ensures req.projectId.Some? && req.threadId.Some? && req.projectId.value !in projects ==>
              o == RG.Run(Fail(404, RG.ProjectNotFound), [], None)
    ensures req.projectId.Some? && req.threadId.Some? && req.projectId.value in projects &&
            req.threadId.value !in threads ==>
              o == RG.Run(Fail(404, RG.ThreadNotFound), [], None)
    // Once both documents exist the chain runs, and its prompts are the
    // ones sent.
    ensures req.projectId.Some? && req.threadId.Some? && req.projectId.value in projects &&
            req.threadId.value in threads ==>
              var chain := Pipeline(projects[req.projectId.value],
                                    Conversation(ThreadMessages(threads[req.threadId.value])), reply, start);
              && o.prompts == chain.prompts
              && (chain.Halted? ==> o == RG.Run(Fail(500, chain.message), chain.prompts, None))
              && (chain.Finished? && writeFault.Some? ==> o == RG.Run(Fail(500, writeFault.value), chain.prompts, None))
              && (chain.Finished? && writeFault.None? ==>
                    && o.response == Response(200, Json(RG.Generated("Report generated", chain.content)))
                    && o.written == Some((reportId, ProjectReport(req.projectId.value, projects[req.projectId.value], chain.content, now))))
    // A report is stored exactly when the route answers 200.
    ensures o.written.Some? <==> o.response.status == 200
  {
    if req.projectId.None? || req.threadId.None? then RG.Run(Fail(400, InvalidRequest), [], None)
    else if req.projectId.value !in projects then RG.Run(Fail(404, RG.ProjectNotFound), [], None)
    else if req.threadId.value !in threads then RG.Run(Fail(404, RG.ThreadNotFound), [], None)
    else
      var project := projects[req.projectId.value];
      var chain := Pipeline(project, Conversation(ThreadMessages(threads[req.threadId.value])), reply, start);
      if chain.Halted? then RG.Run(Fail(500, chain.message), chain.prompts, None)
      else if writeFault.Some? then RG.Run(Fail(500, writeFault.value), chain.prompts, None)
      else RG.Run(Response(200, Json(RG.Generated("Report generated", chain.content))), chain.prompts,
                  Some((reportId, ProjectReport(req.projectId.value, project, chain.content, now))))
  }

  method Handle(db: Firestore, llm: ChatCompletions, req: MultistepRequest, reportId: string, now: int,
                writeFault: Option<string>)
    returns (res: Response<RG.Generated>)
    modifies db`reports, llm`calls
    ensures var o := Multistep(req, old(db.projects), old(db.threads), llm.reply, |old(llm.calls)|,
                               reportId, now, writeFault);
            && res == o.response
            && llm.calls == old(llm.calls) + o.prompts
            && db.reports == Put(old(db.reports), o.written)
  {
    if req.projectId.None? || req.threadId.None? {
      return Fail(400, InvalidRequest);
    }
    var projectId, threadId := req.projectId.value, req.threadId.value;
    if projectId !in db.projects {
      return Fail(404, RG.ProjectNotFound);
    }
    var project := db.projects[projectId];
    if threadId !in db.threads {
      return Fail(404, RG.ThreadNotFound);
    }
    var transcript := Conversation(ThreadMessages(db.threads[threadId]));

    var sectionsReply := llm.Create(SectionsPrompt(project, transcript));
    if sectionsReply.Threw? {
      return Fail(500, sectionsReply.message);
    }
    var sections := StageText(sectionsReply);

    var draftReply := llm.Create(DraftPrompt(sections, project, transcript));
    if draftReply.Threw? {
      return Fail(500, draftReply.message);
    }
    var draft := StageText(draftReply);

    var referencesReply := llm.Create(ReferencesPrompt(draft));
    if referencesReply.Threw? {
      return Fail(500, referencesReply.message);
    }
    var references := StageText(referencesReply);

    var refineReply := llm.Create(RefinePrompt(draft, references));
    if refineReply.Threw? {
      return Fail(500, refineReply.message);
    }
    var content := StageText(refineReply);

    if writeFault.Some? {
      return Fail(500, writeFault.value);
    }
    db.reports := db.reports[reportId := ProjectReport(projectId, project, content, now)];
    res := Response(200, Json(RG.Generated("Report generated", content)));
  }
}
