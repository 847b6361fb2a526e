/** `POST /api/insights/generate`: checks the thread id and the insight
    type against the table of prompt templates, reads the thread, asks the
    chat model once with the transcript and the chosen template, stores
    the insight and returns its text. */
module InsightsGenerate {
  import opened Js
  import opened Store
  import opened Http
  import opened Oracles
  import opened Transcript
  import RG = ReportsGenerate

  /** The request body; a field that is not a string is `None`. */
  datatype InsightRequest = InsightRequest(threadId: Option<string>, insightType: Option<string>)

  const InvalidThread := "Invalid or missing threadId."
  const InvalidInsightType := "Invalid or missing insightType."
  const ThreadNotFound := "Thread not found."
  const ModelError := "Failed to generate insights from OpenAI."
  const InternalError := "An error occurred while generating insights."
  const NoInsights := "No insights generated."
  const Success := "Insights generated successfully."

  /** The keys of the template table; every template is a non-empty text. */
  const InsightTypes: set<string> := {"Code References", "Recommended Actions", "General Insights"}

  /** The names every plain object inherits from `Object.prototype`; each
      is a function, except `__proto__`, which is the prototype object. */
  const PrototypeMembers: set<string> := {
    "constructor", "hasOwnProperty", "isPrototypeOf", "propertyIsEnumerable",
    "toLocaleString", "toString", "valueOf", "__proto__",
    "__defineGetter__", "__defineSetter__", "__lookupGetter__", "__lookupSetter__"}

  /** What indexing the template table yields. */
  datatype TableEntry = Missing | OwnTemplate(insightType: string) | InheritedMember(name: string)

  /** `insightTypePrompts[key]` as written: a bracket lookup on a plain
      object, which finds the table's own keys and, failing those, the
      members inherited from `Object.prototype`. */
  function LookupAsWritten(key: string): (e: TableEntry)
    ensures e.OwnTemplate? <==> key in InsightTypes
    ensures e.InheritedMember? <==> key !in InsightTypes && key in PrototypeMembers
    ensures e.Missing? <==> key !in InsightTypes && key !in PrototypeMembers
  {
    if key in InsightTypes then OwnTemplate(key)
    else if key in PrototypeMembers then InheritedMember(key)
    else Missing
  }

  /** `!!insightTypePrompts[key]` as written: templates, functions and the
      prototype object are all truthy. */
  predicate AcceptedAsWritten(key: string) {
    !LookupAsWritten(key).Missing?
  }

  /** The check as evidently intended: only the table's own keys. */
  function Template(key: string): (t: Option<string>)
    ensures t.Some? <==> key in InsightTypes
    ensures t.Some? ==> t.value == key
  {
    if key in InsightTypes then Some(key) else None
  }

  /** The guard as written lets an inherited member name through, although
      the table holds no template for it. */
  lemma InheritedNameAccepted()
    ensures AcceptedAsWritten("toString") && AcceptedAsWritten("__proto__")
    ensures Template("toString").None? && Template("__proto__").None?
  {
    assert "toString" !in InsightTypes;
    assert "__proto__" !in InsightTypes;
  }

  /** The corrected guard accepts exactly the own keys, and on those it
      agrees with the guard as written. */
  lemma TemplateAgreesOnOwnKeys(key: string)
    ensures Template(key).Some? ==> AcceptedAsWritten(key)
    ensures Template(key).None? && AcceptedAsWritten(key) ==> key in PrototypeMembers
  {
  }

  /** What one request does. */
  datatype InsightRun = InsightRun(response: Response<RG.Generated>, prompts: seq<Prompt>,
                                   written: Option<(string, Insight)>)

  /** The whole route, with the corrected template lookup. */
  function Generate(req: InsightRequest, threads: map<string, ThreadDoc>,
                    reply: (nat, Prompt) -> Completion, start: nat,
                    insightId: string, now: int, writeFault: bool): (o: InsightRun)
    // The checks, in the order the route makes them.
    ensures !Truthy(req.threadId) ==> o == InsightRun(Fail(400, InvalidThread), [], None)
    ensures Truthy(req.threadId) && !(Truthy(req.insightType) && Template(req.insightType.value).Some?) ==>
              o == InsightRun(Fail(400, InvalidInsightType), [], None)
    ensures Truthy(req.threadId) && Truthy(req.insightType) && Template(req.insightType.value).Some? &&
            req.threadId.value !in threads ==>
              o == InsightRun(Fail(404, ThreadNotFound), [], None)
    // Past the checks the model is called once, with the transcript and
    // the requested template.
    ensures o.prompts != [] <==>
              Truthy(req.threadId) && Truthy(req.insightType) && req.insightType.value in InsightTypes &&
              req.threadId.value in threads
    ensures o.prompts != [] ==>
              o.prompts == [InsightPrompt(Conversation(ThreadMessages(threads[req.threadId.value])),
                                          req.insightType.value)]
    ensures o.prompts != [] && reply(start, o.prompts[0]).Threw? ==>
              o == InsightRun(Fail(500, ModelError), o.prompts, None)
    ensures o.prompts != [] && reply(start, o.prompts[0]).Returned? && writeFault ==>
              o == InsightRun(Fail(500, InternalError), o.prompts, None)
    // An insight is stored exactly on success, titled with its type and
    // holding the text returned.
    ensures o.written.Some? <==> o.response.status == 200
    ensures o.response.status == 200 ==>
              var i := o.written.value.1;
              && o.written.value.0 == insightId
              && o.response == Response(200, Json(RG.Generated(Success, i.content)))
              && i.content != ""
              && i.threadId == req.threadId.value && i.title == req.insightType.value
              && i.title in InsightTypes && i.createdAt == DateValue(now)
    // The text is the model's answer, or the fallback text when that
    // answer is missing or empty.
    ensures o.response.status == 200 ==>
              && o.prompts != [] && reply(start, o.prompts[0]).Returned?
              && o.written.value.1.content == TextOr(reply(start, o.prompts[0]), NoInsights)
  {
    if !Truthy(req.threadId) then InsightRun(Fail(400, InvalidThread), [], None)
    else if !Truthy(req.insightType) || Template(req.insightType.value).None? then
      InsightRun(Fail(400, InvalidInsightType), [], None)
    else if req.threadId.value !in threads then InsightRun(Fail(404, ThreadNotFound), [], None)
    else
      var prompt := InsightPrompt(Conversation(ThreadMessages(threads[req.threadId.value])),
                                  Template(req.insightType.value).value);
      var c := reply(start, prompt);
      if c.Threw? then InsightRun(Fail(500, ModelError), [prompt], None)
      else if writeFault then InsightRun(Fail(500, InternalError), [prompt], None)
      else
        var content := TextOr(c, NoInsights);
        InsightRun(Response(200, Json(RG.Generated(Success, content))), [prompt],
                   Some((insightId, Insight(req.threadId.value, req.insightType.value, content, DateValue(now)))))
  }

  method Handle(db: Firestore, llm: ChatCompletions, req: InsightRequest, insightId: string, now: int,
                writeFault: bool)
    returns (res: Response<RG.Generated>)
    modifies db`insights, llm`calls
    ensures var o := Generate(req, old(db.threads), llm.reply, |old(llm.calls)|, insightId, now, writeFault);
            && res == o.response
            && llm.calls == old(llm.calls) + o.prompts
            && db.insights == Put(old(db.insights), o.written)
  {
    if !Truthy(req.threadId) {
      return Fail(400, InvalidThread);
    }
    if !Truthy(req.insightType) {
      return Fail(400, InvalidInsightType);
    }
    var threadId, insightType := req.threadId.value, req.insightType.value;
    var template := Template(insightType);
    if template.None? {
      return Fail(400, InvalidInsightType);
    }
    if threadId !in db.threads {
      return Fail(404, ThreadNotFound);
    }
    var transcript := Conversation(ThreadMessages(db.threads[threadId]));
    var c := llm.Create(InsightPrompt(transcript, template.value));
    if c.Threw? {
      return Fail(500, ModelError);
    }
    var content := TextOr(c, NoInsights);
    if writeFault {
      return Fail(500, InternalError);
    }
    db.insights := db.insights[insightId := Insight(threadId, insightType, content, DateValue(now))];
    res := Response(200, Json(RG.Generated(Success, content)));
  }
}
