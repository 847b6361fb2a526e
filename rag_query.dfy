/** `POST /api/rag/query`: a proxy to the question-answering service. It
    checks the method and the body, verifies the caller's token when one
    is given, posts the question, and records the question and the answer
    as two documents of the flat `messages` collection. */
module RagQuery {
  import opened Js
  import opened Store
  import opened Http
  import opened Oracles

  /** The request body; a field that is absent or not a string is `None`. */
  datatype QueryRequest = QueryRequest(question: Option<string>, userToken: Option<string>, threadId: Option<string>)

  const MissingFields := "Missing question or threadId"
  const BadToken := "Invalid or expired user token"
  const UpstreamFailed := "Failed to query RAG pipeline: "
  /** The store's refusal of a document whose `content` is `undefined`. */
  const UndefinedContent := "Function addDoc() called with invalid data. Unsupported field value: undefined"

  /** `data.final_response || data.answer`. */
  function AnswerOf(finalResponse: Option<string>, answer: Option<string>): (a: Option<string>)
    ensures Truthy(finalResponse) ==> a == finalResponse
    ensures !Truthy(finalResponse) ==> a == answer
  {
    if Truthy(finalResponse) then finalResponse else answer
  }

  /** The question's record; `userId` is null unless a token was verified. */
  function QuestionRecord(question: string, threadId: string, userId: Option<string>): (m: Message)
    ensures m.Asked? && m.content == question && m.conversationId == threadId
    ensures m.role == "user" && m.sender == "user" && m.timestamp == ServerTime && m.userId == userId
  {
    Asked(question, threadId, "user", "user", ServerTime, userId)
  }

  /** The answer's record. */
  function AnswerRecord(answer: string, threadId: string): (m: Message)
    ensures m.Answered? && m.content == answer && m.conversationId == threadId
    ensures m.role == "assistant" && m.sender == "ai" && m.timestamp == ServerTime
  {
    Answered(answer, threadId, "assistant", "ai", ServerTime)
  }

  /** What one request does: the response, the questions posted to the
      service, and the documents written, in order. */
  datatype QueryRun = QueryRun(response: Response<string>, asked: seq<string>, written: seq<(string, Message)>)

  /** The token step: `None` lets the request through with this user id
      (null without a token), `Some` is the refusal. */
  function Caller(token: Option<string>, verify: string -> Option<string>): (r: (Option<string>, bool))
    ensures !Truthy(token) ==> r == (None, true)
    ensures Truthy(token) ==> r.1 == verify(token.value).Some?
    ensures Truthy(token) && r.1 ==> r.0 == OrNull(verify(token.value))
  {
    if !Truthy(token) then (None, true)
    else if verify(token.value).None? then (None, false)
    else (OrNull(verify(token.value)), true)
  }

  /** The whole route. `verify` is the token check (the uid, or `None`
      when it throws); `reply(start, …)` is the service's answer;
      `questionFault` and `answerFault` are the store's error messages when
      the first or the second write fails. The two ids are the ones
      `addDoc` draws, so they differ. */
  function Query(httpMethod: string, req: QueryRequest, verify: string -> Option<string>,
                 reply: (nat, string) -> RagReply, start: nat,
                 questionId: string, answerId: string,
                 questionFault: Option<string>, answerFault: Option<string>): (o: QueryRun)
    requires questionId != answerId
    ensures httpMethod != "POST" ==> o == QueryRun(Response(405, NoBody), [], [])
    ensures httpMethod == "POST" && !(Truthy(req.question) && Truthy(req.threadId)) ==>
              o == QueryRun(Fail(400, MissingFields), [], [])
    ensures httpMethod == "POST" && Truthy(req.question) && Truthy(req.threadId) && !Caller(req.userToken, verify).1 ==>
              o == QueryRun(Fail(401, BadToken), [], [])
    // The service is asked, once and with the question, exactly when
    // every check passes.
    ensures o.asked != [] <==>
              httpMethod == "POST" && Truthy(req.question) && Truthy(req.threadId) && Caller(req.userToken, verify).1
    ensures o.asked != [] ==> o.asked == [req.question.value]
    // Nothing is written unless the service answered.
    ensures o.written != [] ==> o.asked != [] && reply(start, req.question.value).RagOk?
    ensures o.asked != [] && reply(start, req.question.value).RagNotOk? ==>
              o.response == Fail(500, UpstreamFailed + reply(start, req.question.value).body)
    ensures o.asked != [] && reply(start, req.question.value).RagThrew? ==>
              o.response == Fail(500, reply(start, req.question.value).message)
    // The question is recorded first, the answer second; a failed write
    // stops the route, so a failure of the second leaves the first behind.
    ensures |o.written| <= 2
    ensures o.written != [] ==>
              o.written[0] == (questionId, QuestionRecord(req.question.value, req.threadId.value,
                                                          Caller(req.userToken, verify).0))
    ensures |o.written| == 2 <==> o.response.status == 200
    ensures o.response.status == 200 ==>
              && o.response.payload.Json?
              && o.written[1] == (answerId, AnswerRecord(o.response.payload.value, req.threadId.value))
              && var r := reply(start, req.question.value);
                 AnswerOf(r.finalResponse, r.answer) == Some(o.response.payload.value)
    ensures o.asked != [] && reply(start, req.question.value).RagOk? &&
            AnswerOf(reply(start, req.question.value).finalResponse, reply(start, req.question.value).answer).None? ==>
              o.response.status == 500
    // A failed first write records nothing; a failed second write keeps
    // only the question.
    ensures o.asked != [] && reply(start, req.question.value).RagOk? && questionFault.Some? ==>
              o == QueryRun(Fail(500, questionFault.value), [req.question.value], [])
    ensures o.asked != [] && reply(start, req.question.value).RagOk? && questionFault.None? &&
            AnswerOf(reply(start, req.question.value).finalResponse, reply(start, req.question.value).answer).Some? &&
            answerFault.Some? ==>
              o.response == Fail(500, answerFault.value) && |o.written| == 1
    ensures o.asked != [] && reply(start, req.question.value).RagOk? && questionFault.None? &&
            AnswerOf(reply(start, req.question.value).finalResponse, reply(start, req.question.value).answer).None? ==>
              o == QueryRun(Fail(500, UndefinedContent), [req.question.value],
                            [(questionId, QuestionRecord(req.question.value, req.threadId.value,
                                                         Caller(req.userToken, verify).0))])
    ensures o.response.status in {200, 400, 401, 405, 500}
  {
    if httpMethod != "POST" then QueryRun(Response(405, NoBody), [], [])
    else if !Truthy(req.question) || !Truthy(req.threadId) then QueryRun(Fail(400, MissingFields), [], [])
    else
      var (userId, admitted) := Caller(req.userToken, verify);
      if !admitted then QueryRun(Fail(401, BadToken), [], [])
      else
        var question, threadId := req.question.value, req.threadId.value;
        var r := reply(start, question);
        match r
        case RagNotOk(body) => QueryRun(Fail(500, UpstreamFailed + body), [question], [])
        case RagThrew(message) => QueryRun(Fail(500, message), [question], [])
        case RagOk(finalResponse, answerField) =>
          var answer := AnswerOf(finalResponse, answerField);
          if questionFault.Some? then QueryRun(Fail(500, questionFault.value), [question], [])
          else
            var first := (questionId, QuestionRecord(question, threadId, userId));
            if answer.None? then QueryRun(Fail(500, UndefinedContent), [question], [first])
            else if answerFault.Some? then QueryRun(Fail(500, answerFault.value), [question], [first])
            else QueryRun(Response(200, Json(answer.value)), [question],
                          [first, (answerId, AnswerRecord(answer.value, threadId))])
  }

  method Handle(db: Firestore, rag: RagEndpoint, httpMethod: string, req: QueryRequest,
                verify: string -> Option<string>, questionId: string, answerId: string,
                questionFault: Option<string>, answerFault: Option<string>)
    returns (res: Response<string>)
    requires questionId != answerId
    modifies db`messages, rag`questions
    ensures var o := Query(httpMethod, req, verify, rag.reply, |old(rag.questions)|,
                           questionId, answerId, questionFault, answerFault);
            && res == o.response
            && rag.questions == old(rag.questions) + o.asked
            && db.messages == PutAll(old(db.messages), o.written)
    // A 200 leaves both records stored, under their own ids.
    ensures res.status == 200 ==>
              && req.question.Some? && req.threadId.Some? && res.payload.Json?
              && questionId in db.messages && db.messages[questionId].Asked?
              && db.messages[questionId].content == req.question.value
              && answerId in db.messages
              && db.messages[answerId] == AnswerRecord(res.payload.value, req.threadId.value)
  {
    if httpMethod != "POST" {
      return Response(405, NoBody);
    }
    if !Truthy(req.question) || !Truthy(req.threadId) {
      return Fail(400, MissingFields);
    }
    var userId: Option<string> := None;
    if Truthy(req.userToken) {
      var decoded := verify(req.userToken.value);
      if decoded.None? {
        return Fail(401, BadToken);
      }
      userId := OrNull(decoded);
    }
    var question, threadId := req.question.value, req.threadId.value;
    var r := rag.Ask(question);
    if r.RagNotOk? {
      return Fail(500, UpstreamFailed + r.body);
    } else if r.RagThrew? {
      return Fail(500, r.message);
    }
    var answer := AnswerOf(r.finalResponse, r.answer);
    if questionFault.Some? {
      return Fail(500, questionFault.value);
    }
    ghost var first: (string, Message) := (questionId, QuestionRecord(question, threadId, userId));
    db.messages := db.messages[questionId := QuestionRecord(question, threadId, userId)];
    assert db.messages == PutAll(old(db.messages), [first]) by {
      assert [first][1..] == [];
    }
    if answer.None? {
      return Fail(500, UndefinedContent);
    }
    if answerFault.Some? {
      return Fail(500, answerFault.value);
    }
    ghost var second: (string, Message) := (answerId, AnswerRecord(answer.value, threadId));
    db.messages := db.messages[answerId := AnswerRecord(answer.value, threadId)];
    assert db.messages == PutAll(old(db.messages), [first, second]) by {
      var afterFirst := old(db.messages)[first.0 := first.1];
      assert [first, second][1..] == [second];
      assert [second][1..] == [];
      assert PutAll(old(db.messages), [first, second]) == PutAll(afterFirst, [second]);
      assert PutAll(afterFirst, [second]) == afterFirst[second.0 := second.1];
    }
    res := Response(200, Json(answer.value));
  }
}
