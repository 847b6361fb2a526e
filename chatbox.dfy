/** The chat box of a thread: shows the conversation, posts each
    question to the question-answering route, and shows the answer. */
module ChatBox {
  import opened Js
  import opened Http
  import RagQuery

  datatype Role = User | Assistant

  datatype ChatMessage = ChatMessage(content: string, role: Role)

  /** What the chat box does that can be observed, in order: a message
      shown, or a request body posted to the route. */
  datatype ChatEvent = Displayed(message: ChatMessage) | Posted(body: RagQuery.QueryRequest)

  /** `data.answer` of the route's JSON body; an error body has none. */
  function AnswerField(res: Response<string>): (a: Option<string>)
    ensures a.Some? <==> res.payload.Json?
    ensures a.Some? ==> a.value == res.payload.value
  {
    if res.payload.Json? then Some(res.payload.value) else None
  }

  /** `response.json()` reads the body: it does for the route's JSON
      bodies, and throws on any other. */
  predicate ReadsAsJson(res: Response<string>) {
    res.payload.Json? || res.payload.ErrorJson?
  }

  /** The list after one exchange: the question as the user's message,
      then the answer when it is a non-empty string. Earlier messages stay
      where they were. */
  function AfterExchange(messages: seq<ChatMessage>, question: string, answer: Option<string>)
    : (r: seq<ChatMessage>)
    ensures |r| == |messages| + 1 || |r| == |messages| + 2
    ensures r[..|messages|] == messages
    ensures r[|messages|] == ChatMessage(question, User)
    ensures |r| == |messages| + 2 <==> Truthy(answer)
    ensures Truthy(answer) ==> r[|messages| + 1] == ChatMessage(answer.value, Assistant)
  {
    var withQuestion := messages + [ChatMessage(question, User)];
    if Truthy(answer) then withQuestion + [ChatMessage(answer.value, Assistant)] else withQuestion
  }

  /** One submit with the question box holding `question`: a blank
      question does nothing; otherwise the question is shown, and the
      answer too when `reply` (the route's response, `None` when the
      request fails) has a JSON body that carries one. A body that is not
      JSON throws when read, which leaves only the question shown. */
  function Submit(messages: seq<ChatMessage>, question: string, reply: Option<Response<string>>)
    : (r: seq<ChatMessage>)
    ensures IsBlank(question) ==> r == messages
    ensures !IsBlank(question) && (reply.None? || !ReadsAsJson(reply.value)) ==>
              r == messages + [ChatMessage(question, User)]
    ensures !IsBlank(question) && reply.Some? && ReadsAsJson(reply.value) ==>
              r == AfterExchange(messages, question, AnswerField(reply.value))
  {
    if IsBlank(question) then messages
    else if reply.None? || !ReadsAsJson(reply.value) then messages + [ChatMessage(question, User)]
    else AfterExchange(messages, question, AnswerField(reply.value))
  }

  /** The list after a series of submits. */
  function Replay(messages: seq<ChatMessage>, submits: seq<(string, Option<Response<string>>)>)
    : seq<ChatMessage>
    decreases |submits|
  {
    if submits == [] then messages
    else Replay(Submit(messages, submits[0].0, submits[0].1), submits[1..])
  }

  /** Messages are never removed or reordered: whatever was shown before
      a series of submits is still shown first, and every non-blank
      question adds at least one message. */
  lemma {:induction false} ReplayOnlyAppends(messages: seq<ChatMessage>, submits: seq<(string, Option<Response<string>>)>)
    ensures var r := Replay(messages, submits);
            && |r| >= |messages| + |NonBlank(submits)|
            && r[..|messages|] == messages
    decreases |submits|
  {
    if submits != [] {
      var next := Submit(messages, submits[0].0, submits[0].1);
      ReplayOnlyAppends(next, submits[1..]);
      var r := Replay(next, submits[1..]);
      assert next[..|messages|] == messages;
      assert r[..|messages|] == r[..|next|][..|messages|];
    }
  }

  /** The questions of a series of submits that are not blank. */
  function NonBlank(submits: seq<(string, Option<Response<string>>)>): (qs: seq<string>)
    ensures |qs| <= |submits|
    ensures forall k :: 0 <= k < |qs| ==> !IsBlank(qs[k])
    decreases |submits|
  {
    if submits == [] then []
    else (if IsBlank(submits[0].0) then [] else [submits[0].0]) + NonBlank(submits[1..])
  }

  /** A successful route response whose answer is not empty is shown as
      the assistant's message. */
  lemma RouteAnswerShown(messages: seq<ChatMessage>, question: string, answer: string)
    requires !IsBlank(question) && answer != ""
    ensures Submit(messages, question, Some(Response(200, Json(answer))))
            == messages + [ChatMessage(question, User), ChatMessage(answer, Assistant)]
  {
  }

  class Chat {
    const threadId: string
    const userToken: Option<string>
    var messages: seq<ChatMessage>
    var question: string
    var events: seq<ChatEvent>

    constructor (threadId: string, initialMessages: seq<ChatMessage>, userToken: Option<string>)
      ensures this.threadId == threadId && this.userToken == userToken
      ensures messages == initialMessages && question == "" && events == []
    {
      this.threadId, this.userToken := threadId, userToken;
      messages, question, events := initialMessages, "", [];
    }

    method SetQuestion(value: string)
      modifies this`question
      ensures question == value
    {
      question := value;
    }

    /** `handleSubmit`. `reply` is the route's response, or `None` when
        the request throws; that, or a body that is not JSON, ends the
        handler before the question is cleared. */
    method HandleSubmit(reply: Option<Response<string>>)
      modifies this`messages, this`question, this`events
      ensures messages == Submit(old(messages), old(question), reply)
      ensures IsBlank(old(question)) ==> question == old(question) && events == old(events)
      // The question is shown before it is posted, and the answer after.
      ensures !IsBlank(old(question)) && (reply.None? || !ReadsAsJson(reply.value)) ==>
                && question == old(question)
                && events == old(events)
                             + [Displayed(ChatMessage(old(question), User)),
                                Posted(RagQuery.QueryRequest(Some(old(question)), userToken, Some(threadId)))]
      ensures !IsBlank(old(question)) && reply.Some? && ReadsAsJson(reply.value) ==>
                && question == ""
                && var answer := AnswerField(reply.value);
                   events == old(events)
                             + [Displayed(ChatMessage(old(question), User)),
                                Posted(RagQuery.QueryRequest(Some(old(question)), userToken, Some(threadId)))]
                             + (if Truthy(answer) then [Displayed(ChatMessage(answer.value, Assistant))] else [])
    {
      if IsBlank(question) {
        return;
      }
      var userMsg := ChatMessage(question, User);
      messages := messages + [userMsg];
      events := events + [Displayed(userMsg)];
      events := events + [Posted(RagQuery.QueryRequest(Some(question), userToken, Some(threadId)))];
      if reply.None? || !ReadsAsJson(reply.value) {
        return;
      }
      var answer := AnswerField(reply.value);
      if Truthy(answer) {
        var aiMsg := ChatMessage(answer.value, Assistant);
        messages := messages + [aiMsg];
        events := events + [Displayed(aiMsg)];
      }
      question := "";
    }
  }
}
