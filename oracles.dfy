/** The services the routes call and cannot see into: the chat-completion
    API and the RAG question-answering endpoint. Each is a log of the calls
    made to it and an uninterpreted reply; which call it is (its position
    in the log) is an argument of the reply, so the same prompt may be
    answered differently twice. */
module Oracles {
  import opened Js
  import opened Store

  /** A prompt, recorded by the inputs it embeds; its fixed wording and
      the sampling parameters are not modelled. */
  datatype Prompt =
    | SummaryPrompt(project: ProjectDoc, transcript: string)
    | CommunicationPrompt(project: ProjectDoc, transcript: string)
    | CustomPrompt(request: string, project: ProjectDoc, transcript: string)
    | SectionsPrompt(project: ProjectDoc, transcript: string)
    | DraftPrompt(sections: string, project: ProjectDoc, transcript: string)
    | ReferencesPrompt(draft: string)
    | RefinePrompt(draft: string, references: string)
    | InsightPrompt(transcript: string, insightType: string)  // the template of that insight type

  /** A completion call either throws or returns
      `choices[0]?.message?.content`, which may be missing. */
  datatype Completion = Threw(message: string) | Returned(content: Option<string>)

  /** `completion.content || fallback` for a call that did not throw. */
  function TextOr(c: Completion, fallback: string): (text: string)
    requires c.Returned?
    ensures Truthy(c.content) ==> text == c.content.value
    ensures !Truthy(c.content) ==> text == fallback
  {
    OrElse(c.content, fallback)
  }

  class ChatCompletions {
    /** The provider's answer to the `n`-th call with a given prompt. */
    const reply: (nat, Prompt) -> Completion
    /** Every prompt sent so far, in order. */
    var calls: seq<Prompt>

    constructor (reply: (nat, Prompt) -> Completion)
      ensures this.reply == reply && calls == []
    {
      this.reply := reply;
      calls := [];
    }

    /** `openai.chat.completions.create(...)`. */
    method Create(prompt: Prompt) returns (c: Completion)
      modifies this`calls
      ensures calls == old(calls) + [prompt]
      ensures c == reply(|old(calls)|, prompt)
    {
      c := reply(|calls|, prompt);
      calls := calls + [prompt];
    }
  }

  /** The RAG endpoint's reply to a `POST {question}`: a parsed body with
      its two answer fields, a non-2xx status with its body text, or an
      exception (network failure, body that is not JSON). */
  datatype RagReply =
    | RagOk(finalResponse: Option<string>, answer: Option<string>)
    | RagNotOk(body: string)
    | RagThrew(message: string)

  class RagEndpoint {
    const reply: (nat, string) -> RagReply
    /** Every question posted so far, in order. */
    var questions: seq<string>

    constructor (reply: (nat, string) -> RagReply)
      ensures this.reply == reply && questions == []
    {
      this.reply := reply;
      questions := [];
    }

    /** `fetch(RAG_SERVICE_URL, {method: 'POST', body: {question}})`. */
    method Ask(question: string) returns (r: RagReply)
      modifies this`questions
      ensures questions == old(questions) + [question]
      ensures r == reply(|old(questions)|, question)
    {
      r := reply(|questions|, question);
      questions := questions + [question];
    }
  }
}
