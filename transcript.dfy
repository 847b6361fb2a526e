/** The conversation text that the report and insight routes build from a
    thread's messages: one "AI: ..." or "User: ..." entry per message, in
    order, separated by a blank line. */
module Transcript {
  import opened Js
  import opened Strings
  import opened Store

  /** `threadData.messages || []`. */
  function ThreadMessages(t: ThreadDoc): (ms: seq<Message>)
    ensures t.messages.None? ==> ms == []
    ensures t.messages.Some? ==> ms == t.messages.value
  {
    if t.messages.Some? then t.messages.value else []
  }

  /** One entry: 'AI: ' when the sender is 'ai', otherwise 'User: ',
      followed by the content. */
  function Entry(m: Message): (e: string)
    ensures m.sender == "ai" ==> e == "AI: " + m.content
    ensures m.sender != "ai" ==> e == "User: " + m.content
  {
    (if m.sender == "ai" then "AI" else "User") + ": " + m.content
  }

  function Entries(ms: seq<Message>): (es: seq<string>)
    ensures |es| == |ms|
    ensures forall k :: 0 <= k < |ms| ==> es[k] == Entry(ms[k])
  {
    if ms == [] then [] else [Entry(ms[0])] + Entries(ms[1..])
  }

  /** The entries joined by '\n\n'. */
  function Conversation(ms: seq<Message>): string {
    Join(Entries(ms), "\n\n")
  }

  /** Appending a message to a non-empty thread appends a blank line and
      its entry to the transcript. */
  lemma {:induction false} ConversationAppend(ms: seq<Message>, m: Message)
    requires ms != []
    ensures Conversation(ms + [m]) == Conversation(ms) + "\n\n" + Entry(m)
    decreases |ms|
  {
    var es := Entries(ms);
    assert Entries(ms + [m]) == es + [Entry(m)];
    JoinSnoc(es, Entry(m), "\n\n");
  }

  lemma {:induction false} JoinSnoc(parts: seq<string>, last: string, sep: string)
    requires parts != []
    ensures Join(parts + [last], sep) == Join(parts, sep) + sep + last
    decreases |parts|
  {
    if |parts| == 1 {
      assert (parts + [last])[1..] == [last];
    } else {
      assert (parts + [last])[1..] == parts[1..] + [last];
      JoinSnoc(parts[1..], last, sep);
    }
  }

  /** The transcript of a single message is its entry, and an empty thread
      gives the empty string. */
  lemma ConversationSmall(m: Message)
    ensures Conversation([]) == ""
    ensures Conversation([m]) == Entry(m)
  {
    assert Entries([m]) == [Entry(m)];
  }
}
