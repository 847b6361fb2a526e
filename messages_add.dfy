/** `POST /api/messages/add`: appends a chat message to a thread's
    `messages` array, falling back to a merge write that sets the array to
    the new message alone when the update fails, and stores the message a
    second time in the flat `messages` collection. */
module MessagesAdd {
  import opened Js
  import opened Store
  import opened Http

  /** The request body; a field that is absent or not a string is `None`. */
  datatype AddRequest = AddRequest(threadId: Option<string>, content: Option<string>, sender: Option<string>)

  /** The success body `{ message, messageId }`. */
  datatype Added = Added(message: string, messageId: string)

  /** All three parameters are truthy. */
  predicate IsComplete(req: AddRequest) {
    Truthy(req.threadId) && Truthy(req.content) && Truthy(req.sender)
  }

  /** The record the route builds: a fresh id, the given content and
      sender, the clock reading, and the thread id as `conversationId`. */
  function NewMessage(req: AddRequest, messageId: string, now: int): (m: Message)
    requires IsComplete(req)
    ensures m.Appended? && m.id == messageId && m.timestamp == EpochMillis(now)
    ensures m.content == req.content.value && m.sender == req.sender.value
    ensures m.conversationId == req.threadId.value
  {
    Appended(messageId, req.content.value, req.sender.value, EpochMillis(now), req.threadId.value)
  }

  /** The thread document after the write. `update` succeeds only on an
      existing document and when the store does not fail; it then adds
      the message to the array and keeps every earlier message. Otherwise
      the merge write sets `messages` to the new message alone: other
      fields survive, earlier messages do not. */
  function ThreadAfter(doc: Option<ThreadDoc>, m: Message, updateFault: bool): (r: ThreadDoc)
    ensures r.meta == (if doc.Some? then doc.value.meta else None)
    ensures r.messages.Some? && m in r.messages.value
    ensures doc.Some? && !updateFault && doc.value.messages.Some? ==>
              var before := doc.value.messages.value;
              |before| <= |r.messages.value| <= |before| + 1 &&
              r.messages.value[..|before|] == before
    ensures doc.Some? && !updateFault ==> r.messages == Some(ArrayUnion(doc.value.messages, m))
    // The thread's first message: the update creates the array `[m]`.
    ensures doc.Some? && !updateFault && doc.value.messages.None? ==> r.messages == Some([m])
    ensures doc.None? || updateFault ==> r.messages == Some([m])
  {
    if doc.Some? && !updateFault then doc.value.(messages := Some(ArrayUnion(doc.value.messages, m)))
    else MergeMessages(doc, [m])
  }

  /** Whether the route falls back to the merge write: `update` throws
      on a missing document or a store failure. */
  predicate FallsBack(threads: map<string, ThreadDoc>, threadId: string, updateFault: bool) {
    threadId !in threads || updateFault
  }

  /** `mergeFault` and `flatFault` say whether the fallback `set` and the
      flat `messages` write throw. Neither is caught, so either ends the
      request with the framework's 500; a failed flat write comes after
      the thread was already written. */
  method Handle(db: Firestore, req: AddRequest, messageId: string, now: int,
                updateFault: bool, mergeFault: bool, flatFault: bool)
    returns (res: Response<Added>)
    modifies db`threads, db`messages
    ensures !IsComplete(req) ==>
              && res == Fail(400, "Missing parameters")
              && db.threads == old(db.threads) && db.messages == old(db.messages)
    // A failed fallback write leaves both collections as they were.
    ensures IsComplete(req) && FallsBack(old(db.threads), req.threadId.value, updateFault) && mergeFault ==>
              && res == Response(500, Crashed)
              && db.threads == old(db.threads) && db.messages == old(db.messages)
    // Otherwise only the named thread changes, as `ThreadAfter` says.
    ensures IsComplete(req) && !(FallsBack(old(db.threads), req.threadId.value, updateFault) && mergeFault) ==>
              var m := NewMessage(req, messageId, now);
              var threadId := req.threadId.value;
              db.threads == old(db.threads)[threadId := ThreadAfter(Lookup(old(db.threads), threadId), m, updateFault)]
    // The flat collection gains the message exactly when the route answers
    // 200, and the answer names its id.
    ensures IsComplete(req) && !(FallsBack(old(db.threads), req.threadId.value, updateFault) && mergeFault) ==>
              && (flatFault ==> res == Response(500, Crashed) && db.messages == old(db.messages))
              && (!flatFault ==>
                    && db.messages == old(db.messages)[messageId := NewMessage(req, messageId, now)]
                    && res == Response(200, Json(Added("Message added", messageId))))
    ensures res.status == 200 && messageId !in old(db.messages) ==> |db.messages| == |old(db.messages)| + 1
  {
    if !IsComplete(req) {
      return Fail(400, "Missing parameters");
    }
    var threadId := req.threadId.value;
    var message := NewMessage(req, messageId, now);
    if threadId in db.threads && !updateFault {
      var doc := db.threads[threadId];
      db.threads := db.threads[threadId := doc.(messages := Some(ArrayUnion(doc.messages, message)))];
    } else {
      if mergeFault {
        return Response(500, Crashed);
      }
      db.threads := db.threads[threadId := MergeMessages(Lookup(db.threads, threadId), [message])];
    }
    if flatFault {
      return Response(500, Crashed);
    }
    db.messages := db.messages[messageId := message];
    res := Response(200, Json(Added("Message added", messageId)));
  }

  /** When the update fails on a thread that already holds messages (a
      store failure rather than a missing document), the fallback write
      loses them all but the new one. */
  lemma FallbackLosesHistory(doc: ThreadDoc, m: Message)
    requires doc.messages.Some? && |doc.messages.value| >= 1
    ensures var r := ThreadAfter(Some(doc), m, true);
            forall x :: x in doc.messages.value && x != m ==> x !in r.messages.value
    // The same thread without the store failure keeps every one of them.
    ensures var r := ThreadAfter(Some(doc), m, false);
            forall x :: x in doc.messages.value ==> x in r.messages.value
  {
  }
}
