/** The document store as the routes and pages see it: one map from
    document id to record per collection, plus the two array-field writes
    the message route relies on (`arrayUnion` and a merge `set`). */
module Store {
  import opened Js

  /** How a time value is held in a document. */
  datatype Timestamp =
    | EpochMillis(ms: int)   // a number taken from `Date.now()`
    | DateValue(ms: int)     // a `new Date()`, stored as a store timestamp
    | ServerTime             // `serverTimestamp()`, filled in by the store

  /** A chat message, in the three shapes the routes write: the message
      route's record, and the question and answer records of the RAG
      proxy. Every shape has `content`, `sender`, `timestamp` and
      `conversationId` (the thread id). */
  datatype Message =
    | Appended(id: string, content: string, sender: string, timestamp: Timestamp, conversationId: string)
    | Asked(content: string, conversationId: string, role: string, sender: string,
            timestamp: Timestamp, userId: Option<string>)
    | Answered(content: string, conversationId: string, role: string, sender: string,
               timestamp: Timestamp)

  /** The fields a thread page writes when it creates a thread. */
  datatype ThreadMeta = ThreadMeta(
    title: string, ownerId: string, projectId: Option<string>, messageCount: int,
    lastModified: int, tags: Option<seq<string>>, ownerName: Option<string>)

  /** A `threads` document. A document created by the message route's
      fallback write has no metadata, only `messages`. */
  datatype ThreadDoc = ThreadDoc(meta: Option<ThreadMeta>, messages: Option<seq<Message>>)

  /** A `projects` document. `id` is a data field named `id`, which some
      listings spread over the document id. */
  datatype ProjectDoc = ProjectDoc(
    projectName: Option<string>, facilityName: Option<string>, ownerId: Option<string>,
    status: Option<string>, priority: Option<string>,
    createdAt: Option<Timestamp>, updatedAt: Option<Timestamp>, id: Option<string>)

  /** A `reports` document. */
  datatype Report = Report(
    projectId: string, userId: Option<string>, title: string, content: string,
    reportType: string, createdAt: Timestamp)

  /** An `insights` document. */
  datatype Insight = Insight(threadId: string, title: string, content: string, createdAt: Timestamp)

  /** A `signup` document (the footer's newsletter form). */
  datatype Signup = Signup(email: string, timestamp: Timestamp)

  /** The store: one map per collection. */
  class Firestore {
    var projects: map<string, ProjectDoc>
    var threads: map<string, ThreadDoc>
    var messages: map<string, Message>
    var reports: map<string, Report>
    var insights: map<string, Insight>
    var signup: map<string, Signup>

    constructor ()
      ensures projects == map[] && threads == map[] && messages == map[]
      ensures reports == map[] && insights == map[] && signup == map[]
    {
      projects, threads, messages := map[], map[], map[];
      reports, insights, signup := map[], map[], map[];
    }
  }

  /** `docs` is what a query over the whole collection `m` returns: every
      document exactly once, with its data. */
  ghost predicate IsSnapshotOf<V>(docs: seq<(string, V)>, m: map<string, V>) {
    && (forall i :: 0 <= i < |docs| ==> docs[i].0 in m && m[docs[i].0] == docs[i].1)
    && (forall i, j :: 0 <= i < j < |docs| ==> docs[i].0 != docs[j].0)
    && (forall id :: id in m ==> exists i :: 0 <= i < |docs| && docs[i].0 == id)
  }

  /** `update({messages: arrayUnion(m)})` on an existing document: the
      element is added at the end unless an equal element is already
      there; a missing field becomes `[m]`. */
  function ArrayUnion(existing: Option<seq<Message>>, m: Message): (r: seq<Message>)
    ensures m in r
    ensures existing.None? ==> r == [m]
    ensures existing.Some? ==> |existing.value| <= |r| <= |existing.value| + 1
    ensures existing.Some? ==> r[..|existing.value|] == existing.value
    ensures existing.Some? && m in existing.value ==> r == existing.value
    ensures existing.Some? && m !in existing.value ==> r == existing.value + [m]
  {
    if existing.None? then [m]
    else if m in existing.value then existing.value
    else existing.value + [m]
  }

  /** A message whose id no stored message carries is appended. */
  lemma FreshMessageAppended(existing: seq<Message>, m: Message)
    requires m.Appended?
    requires forall k :: 0 <= k < |existing| ==> !existing[k].Appended? || existing[k].id != m.id
    ensures ArrayUnion(Some(existing), m) == existing + [m]
  {
    assert m !in existing by {
      forall k | 0 <= k < |existing| ensures existing[k] != m {
        assert !existing[k].Appended? || existing[k].id != m.id;
      }
    }
  }

  /** `set({messages: ms}, {merge: true})`: `messages` is replaced, every
      other field of an existing document is kept, and a missing document
      is created with `messages` alone. */
  function MergeMessages(doc: Option<ThreadDoc>, ms: seq<Message>): (r: ThreadDoc)
    ensures r.messages == Some(ms)
    ensures doc.Some? ==> r.meta == doc.value.meta
    ensures doc.None? ==> r.meta.None?
  {
    if doc.Some? then doc.value.(messages := Some(ms)) else ThreadDoc(None, Some(ms))
  }

  /** A collection after an optional `set` of one document. */
  function Put<V>(m: map<string, V>, w: Option<(string, V)>): map<string, V> {
    if w.Some? then m[w.value.0 := w.value.1] else m
  }

  /** A collection after a sequence of `set`s, applied in order. */
  function PutAll<V>(m: map<string, V>, ws: seq<(string, V)>): map<string, V>
    decreases |ws|
  {
    if ws == [] then m else PutAll(m[ws[0].0 := ws[0].1], ws[1..])
  }

  /** The document stored under `id`, if any. */
  function Lookup<V>(m: map<string, V>, id: string): (r: Option<V>)
    ensures r.Some? <==> id in m
    ensures r.Some? ==> r.value == m[id]
  {
    if id in m then Some(m[id]) else None
  }
}
