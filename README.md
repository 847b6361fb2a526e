# h2safety — a Dafny model of the API routes and page logic

h2safety is a Next.js application for hydrogen-safety engineering
projects. Users keep projects and chat threads in a Firestore database,
ask a question-answering (RAG) service about a thread, and have a chat
model write reports and insights from a thread's transcript. This project
models the request-handling logic of its API routes and the list, string
and state logic of its pages, and proves what each one promises.

How the model is built:

- **The store** (`Store.Firestore`) is a class with one map per
  collection: `projects`, `threads`, `messages`, `reports`, `insights`
  and `signup`. Each route handler is a method that may modify only the
  collections it writes. Store failures are parameters (a flag, or the
  store's error message).
- **The chat model and the RAG service** (`Oracles.ChatCompletions`,
  `Oracles.RagEndpoint`) each keep a log of the calls made to them and
  answer through a fixed, uninterpreted reply function. The reply
  function takes the call's position in the log, so the same prompt can
  be answered differently twice.
- **Ids and clock readings** are parameters. So are the token check,
  the lower-casing function and the store's timestamp order.
- **Each route** is a pure function that returns the response, the
  prompts sent and the documents written. This function carries the
  route's contract: error order, "nothing written on error", and exactly
  what is stored. The imperative `Handle` method is proved to produce
  exactly that response and that new store state.
- **Each page** is a class whose fields are the page's React state. Its
  event handlers are methods over those fields. The pure list and string
  logic they use (filters, sorts, preview, e-mail check) is a set of
  functions with lemmas.

Modules: `Js` (truthiness, `||`, `trim`), `Strings` (split, join,
contains), `Lists` (filter, stable sort, take), `Store`, `Http`,
`Oracles`, `Transcript`, one module per route (`MessagesAdd`,
`ReportsGenerate`, `ReportsMultistep`, `InsightsGenerate`, `RagQuery`,
`ReportsUpdate`, `ReportsDelete`, `ProjectsApi`, `DownloadDocx`) and one
per page or component (`ReportsPage`, `ThreadsPage`, `ProjectsPage`,
`Dashboard`, `Footer`, `ChatBox`).

Two behaviours of the code are worth noting:

- **The RAG route's two writes.** The question-answering route stores
  the question and then the answer. If the first write throws, the
  route stops without writing the answer. If the second write throws,
  the question's record stays behind (`RagQuery.Query`).
- **The project status values.** Projects created by the dashboard or
  by the projects route get the status 'active'. The projects page's
  colour table and status filter use 'Active'. So a newly created
  project gets the gray badge, and the 'Active' filter hides it
  (`ProjectsPage.CreatedStatusUnlisted`).

## Model

| member | source | states |
|---|---|---|
| Store.ArrayUnion | pages/api/messages/add.ts:40-42 | `arrayUnion` returns the array unchanged when an equal message is present, and otherwise appends the message at the end. Earlier messages stay, as a prefix. A missing array becomes the single message. |
| Store.FreshMessageAppended | pages/api/messages/add.ts:30-42 | A message with an id no stored message carries is appended. |
| Store.MergeMessages | pages/api/messages/add.ts:44 | A merge `set` replaces `messages` and keeps the thread's other fields. A missing document is created with `messages` alone. |
| Store.Lookup | pages/api/messages/add.ts:40-44 | The lookup finds a document exactly when its id is in the collection, and returns the stored document. |
| MessagesAdd.NewMessage | pages/api/messages/add.ts:29-37 | The message carries the fresh id, the given content and sender, the clock reading, and `conversationId` equal to the thread id. |
| MessagesAdd.ThreadAfter | pages/api/messages/add.ts:39-45 | A successful update gives exactly `ArrayUnion` of the stored array and the message: every earlier message kept as a prefix, the new one at the end unless an equal one is there, and `[m]` for a thread with no `messages` array yet (its first message). A missing thread or a failed update leaves `messages == [m]`. The thread's metadata is kept either way. |
| MessagesAdd.FallbackLosesHistory | pages/api/messages/add.ts:43-45 | On a thread that already holds messages, the fallback write drops every earlier message other than the new one, where a successful update would have kept them all. |
| MessagesAdd.Handle | pages/api/messages/add.ts:23-49 | Missing parameters give 400 and change neither collection. A failed fallback write ends in the framework's 500 and changes nothing. Otherwise only the named thread changes, as `ThreadAfter` says. Then a failed flat write ends in the framework's 500 with the thread already written. Otherwise `messages` gains the message under its id, and the 200 answer carries that id. |
| Transcript.ThreadMessages | pages/api/reports/generate.ts:58 | A thread without a `messages` field counts as having none. |
| Transcript.Entry | pages/api/reports/generate.ts:61-68 | An entry is 'AI: ' plus the content when the sender is 'ai', and 'User: ' plus the content otherwise. |
| Transcript.Entries | pages/api/reports/generate.ts:61-68 | There is one entry per message, in message order. |
| Transcript.ConversationAppend | pages/api/reports/generate.ts:61-69 | Appending a message to a non-empty thread appends a blank line and its entry to the transcript. |
| Transcript.ConversationSmall | pages/api/reports/generate.ts:61-69 | An empty thread gives ''. A single message gives its entry. |
| Oracles.TextOr | pages/api/reports/generate.ts:148 | The model's text is used when it is non-empty; otherwise the fallback text is. |
| Oracles.ChatCompletions.Create | pages/api/reports/generate.ts:136-146 | A call is logged once, in order, and answered by the reply function at its position in the log. |
| Oracles.RagEndpoint.Ask | pages/api/rag/query.ts:29-34 | A question is logged once, in order, and answered by the reply function at its position in the log. |
| ReportsGenerate.Prepare | pages/api/reports/generate.ts:27-131 | The model is asked exactly when all of these hold: the three fields are strings, the project and the thread exist, and the type is served. Checks run in this order: 400 for a bad type, then project 404, then thread 404, then the custom-prompt or unknown-type 400. The prompt embeds the stored project and the thread's transcript. |
| ReportsGenerate.UpperAscii | pages/api/reports/generate.ts:167 | A lower-case ASCII letter becomes upper case; any other character is kept. |
| ReportsGenerate.Capitalize | pages/api/reports/generate.ts:167 | The first character is upper-cased and the rest is kept; the length is unchanged. |
| ReportsGenerate.SuccessMessage | pages/api/reports/generate.ts:166-169 | The message is the capitalised report type followed by ' report generated successfully.'. |
| ReportsGenerate.Generate | pages/api/reports/generate.ts:23-174 | A refusal sends nothing and writes nothing. An accepted request sends one prompt. A report is written exactly when the answer is 200. Its text is the model's answer to that prompt, or 'No report content generated.' when the answer is missing or empty, and the route returns that text. The report's title is 'Report - ', then the project name (or 'Project'), then the type in parentheses. It also holds the type, the project, and the owner or null. A model failure and a write failure give the same fixed 500. |
| ReportsGenerate.Handle | pages/api/reports/generate.ts:23-174 | The response, the model's call log and the reports collection are exactly what `Generate` gives. |
| ReportsMultistep.StageText | pages/api/reports/multistep-generate.ts:208 | A stage's missing or empty answer counts as ''. |
| ReportsMultistep.Pipeline | pages/api/reports/multistep-generate.ts:77-208 | The calls go sections, draft, references, refine, each at most once. The chain stops at the first call that throws, with its message. The draft prompt embeds stage 1's text with the project and transcript. References embed the draft. Refine embeds the draft and the references. The report is the refinement's text. |
| ReportsMultistep.ProjectReport | pages/api/reports/multistep-generate.ts:211-218 | The report has the title 'Engineering Report - ' followed by the project name (or 'Project'), type 'project', the returned content, the project id, the owner or null, and the clock reading. |
| ReportsMultistep.Multistep | pages/api/reports/multistep-generate.ts:33-227 | Bad ids give 400, then project 404, then thread 404, each with no call and no write. A stage that throws gives 500 with its message and no report. A report is stored exactly when the answer is 200. |
| ReportsMultistep.Handle | pages/api/reports/multistep-generate.ts:33-227 | The response, the call log and the reports collection are exactly what `Multistep` gives. |
| InsightsGenerate.LookupAsWritten | pages/api/insights/generate.ts:24-54 | The bracket lookup finds an own template exactly for the three table keys. It finds an inherited member exactly for the other `Object.prototype` names. |
| InsightsGenerate.InheritedNameAccepted | pages/api/insights/generate.ts:52-54 | The guard as written accepts 'toString' and '__proto__', which have no template. |
| InsightsGenerate.Template | pages/api/insights/generate.ts:24-41 | The corrected lookup finds a template exactly for the three table keys. |
| InsightsGenerate.TemplateAgreesOnOwnKeys | pages/api/insights/generate.ts:52-54 | The corrected guard accepts a subset of what the written guard accepts. The two differ only on prototype names. |
| InsightsGenerate.Generate | pages/api/insights/generate.ts:43-127 | It uses the corrected guard (`Template`). The thread id is checked first (400), then the insight type (400), then the thread (404). The model is called exactly once when they pass, with the transcript and the template. A model failure gives 500 and no write. An insight is written exactly on 200, titled with its type. Its text is the model's answer, or 'No insights generated.' when the answer is missing or empty, and the route returns that text. |
| InsightsGenerate.Handle | pages/api/insights/generate.ts:43-127 | The response, the call log and the insights collection are exactly what `Generate` gives. |
| RagQuery.AnswerOf | pages/api/rag/query.ts:44 | The answer is `final_response` when it is truthy, otherwise `answer`. |
| RagQuery.QuestionRecord | pages/api/rag/query.ts:47-54 | The question's record has role and sender 'user', the thread as `conversationId`, and the verified user id or null. |
| RagQuery.AnswerRecord | pages/api/rag/query.ts:57-63 | The answer's record has role 'assistant', sender 'ai', and the thread as `conversationId`. |
| RagQuery.Caller | pages/api/rag/query.ts:16-24 | No token admits the caller with a null user. A token is admitted exactly when its check succeeds, with that uid. |
| RagQuery.Query | pages/api/rag/query.ts:6-69 | Checks run in order: 405, then 400, then 401. The service is asked once exactly when they pass. A non-ok reply gives 500 with its body; a throw gives 500 with its message. Nothing is written unless the service answered. The question is written before the answer. Two writes happen exactly when the answer is 200. An answer that is missing leaves the question recorded and gives 500 with the store's message about an undefined field. A failed first write gives 500 with the store's message and records nothing; a failed second write gives 500 with its message and leaves only the question. The status is always one of 200, 400, 401, 405 and 500. The two record ids are distinct, as `addDoc` draws them. |
| RagQuery.Handle | pages/api/rag/query.ts:6-69 | The response, the service log and the messages collection are exactly what `Query` gives, with the writes in order. After a 200 both records are stored under their own ids: the question and the answer's assistant record. |
| ReportsUpdate.Update | pages/api/reports/update.ts:22-39 | Non-string fields give 400. Success happens exactly when the report exists and the store does not fail. Then only that report's title changes; every other report and field stays. A store failure gives 500 with its message. |
| ReportsUpdate.UpdateIdempotent | pages/api/reports/update.ts:31-34 | Repeating a rename changes nothing more. |
| ReportsUpdate.Handle | pages/api/reports/update.ts:22-39 | The response and the reports collection are exactly what `Update` gives. |
| ReportsDelete.Delete | pages/api/reports/delete.ts:21-35 | A non-string id gives 400. A store failure gives 500 with its message. Otherwise the report is gone, every other report is untouched, and the answer is 200. |
| ReportsDelete.DeleteIdempotent | pages/api/reports/delete.ts:27-30 | A repeated delete gives the same answer and the same store. |
| ReportsDelete.Handle | pages/api/reports/delete.ts:21-35 | The response and the reports collection are exactly what `Delete` gives. |
| ProjectsApi.EntryOf | pages/api/projects/index.ts:9 | A listed entry has the document's data. Its id is the document id, unless the data has an `id` field, which wins in the spread. |
| ProjectsApi.ListEntries | pages/api/projects/index.ts:8-10 | There is one entry per snapshot document, in order. |
| ProjectsApi.ListingNamesEachProjectOnce | pages/api/projects/index.ts:7-10 | When no document has an `id` field, the listing names every stored project exactly once, with its data. |
| ProjectsApi.NewProject | pages/api/projects/index.ts:17-24 | The stored project has the given name and owner, `facilityName` defaulting to '', status 'active', and server timestamps. |
| ProjectsApi.Projects | pages/api/projects/index.ts:6-31 | GET lists and writes nothing. An incomplete POST gives 400. Any other method gives 405. A project is written exactly by a complete POST, which answers 201 with the new id and the stored fields. |
| ProjectsApi.Handle | pages/api/projects/index.ts:6-31 | The response and the projects collection are exactly what `Projects` gives. |
| DownloadDocx.Texts | pages/api/reports/download-docx.ts:38-43 | There is one text per paragraph, in order. |
| DownloadDocx.LineParagraphs | pages/api/reports/download-docx.ts:38-43 | There is one plain paragraph per line, in order, with 100 after it. |
| DownloadDocx.LineParagraphsText | pages/api/reports/download-docx.ts:38-43 | The line paragraphs give back the lines they were made from. |
| DownloadDocx.BuildDocument | pages/api/reports/download-docx.ts:46-81 | The four heading paragraphs come first. Then there is one paragraph per '\n'-separated line, so 4 + (line breaks + 1) paragraphs in all. No content paragraph holds a line break. Joining the content texts with '\n' gives back the report's content. |
| DownloadDocx.FileName | pages/api/reports/download-docx.ts:88 | The file name is 'report-', the id, then '.docx'. |
| DownloadDocx.Render | pages/api/reports/download-docx.ts:23-90 | A missing id gives 400. An unknown report gives 404. Otherwise the answer is 200 with the document and the attachment header. |
| ReportsPage.RowOf | pages/reports/index.tsx:40 | A row carries the document id and the report's fields. |
| ReportsPage.RowsOf | pages/reports/index.tsx:40 | There is one row per document, in order. |
| ReportsPage.Retitle | pages/reports/index.tsx:92-94 | Only the rows with the id get the new title; every other row is unchanged. |
| ReportsPage.WithoutReport | pages/reports/index.tsx:65 | The rows with the id are gone. Every other row stays, in order, as many times as it was listed. |
| ReportsPage.Preview | pages/reports/index.tsx:147-148 | A first line of at most 100 characters is the preview, whole. A longer one is cut to its first 100 characters and '...' is added. The preview never holds a line break. |
| ReportsPage.FirstLine | pages/reports/index.tsx:147 | The first piece of the split is the text before the first line break, or the whole content when there is none. |
| ReportsPage.DownloadName | pages/reports/index.tsx:118 | The saved name is 'report-', the id, '.', then the format. |
| ReportsPage.DocxNamesAgree | pages/reports/index.tsx:118 | The page saves a Word file under the name the route sends. |
| ReportsPage.Page.constructor | pages/reports/index.tsx:21-27 | The initial state: no reports, loading, and no edit open. |
| ReportsPage.Page.Load | pages/reports/index.tsx:29-51 | Nothing happens while the user is loading. With no user, the error 'Please log in to view reports.' is shown and nothing loads. Otherwise the rows of the snapshot, or the read's error, are shown. |
| ReportsPage.Page.HandleDelete | pages/reports/index.tsx:53-70 | Nothing happens without confirmation. Otherwise the request is sent. On success the row leaves the list. On a failure answer the list is unchanged and the route's error text is shown. When the request itself is rejected, the list is unchanged and the rejection's message is shown. |
| ReportsPage.Page.StartEditing | pages/reports/index.tsx:72-75 | The edit form opens on the report's id and current title. |
| ReportsPage.Page.CancelEditing | pages/reports/index.tsx:164 | The Cancel button closes the edit form. |
| ReportsPage.Page.HandleUpdate | pages/reports/index.tsx:77-101 | With a report open, the rename is sent. On success only that row's title changes and the form is cleared. On a failure answer or a rejected request the list and the form stay as they were, and the route's error text or the rejection's message is shown. |
| ReportsPage.Page.HandleDownload | pages/reports/index.tsx:103-123 | The request is sent. On success the file is saved as `report-<id>.<format>`. On a failure answer the error is shown. A rejected request saves nothing and shows nothing, because the handler catches nothing. |
| ThreadsPage.Cutoff | pages/threads/index.tsx:85-98 | 'day', 'week' and 'month' give the clock's readings one day, seven days and one month back. Any other value gives now. |
| ThreadsPage.RowOf | pages/threads/index.tsx:52-62 | A row carries the thread's fields, with missing tags becoming []. |
| ThreadsPage.RowsOf | pages/threads/index.tsx:52-62 | There is one row per document, in order. |
| ThreadsPage.OwnedRows | pages/threads/index.tsx:44-62 | The rows of the owner query are that owner's threads, each once, newest first. |
| ThreadsPage.Filtered | pages/threads/index.tsx:76-111 | A thread is kept exactly when it passes the search, date and count conditions. The kept threads are an order-preserving subsequence of the list, each as many times as the list holds it. |
| ThreadsPage.FilterIsFiltered | pages/threads/index.tsx:76-111 | Filtering by any condition that agrees with the three conditions gives the same list. |
| ThreadsPage.SearchStage | pages/threads/index.tsx:79-83 | The search step, applied only with a term, keeps the threads that pass the search. |
| ThreadsPage.DateStage | pages/threads/index.tsx:85-102 | The date step, skipped for 'all', keeps the threads that pass search and date. |
| ThreadsPage.CountStage | pages/threads/index.tsx:104-108 | The count step, applied only for a positive minimum, keeps the threads that pass all three. |
| ThreadsPage.FiltersInSequence | pages/threads/index.tsx:76-110 | The three optional filters in a row keep exactly the matching threads, in order. |
| ThreadsPage.Page.constructor | pages/threads/index.tsx:27-35 | The initial state: empty lists, loading, and no filters set. |
| ThreadsPage.Page.NoUser | pages/threads/index.tsx:38-42 | With no user, loading stops. |
| ThreadsPage.Page.OnSnapshot | pages/threads/index.tsx:50-65 | Both lists become the snapshot's rows, newest first, and loading stops. |
| ThreadsPage.Page.OnSnapshotError | pages/threads/index.tsx:66-70 | The error is shown and loading stops. |
| ThreadsPage.Page.SetFilters | pages/threads/index.tsx:141 | The filter options are replaced. |
| ThreadsPage.Page.ApplyFilters | pages/threads/index.tsx:76-111 | The shown list is exactly the matching threads, in order. |
| ProjectsPage.ColorOf | pages/projects/index.tsx:82 | A listed key gets its colour. The result is gray exactly when the key is absent or not listed. |
| ProjectsPage.StatusColor | pages/projects/index.tsx:76-83 | 'Active', 'Completed' and 'On Hold' get green, blue and yellow. Every other status is gray. |
| ProjectsPage.PriorityColor | pages/projects/index.tsx:85-92 | 'High', 'Medium' and 'Low' get red, yellow and green. Every other priority is gray. |
| ProjectsPage.StatusColorsDistinct | pages/projects/index.tsx:76-83 | Different listed statuses get different badges. |
| ProjectsPage.CreatedStatusUnlisted | pages/projects/index.tsx:76-95 | A project with status 'active', as both creators write it, gets the gray badge and is hidden by the 'Active' filter. |
| ProjectsPage.FilteredProjects | pages/projects/index.tsx:94-104 | The result has the projects that pass both filters, each as often as in the list. With the `updatedAt` sort they are ordered by `updatedAt.seconds` in the chosen direction. Otherwise they keep their order, because the zero comparator leaves the stable sort's input as it is. |
| ProjectsPage.FilteredMembers | pages/projects/index.tsx:94-104 | A project is listed exactly when it passes both filters. Without the `updatedAt` sort the list is an order-preserving subsequence. |
| ProjectsPage.AllFiltersKeepEverything | pages/projects/index.tsx:94-104 | With both filters on 'all', every project is listed. |
| Dashboard.ActiveCount | pages/dashboard.tsx:87 | The count of projects with status exactly 'active' is at most the total. It equals the number of positions whose status is 'active'. It equals the total exactly when all are active, and is 0 exactly when none is. |
| Dashboard.Analyze | pages/dashboard.tsx:81-113 | The analytics hold the two totals and the active count, which never exceeds the total. |
| Dashboard.ByUpdate | pages/dashboard.tsx:97-102 | The result is the owner's projects that have `updatedAt`, each once, newest first. |
| Dashboard.RecentQuery | pages/dashboard.tsx:97-102 | There are at most 5 recent projects, newest first, each a distinct entry of the owner's dated projects (a sub-multiset of them); fewer than 5 only when every dated project is listed. |
| Dashboard.RecentMembers | pages/dashboard.tsx:97-102 | Every recent project is one of the owner's dated projects. |
| Dashboard.RecentAreNewest | pages/dashboard.tsx:97-102 | A dated project left out means five are listed, none older than it. |
| Dashboard.RecentRows | pages/dashboard.tsx:104-107 | There is one row per document, in order, carrying the document id. |
| Dashboard.Visible | pages/dashboard.tsx:218-222 | A recent project is shown exactly when its lower-cased name or facility contains the lower-cased query. The shown list keeps the order, and each shown project appears as often as in the recent list. |
| Dashboard.EmptyQueryShowsAll | pages/dashboard.tsx:218-222 | An empty query shows every recent project. |
| Dashboard.NewProject | pages/dashboard.tsx:137-144 | The created project has the typed names, the user as owner, status 'active', and server timestamps. |
| Dashboard.SameRecordAsRoute | pages/dashboard.tsx:137-144 | The form stores the same document the projects route stores for the same names and owner. |
| Dashboard.Page.constructor | pages/dashboard.tsx:61-68 | The initial state: no analytics, an empty form, and the modal closed. |
| Dashboard.Page.Load | pages/dashboard.tsx:70-119 | Nothing happens while loading or without a user. A user whose `verified` is false is sent to /verify, and nothing is loaded. Otherwise the analytics and the recent projects are set. |
| Dashboard.Page.HandleCreateProject | pages/dashboard.tsx:122-158 | With no user, or a name that is blank after trimming, the error is shown and nothing is written. On success one project is added, the form is cleared and closed, and the page goes to the new project. A store error is shown and the form is kept. |
| Footer.FirstAt | components/Footer.tsx:35 | The result is the position of the first '@', or the length when there is none. |
| Footer.ValidateEmail | components/Footer.tsx:34-37 | An accepted address has exactly one '@' and no white space. |
| Footer.OneAt | components/Footer.tsx:35 | Two runs without '@' joined by an '@' hold exactly one '@'. |
| Footer.ValidateEmailMatchesPattern | components/Footer.tsx:34-37 | The validator accepts exactly the strings `^[^\s@]+@[^\s@]+\.[^\s@]+$` matches. |
| Footer.Form.constructor | components/Footer.tsx:27-32 | The initial state: an empty address, no status, and not submitting. |
| Footer.Form.SetEmail | components/Footer.tsx:112 | The address field is replaced. |
| Footer.Form.HandleSubmit | components/Footer.tsx:39-70 | An invalid address shows the error and writes nothing. A successful write adds the sign-up, clears the field and shows thanks. A failed write keeps the address and shows the error. `isSubmitting` is false after every valid attempt. |
| ChatBox.AnswerField | components/ChatBox.tsx:34-35 | There is an answer exactly when the body is the route's success body. |
| ChatBox.AfterExchange | components/ChatBox.tsx:24-38 | Earlier messages stay, then the user's message follows. The assistant's message follows that exactly when the answer is truthy. |
| ChatBox.Submit | components/ChatBox.tsx:20-41 | A blank question changes nothing. A failed request, or a body that is not JSON, leaves only the user's message added. Otherwise the result is `AfterExchange` with the body's answer. |
| ChatBox.NonBlank | components/ChatBox.tsx:22 | The result is the non-blank questions of a series of submits. |
| ChatBox.ReplayOnlyAppends | components/ChatBox.tsx:26-37 | Over any series of submits, no message is removed or reordered. Each non-blank question adds at least one message. |
| ChatBox.RouteAnswerShown | components/ChatBox.tsx:34-38 | A non-empty answer from the route is shown after the question. |
| ChatBox.Chat.constructor | components/ChatBox.tsx:16-18 | The initial state: the initial messages and an empty question. |
| ChatBox.Chat.SetQuestion | components/ChatBox.tsx:18 | The question is replaced. |
| ChatBox.Chat.HandleSubmit | components/ChatBox.tsx:20-41 | The message list becomes `Submit`'s result. The user's message is shown before the request is posted, and the answer after it. The question is cleared once a JSON body is read; a failed request or a body that is not JSON keeps it. A blank question does nothing. |

## Left out

- ReportsPage.Preview: lengths and the 100-character cut are counted in Unicode scalar values, not in the UTF-16 code units that the page's `length` and `slice` count. A first line with characters outside the Basic Multilingual Plane is cut later than the page cuts it, and a cut inside a surrogate pair cannot be represented.
- Process setup in every route (environment checks, service-account decoding, app initialisation) is I/O.
- Reading the request body is not modelled. A field that is absent or not a string is `None`. A truthy non-string field in the routes that only test truthiness is not modelled.
- Prompt wording and the sampling parameters are left out. A prompt is recorded by the inputs it embeds.
- Store reads that throw are left out; only write failures are parameters.
- The store's exact error texts are not modelled. `ReportsUpdate.NoDocument` and `RagQuery.UndefinedContent` stand for them.
- The lost-update hazard between the message route's failed update and its fallback write is left out; the model is sequential.
- pages/api/reports/download-pdf.ts is not part of this model: it draws through a foreign library. The Word document's byte packing is left out too; only the paragraph list is modelled.
- Unicode lower-casing is a parameter (`lower`). `ReportsGenerate.UpperAscii` upper-cases ASCII letters only.
- Calendar arithmetic for the thread date cutoff is a `Clock` parameter.
- Document-id path rules are not modelled.
- Snapshot listeners and their unsubscribe are left out. A snapshot arrives as a sequence of documents, related to the store by `IsSnapshotOf` or `IsOwnedQuery`.
- Rendering, styling and animation are left out.
- Firestore's tie-breaking by document id in `orderBy` is left out. `Dashboard.RecentQuery` is proved sorted, within the owner's dated projects, and the newest five (`Dashboard.RecentAreNewest`), not equal to one fixed order.
- ProjectsPage.FilteredProjects: the page's mapping of snapshot documents to rows is not modelled. Rows carry `updatedSeconds` already resolved. A row without `updatedAt` makes the page's comparator throw; that case is not modelled.
- ProjectsPage.PriorityColor: a priority naming an `Object.prototype` member (such as 'toString' or 'constructor') finds a function in the page's table, not gray. That case is not modelled.
- ProjectsPage.StatusColor: a status naming an `Object.prototype` member (such as 'toString') finds a function in the page's table, not gray. That case is not modelled.
- Dashboard.Visible: it requires both names to be present. The page throws on a recent project that lacks one, and every writer sets both.
- Dashboard.Page.Load: the project and thread reads are inputs. The five-project query is `RecentQuery` over the owner's projects, with the store's timestamp order as a parameter.
- RagQuery.Query: the service's answer fields are absent or a string. A JSON `null` answer, which the route would store and return with 200, is treated like an absent one (500), and answers of other JSON types are not modelled.
- MessagesAdd.Handle: the framework's 500 page after an uncaught write failure is `Crashed`; its body is not modelled.
- ProjectsApi.Handle: a failed write ends in the framework's default 500, which is not modelled.
- ChatBox.Chat.HandleSubmit: the optional `timestamp` that initial messages may carry is not modelled; the message the box builds has none. The rejected promise of a failed request is modelled only as `None`.
- Sign-in, e-mail verification and the user context are parameters (`signedIn`, `verified`, `uid`).

## Findings

| source | as written | input that shows it | evidently intended | confidence | as-written member | corrected member |
|---|---|---|---|---|---|---|
| pages/api/insights/generate.ts:52 | The insight-type guard tests the template table with a bracket lookup. That also finds the names every object inherits, so the guard accepts them. | `insightType: "toString"` passes, and the route calls the model with a built-in function's text as the template. | Accept only the table's own three keys. | not executed | InsightsGenerate.InheritedNameAccepted | InsightsGenerate.Template |
