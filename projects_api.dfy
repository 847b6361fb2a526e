/** `/api/projects`: GET lists every project, POST creates one with
    status 'active', and any other method is refused. */
module ProjectsApi {
  import opened Js
  import opened Store
  import opened Http

  /** One listed project: `{ id: doc.id, ...doc.data() }`. */
  datatype ProjectEntry = ProjectEntry(id: string, data: ProjectDoc)

  datatype ProjectsBody = Listing(entries: seq<ProjectEntry>) | Created(entry: ProjectEntry)

  /** The POST body; a field that is absent or not a string is `None`. */
  datatype CreateRequest = CreateRequest(projectName: Option<string>, facilityName: Option<string>, ownerId: Option<string>)

  /** The spread puts the data after the document id, so a data field
      named `id` wins over it. */
  function EntryOf(docId: string, data: ProjectDoc): (e: ProjectEntry)
    ensures e.data == data
    ensures data.id.None? ==> e.id == docId
    ensures data.id.Some? ==> e.id == data.id.value
  {
    ProjectEntry(if data.id.Some? then data.id.value else docId, data)
  }

  /** `snap.docs.map(...)`, in the order of the snapshot. */
  function ListEntries(docs: seq<(string, ProjectDoc)>): (r: seq<ProjectEntry>)
    ensures |r| == |docs|
    ensures forall i :: 0 <= i < |docs| ==> r[i] == EntryOf(docs[i].0, docs[i].1)
  {
    if docs == [] then [] else [EntryOf(docs[0].0, docs[0].1)] + ListEntries(docs[1..])
  }

  /** When no project document carries an `id` field, the listing names
      every stored project exactly once, by its document id. */
  lemma ListingNamesEachProjectOnce(docs: seq<(string, ProjectDoc)>, projects: map<string, ProjectDoc>)
    requires IsSnapshotOf(docs, projects)
    requires forall i :: 0 <= i < |docs| ==> docs[i].1.id.None?
    ensures var r := ListEntries(docs);
            && (forall i :: 0 <= i < |r| ==> r[i].id in projects && projects[r[i].id] == r[i].data)
            && (forall i, j :: 0 <= i < j < |r| ==> r[i].id != r[j].id)
            && (forall id :: id in projects ==> exists i :: 0 <= i < |r| && r[i].id == id)
  {
    var r := ListEntries(docs);
    forall id | id in projects ensures exists i :: 0 <= i < |r| && r[i].id == id {
      var i :| 0 <= i < |docs| && docs[i].0 == id;
      assert r[i].id == id;
    }
  }

  /** The document POST stores. */
  function NewProject(req: CreateRequest): (p: ProjectDoc)
    requires Truthy(req.projectName) && Truthy(req.ownerId)
    ensures p.projectName == req.projectName && p.ownerId == req.ownerId
    ensures p.facilityName == Some(OrElse(req.facilityName, ""))
    ensures p.status == Some("active") && p.priority.None? && p.id.None?
    ensures p.createdAt == Some(ServerTime) && p.updatedAt == Some(ServerTime)
  {
    ProjectDoc(req.projectName, Some(OrElse(req.facilityName, "")), req.ownerId, Some("active"),
               None, Some(ServerTime), Some(ServerTime), None)
  }

  /** The response and the project written, if any, for one request;
      `docs` is the snapshot a GET reads and `newId` the id `addDoc`
      assigns. */
  function Projects(httpMethod: string, docs: seq<(string, ProjectDoc)>, req: CreateRequest, newId: string)
    : (r: (Response<ProjectsBody>, Option<(string, ProjectDoc)>))
    ensures httpMethod == "GET" ==> r == (Response(200, Json(Listing(ListEntries(docs)))), None)
    ensures httpMethod == "POST" && !(Truthy(req.projectName) && Truthy(req.ownerId)) ==>
              r == (Fail(400, "Missing fields"), None)
    ensures httpMethod != "GET" && httpMethod != "POST" ==> r == (Fail(405, "Method not allowed"), None)
    // A project is written only by a complete POST, and the answer
    // echoes it under its new id.
    ensures r.1.Some? <==> httpMethod == "POST" && Truthy(req.projectName) && Truthy(req.ownerId)
    ensures r.1.Some? ==>
              && r.1.value == (newId, NewProject(req))
              && r.0 == Response(201, Json(Created(ProjectEntry(newId, NewProject(req)))))
  {
    if httpMethod == "GET" then (Response(200, Json(Listing(ListEntries(docs)))), None)
    else if httpMethod == "POST" then
      if !Truthy(req.projectName) || !Truthy(req.ownerId) then (Fail(400, "Missing fields"), None)
      else
        var project := NewProject(req);
        (Response(201, Json(Created(EntryOf(newId, project)))), Some((newId, project)))
    else (Fail(405, "Method not allowed"), None)
  }

  method Handle(db: Firestore, httpMethod: string, snapshot: seq<(string, ProjectDoc)>, req: CreateRequest, newId: string)
    returns (res: Response<ProjectsBody>)
    requires IsSnapshotOf(snapshot, db.projects)
    modifies db`projects
    ensures var r := Projects(httpMethod, snapshot, req, newId);
            res == r.0 && db.projects == Put(old(db.projects), r.1)
  {
    if httpMethod == "GET" {
      return Response(200, Json(Listing(ListEntries(snapshot))));
    }
    if httpMethod == "POST" {
      if !Truthy(req.projectName) || !Truthy(req.ownerId) {
        return Fail(400, "Missing fields");
      }
      var project := NewProject(req);
      db.projects := db.projects[newId := project];
      return Response(201, Json(Created(EntryOf(newId, project))));
    }
    res := Fail(405, "Method not allowed");
  }
}
