/** `POST /api/reports/update`: renames a stored report. */
module ReportsUpdate {
  import opened Js
  import opened Store
  import opened Http

  /** The request body; a field that is not a string is `None`. */
  datatype UpdateRequest = UpdateRequest(reportId: Option<string>, title: Option<string>)

  const InvalidParameters := "Missing or invalid parameters"
  const Updated := "Report updated"
  /** The store's refusal to update a document that does not exist. */
  const NoDocument := "5 NOT_FOUND: No document to update"

  /** The response and the `reports` collection after the request.
      `fault` is the store's error message when the update itself fails. */
  function Update(reports: map<string, Report>, req: UpdateRequest, fault: Option<string>)
    : (r: (Response<string>, map<string, Report>))
    ensures req.reportId.None? || req.title.None? ==> r == (Fail(400, InvalidParameters), reports)
    // Success exactly when both fields are strings, the report exists and
    // the store does not fail; otherwise nothing changes.
    ensures r.0.status == 200 <==>
              req.reportId.Some? && req.title.Some? && req.reportId.value in reports && fault.None?
    ensures r.0.status != 200 ==> r.1 == reports
    ensures req.reportId.Some? && req.title.Some? && fault.Some? ==> r.0 == Fail(500, fault.value)
    ensures req.reportId.Some? && req.title.Some? && fault.None? && req.reportId.value !in reports ==>
              r.0 == Fail(500, NoDocument)
    // On success only the title of that one report changes.
    ensures r.0.status == 200 ==>
              && r.0 == Response(200, Json(Updated))
              && r.1.Keys == reports.Keys
              && r.1[req.reportId.value] == reports[req.reportId.value].(title := req.title.value)
              && forall id :: id in reports && id != req.reportId.value ==> r.1[id] == reports[id]
  {
    if req.reportId.None? || req.title.None? then (Fail(400, InvalidParameters), reports)
    else if fault.Some? then (Fail(500, fault.value), reports)
    else if req.reportId.value !in reports then (Fail(500, NoDocument), reports)
    else
      var id := req.reportId.value;
      (Response(200, Json(Updated)), reports[id := reports[id].(title := req.title.value)])
  }

  /** Renaming twice to the same title is the same as renaming once. */
  lemma UpdateIdempotent(reports: map<string, Report>, req: UpdateRequest)
    ensures var once := Update(reports, req, None);
            Update(once.1, req, None) == (once.0, once.1)
  {
    if req.reportId.Some? && req.title.Some? && req.reportId.value in reports {
      var once := Update(reports, req, None).1;
      var id := req.reportId.value;
      assert once[id := once[id].(title := req.title.value)] == once;
    }
  }

  method Handle(db: Firestore, req: UpdateRequest, fault: Option<string>) returns (res: Response<string>)
    modifies db`reports
    ensures (res, db.reports) == Update(old(db.reports), req, fault)
  {
    if req.reportId.None? || req.title.None? {
      return Fail(400, InvalidParameters);
    }
    var reportId := req.reportId.value;
    if fault.Some? {
      return Fail(500, fault.value);
    }
    if reportId !in db.reports {
      return Fail(500, NoDocument);
    }
    db.reports := db.reports[reportId := db.reports[reportId].(title := req.title.value)];
    res := Response(200, Json(Updated));
  }
}
