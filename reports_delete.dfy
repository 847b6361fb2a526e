/** `POST /api/reports/delete`: removes a stored report. Deleting a
    document that does not exist succeeds in the store, so the route
    answers 200 for an unknown id as well. */
module ReportsDelete {
  import opened Js
  import opened Store
  import opened Http

  const InvalidReportId := "Missing or invalid reportId"
  const Deleted := "Report deleted"

  /** The response and the `reports` collection after the request;
      `reportId` is `None` when it is not a string, and `fault` is the
      store's error message when the delete fails. */
  function Delete(reports: map<string, Report>, reportId: Option<string>, fault: Option<string>)
    : (r: (Response<string>, map<string, Report>))
    ensures reportId.None? ==> r == (Fail(400, InvalidReportId), reports)
    ensures reportId.Some? && fault.Some? ==> r == (Fail(500, fault.value), reports)
    ensures r.0.status == 200 <==> reportId.Some? && fault.None?
    // On success the report is gone and every other one is untouched.
    ensures r.0.status == 200 ==>
              && r.0 == Response(200, Json(Deleted))
              && reportId.value !in r.1
              && r.1.Keys == reports.Keys - {reportId.value}
              && forall id :: id in r.1 ==> r.1[id] == reports[id]
  {
    if reportId.None? then (Fail(400, InvalidReportId), reports)
    else if fault.Some? then (Fail(500, fault.value), reports)
    else (Response(200, Json(Deleted)), reports - {reportId.value})
  }

  /** A repeated delete answers and leaves the store as the first did. */
  lemma DeleteIdempotent(reports: map<string, Report>, reportId: Option<string>)
    ensures var once := Delete(reports, reportId, None);
            Delete(once.1, reportId, None) == once
  {
    if reportId.Some? {
      var once := Delete(reports, reportId, None).1;
      assert once - {reportId.value} == once;
    }
  }

  method Handle(db: Firestore, reportId: Option<string>, fault: Option<string>) returns (res: Response<string>)
    modifies db`reports
    ensures (res, db.reports) == Delete(old(db.reports), reportId, fault)
  {
    if reportId.None? {
      return Fail(400, InvalidReportId);
    }
    if fault.Some? {
      return Fail(500, fault.value);
    }
    db.reports := db.reports - {reportId.value};
    res := Response(200, Json(Deleted));
  }
}
