/**
 * The request handlers of `app.py` with the web framework taken away: each
 * handler receives the decoded JSON body and the current store, validates
 * the body, calls the store, and answers with an HTTP status code and the
 * JSON payload it would serialise.
 */
module Api {
  import opened Wrappers
  import opened Values
  import opened Store

  /** The JSON payload of a response; `"ok"` is false exactly for `Error`. */
  datatype Payload =
    | OneReport(report: Report)       // {"ok": True, "report": ...}
    | AllReports(reports: Reports)    // {"ok": True, "reports": ...}
    | Error(error: string)            // {"ok": False, "error": ...}

  datatype Response = Response(code: int, payload: Payload)

  /** The keys `report_create` requires, in the order it checks them. */
  const Required: seq<string> := ["phone", "lat", "lng", "message"]

  /** The only statuses `rescue_update_status` passes to the store. */
  const AllowedStatus: seq<string> := ["pending", "processing", "done", "holding"]

  /** `status in allowed_status`: a string equal to one of the four names. */
  predicate IsAllowedStatus(v: Value)
  {
    v.Str? && v.s in AllowedStatus
  }

  /** Whether `report_create` accepts the body: all four required keys are present, whatever their values. */
  predicate Accepted(data: Body)
  {
    "phone" in data && "lat" in data && "lng" in data && "message" in data
  }

  /** The first key of `keys` that the body lacks, if any. */
  function FirstMissing(keys: seq<string>, data: Body): (r: Option<string>)
    ensures r.None? <==> forall i :: 0 <= i < |keys| ==> keys[i] in data
    ensures r.Some? ==> exists i :: 0 <= i < |keys| && keys[i] == r.value && keys[i] !in data &&
                          forall j :: 0 <= j < i ==> keys[j] in data
  {
    if |keys| == 0 then None
    else if keys[0] !in data then Some(keys[0])
    else
      var rest := FirstMissing(keys[1..], data);
      assert rest.Some? ==> exists i :: 0 <= i < |keys[1..]| && keys[1..][i] == rest.value && keys[1..][i] !in data &&
                              forall j :: 0 <= j < i ==> keys[1..][j] in data;
      rest
  }

  /** The first missing required key, spelled out for the four keys in their checking order. */
  lemma FirstMissingRequired(data: Body)
    ensures "phone" !in data ==> FirstMissing(Required, data) == Some("phone")
    ensures "phone" in data && "lat" !in data ==> FirstMissing(Required, data) == Some("lat")
    ensures "phone" in data && "lat" in data && "lng" !in data ==> FirstMissing(Required, data) == Some("lng")
    ensures "phone" in data && "lat" in data && "lng" in data && "message" !in data ==>
              FirstMissing(Required, data) == Some("message")
  {
    var k1, k2, k3 := Required[1..], Required[2..], Required[3..];
    assert k1 == ["lat", "lng", "message"] && k1[1..] == k2;
    assert k2 == ["lng", "message"] && k2[1..] == k3;
    assert k3 == ["message"] && k3[1..] == [];
    assert FirstMissing(Required, data) == if "phone" !in data then Some("phone") else FirstMissing(k1, data);
    assert FirstMissing(k1, data) == if "lat" !in data then Some("lat") else FirstMissing(k2, data);
    assert FirstMissing(k2, data) == if "lng" !in data then Some("lng") else FirstMissing(k3, data);
    assert FirstMissing(k3, data) == if "message" !in data then Some("message") else None;
  }

  /** POST /api/report */
  function ReportCreate(store: Reports, data: Body, newId: string, now: string): (res: Step<Response>)
    ensures res.result.code == 400 || res.result.code == 201
    ensures res.result.code == 400 <==> !Accepted(data)
    ensures "phone" !in data ==> res.result.payload == Error("phone is required")
    ensures "phone" in data && "lat" !in data ==> res.result.payload == Error("lat is required")
    ensures "phone" in data && "lat" in data && "lng" !in data ==> res.result.payload == Error("lng is required")
    ensures "phone" in data && "lat" in data && "lng" in data && "message" !in data ==>
              res.result.payload == Error("message is required")
    ensures res.result.code == 400 ==> res.store == store
    ensures res.result.code == 201 ==>
              && res.result.payload.OneReport?
              && res.store == store + [res.result.payload.report]
              && res.result.payload.report == CreateReport(store, data, newId, now).result
              && res.result.payload.report.id == newId
              && res.result.payload.report.status == Pending
  {
    FirstMissingRequired(data);
    match FirstMissing(Required, data)
    case Some(field) =>
      assert "phone" + " is required" == "phone is required";
      assert "lat" + " is required" == "lat is required";
      assert "lng" + " is required" == "lng is required";
      assert "message" + " is required" == "message is required";
      Step(store, Response(400, Error(field + " is required")))
    case None =>
      var created := CreateReport(store, data, newId, now);
      assert created.store == store + [created.result];
      Step(created.store, Response(201, OneReport(created.result)))
  }

  /** PUT /api/report/update */
  function ReportUpdate(store: Reports, data: Body): (res: Step<Response>)
    ensures res.result.code in {200, 400, 404}
    ensures res.result.code == 400 <==> "id" !in data && "phone" !in data
    ensures res.result.code == 400 ==> res.result.payload == Error("id or phone is required")
    ensures res.result.code == 404 <==>
              ("id" in data || "phone" in data) && UpdateReport(store, data).result.None?
    ensures res.result.code == 404 ==> res.result.payload == Error("report not found")
    ensures res.result.code != 200 ==> res.store == store
    ensures res.result.code == 200 ==>
              && res.store == UpdateReport(store, data).store
              && res.result.payload.OneReport?
              && Some(res.result.payload.report) == UpdateReport(store, data).result
  {
    if "id" !in data && "phone" !in data then
      Step(store, Response(400, Error("id or phone is required")))
    else
      var updated := UpdateReport(store, data);
      match updated.result
      case None => Step(updated.store, Response(404, Error("report not found")))
      case Some(r) => Step(updated.store, Response(200, OneReport(r)))
  }

  /** GET /api/rescue/list */
  function RescueList(store: Reports): (res: Step<Response>)
    ensures res.store == store
    ensures res.result.code == 200 && res.result.payload == AllReports(store)
  {
    Step(store, Response(200, AllReports(ListReports(store))))
  }

  /** PUT /api/rescue/update-status */
  function RescueUpdateStatus(store: Reports, data: Body): (res: Step<Response>)
    ensures res.result.code in {200, 400, 404}
    ensures res.result.code == 400 <==> !IsAllowedStatus(Get(data, "status", Null))
    ensures res.result.code == 400 ==> res.result.payload == Error("Invalid status")
    ensures res.result.code == 404 <==>
              && IsAllowedStatus(Get(data, "status", Null))
              && forall i :: 0 <= i < |store| ==> !PyEq(Str(store[i].id), Get(data, "id", Null))
    ensures res.result.code == 404 ==> res.result.payload == Error("report not found")
    ensures res.result.code != 200 ==> res.store == store
    ensures res.result.code == 200 ==>
              && res.result.payload.OneReport?
              && res.result.payload.report.status == data["status"]
              && res.store == UpdateStatus(store, Get(data, "id", Null), data["status"]).store
              && Some(res.result.payload.report) == UpdateStatus(store, Get(data, "id", Null), data["status"]).result
  {
    var reportId := Get(data, "id", Null);
    var status := Get(data, "status", Null);
    if !IsAllowedStatus(status) then
      Step(store, Response(400, Error("Invalid status")))
    else
      var updated := UpdateStatus(store, reportId, status);
      match updated.result
      case None => Step(updated.store, Response(404, Error("report not found")))
      case Some(r) => Step(updated.store, Response(200, OneReport(r)))
  }

  /** Sending the same update twice gives the same store and the same answer as sending it once. */
  lemma ReportUpdateIdempotent(store: Reports, data: Body)
    ensures ReportUpdate(ReportUpdate(store, data).store, data) == ReportUpdate(store, data)
  {
  }

  /**
   * After a successful create, an update naming the new id answers 200.
   * The record it rewrites is the new one unless an earlier report has a
   * null phone (see `Store.IdOnlyUpdateCanRewriteAnotherReport`).
   */
  lemma CreatedReportIsUpdatable(store: Reports, data: Body, newId: string, now: string, change: Body)
    requires ReportCreate(store, data, newId, now).result.code == 201
    requires "id" in change && change["id"] == Str(newId)
    ensures ReportUpdate(ReportCreate(store, data, newId, now).store, change).result.code == 200
  {
  }
}
