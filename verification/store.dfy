/**
 * The in-memory report store of `db.py`: a list of report records that is
 * only ever appended to, and whose records are changed in place by the two
 * update operations. The module-level `REPORTS` list becomes an explicit
 * store value, and every operation returns the new store with its result.
 */
module Store {
  import opened Wrappers
  import opened Values

  /** One stored report; the nine keys of the dictionary built by `create_report`. */
  datatype Report = Report(
    id: string,          // str(uuid.uuid4()), supplied by the caller of CreateReport
    phone: Value,
    lat: Value,
    lng: Value,
    message: Value,
    ts: Value,
    meta: Value,
    status: Value,       // "pending" at creation; update_status stores whatever it is given
    createdAt: string    // datetime.utcnow().isoformat(), supplied by the caller
  )

  type Reports = seq<Report>

  /** A new store together with what the operation returned. */
  datatype Step<+T> = Step(store: Reports, result: T)

  const Pending: Value := Str("pending")

  /** The record selector of a search over the store. */
  datatype Key =
    | ByIdOrPhone(data: Body)   // update_report: r["id"] == data.get("id") or r["phone"] == data.get("phone")
    | ById(id: Value)           // update_status: r["id"] == report_id

  predicate Hits(r: Report, key: Key)
  {
    match key
    case ByIdOrPhone(data) =>
      PyEq(Str(r.id), Get(data, "id", Null)) || PyEq(r.phone, Get(data, "phone", Null))
    case ById(id) => PyEq(Str(r.id), id)
  }

  /** `i` is the position the `for r in REPORTS` loop stops at. */
  ghost predicate IsFirstHit(s: Reports, key: Key, i: int)
  {
    0 <= i < |s| && Hits(s[i], key) && forall j :: 0 <= j < i ==> !Hits(s[j], key)
  }

  /** Position of the first record, in list order, that the key selects. */
  function FindFirst(s: Reports, key: Key): (r: Option<nat>)
    ensures r.None? <==> forall i :: 0 <= i < |s| ==> !Hits(s[i], key)
    ensures r.Some? ==> IsFirstHit(s, key, r.value)
  {
    if |s| == 0 then None
    else if Hits(s[0], key) then Some(0)
    else match FindFirst(s[1..], key)
      case None => None
      case Some(k) => Some(k + 1)
  }

  /** The record that `create_report` builds from a request body. */
  function NewReport(data: Body, newId: string, now: string): Report
  {
    Report(
      id := newId,
      phone := Get(data, "phone", Null),
      lat := Get(data, "lat", Null),
      lng := Get(data, "lng", Null),
      message := Get(data, "message", Null),
      ts := Get(data, "ts", Null),
      meta := Get(data, "meta", Obj(map[])),
      status := Pending,
      createdAt := now)
  }

  /** `create_report(data)`: append one fresh pending record and return it. */
  function CreateReport(store: Reports, data: Body, newId: string, now: string): (res: Step<Report>)
    ensures |res.store| == |store| + 1
    ensures res.store[..|store|] == store
    ensures res.store[|store|] == res.result
    ensures res.result.id == newId && res.result.createdAt == now
    ensures res.result.status == Pending
    ensures "meta" !in data ==> res.result.meta == Obj(map[])
    ensures "meta" in data ==> res.result.meta == data["meta"]
    ensures forall k :: k in ["phone", "lat", "lng", "message", "ts"] ==>
              CopiedField(res.result, k) == Get(data, k, Null)
  {
    var r := NewReport(data, newId, now);
    Step(store + [r], r)
  }

  /** The value of a report under one of the keys copied from the request body. */
  function CopiedField(r: Report, k: string): Value
  {
    match k
    case "phone" => r.phone
    case "lat" => r.lat
    case "lng" => r.lng
    case "message" => r.message
    case "ts" => r.ts
    case _ => Null
  }

  /** The assignments of `update_report` to a matched record. */
  function Merge(r: Report, data: Body): (r': Report)
    ensures "message" in data ==> r'.message == data["message"]
    ensures "message" !in data ==> r'.message == r.message
    ensures "lat" in data ==> r'.lat == data["lat"]
    ensures "lat" !in data ==> r'.lat == r.lat
    ensures "lng" in data ==> r'.lng == data["lng"]
    ensures "lng" !in data ==> r'.lng == r.lng
    ensures "meta" in data ==> r'.meta == data["meta"]
    ensures "meta" !in data ==> r'.meta == r.meta
    ensures r'.id == r.id && r'.phone == r.phone && r'.ts == r.ts
    ensures r'.status == r.status && r'.createdAt == r.createdAt
  {
    r.(message := Get(data, "message", r.message),
       lat := Get(data, "lat", r.lat),
       lng := Get(data, "lng", r.lng),
       meta := Get(data, "meta", r.meta))
  }

  /** `update_report(data)`: merge the body into the first record matching by id or phone. */
  function UpdateReport(store: Reports, data: Body): (res: Step<Option<Report>>)
    ensures res.result.None? <==> forall i :: 0 <= i < |store| ==> !Hits(store[i], ByIdOrPhone(data))
    ensures res.result.None? ==> res.store == store
    ensures |res.store| == |store|
    ensures forall i :: IsFirstHit(store, ByIdOrPhone(data), i) ==>
              && res.store[i] == Merge(store[i], data)
              && res.result == Some(res.store[i])
              && forall j :: 0 <= j < |store| && j != i ==> res.store[j] == store[j]
  {
    match FindFirst(store, ByIdOrPhone(data))
    case None => Step(store, None)
    case Some(i) =>
      var r := Merge(store[i], data);
      Step(store[i := r], Some(r))
  }

  /** `list_reports()`: the store itself, in insertion order. */
  function ListReports(store: Reports): (r: Reports)
    ensures |r| == |store| && forall i :: 0 <= i < |r| ==> r[i] == store[i]
  {
    store
  }

  /** `update_status(report_id, status)`: set the status of the first record with that id. */
  function UpdateStatus(store: Reports, reportId: Value, status: Value): (res: Step<Option<Report>>)
    ensures res.result.None? <==> forall i :: 0 <= i < |store| ==> !PyEq(Str(store[i].id), reportId)
    ensures res.result.None? ==> res.store == store
    ensures |res.store| == |store|
    ensures forall i :: IsFirstHit(store, ById(reportId), i) ==>
              && res.store[i] == store[i].(status := status)
              && res.result == Some(res.store[i])
              && forall j :: 0 <= j < |store| && j != i ==> res.store[j] == store[j]
  {
    match FindFirst(store, ById(reportId))
    case None => Step(store, None)
    case Some(i) =>
      var r := store[i].(status := status);
      Step(store[i := r], Some(r))
  }

  /** Two bodies that agree on the six copied keys create the same record: other keys are dropped. */
  lemma CreateIgnoresOtherKeys(store: Reports, d1: Body, d2: Body, newId: string, now: string)
    requires forall k :: k in ["phone", "lat", "lng", "message", "ts", "meta"] ==>
               (k in d1 <==> k in d2) && (k in d1 ==> d1[k] == d2[k])
    ensures CreateReport(store, d1, newId, now) == CreateReport(store, d2, newId, now)
  {
  }

  /** Merging the same body twice is merging it once. */
  lemma MergeIdempotent(r: Report, data: Body)
    ensures Merge(Merge(r, data), data) == Merge(r, data)
  {
  }

  /**
   * Repeating an update leaves the store as the first one left it and
   * returns the same record: the keys a record is matched on are never
   * rewritten, so the second call selects the same record again.
   */
  lemma UpdateReportIdempotent(store: Reports, data: Body)
    ensures UpdateReport(UpdateReport(store, data).store, data) == UpdateReport(store, data)
  {
  }

  /** Repeating a status change changes nothing further. */
  lemma UpdateStatusIdempotent(store: Reports, reportId: Value, status: Value)
    ensures UpdateStatus(UpdateStatus(store, reportId, status).store, reportId, status)
         == UpdateStatus(store, reportId, status)
  {
  }

  /**
   * A body without a "phone" key compares every record's phone with `None`:
   * such an update selects the first record whose id matches OR whose
   * phone is null.
   */
  lemma IdOnlyUpdateMatchesNullPhone(r: Report, data: Body)
    requires "phone" !in data
    ensures Hits(r, ByIdOrPhone(data)) <==> PyEq(Str(r.id), Get(data, "id", Null)) || r.phone == Null
  {
  }

  /** A concrete case: the update naming report "b" rewrites report "a", whose phone is null. */
  lemma IdOnlyUpdateCanRewriteAnotherReport(a: Report, b: Report)
    requires a.id == "a" && a.phone == Null
    requires b.id == "b" && b.phone == Str("0901")
    ensures UpdateReport([a, b], map["id" := Str("b"), "message" := Str("x")]).store
         == [a.(message := Str("x")), b]
  {
  }
}
