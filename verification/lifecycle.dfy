/**
 * The server as a state machine: the store starts as some list of reports
 * and every request goes through one of the four handlers of `app.py`.
 * The lemmas here are the invariants of that machine: nothing is deleted,
 * the identity of a stored report never changes, every persisted status is
 * one of the four allowed names, ids stay unique when the id generator
 * yields fresh ids, and listing shows the accepted creations in arrival
 * order.
 */
module Lifecycle {
  import opened Wrappers
  import opened Values
  import opened Store
  import opened Api

  /** One request to the server; `newId` and `now` stand for uuid4() and utcnow(). */
  datatype Request =
    | CreateRequest(data: Body, newId: string, now: string)
    | UpdateRequest(data: Body)
    | StatusRequest(data: Body)
    | ListRequest

  function Handle(store: Reports, req: Request): Step<Response>
  {
    match req
    case CreateRequest(data, newId, now) => ReportCreate(store, data, newId, now)
    case UpdateRequest(data) => ReportUpdate(store, data)
    case StatusRequest(data) => RescueUpdateStatus(store, data)
    case ListRequest => RescueList(store)
  }

  /** The store after serving the requests one after another. */
  function Run(store: Reports, reqs: seq<Request>): Reports
    decreases |reqs|
  {
    if |reqs| == 0 then store else Run(Handle(store, reqs[0]).store, reqs[1..])
  }

  /** Every persisted status is one of the four allowed names. */
  ghost predicate StatusesAllowed(store: Reports)
  {
    forall i :: 0 <= i < |store| ==> IsAllowedStatus(store[i].status)
  }

  /** `after` keeps every report of `before` at its position with the same id, phone, ts and creation time. */
  ghost predicate Keeps(before: Reports, after: Reports)
  {
    && |before| <= |after|
    && forall i :: 0 <= i < |before| ==>
         && after[i].id == before[i].id
         && after[i].phone == before[i].phone
         && after[i].ts == before[i].ts
         && after[i].createdAt == before[i].createdAt
  }

  function Ids(store: Reports): (ids: seq<string>)
    ensures |ids| == |store|
    ensures forall i :: 0 <= i < |store| ==> ids[i] == store[i].id
  {
    seq(|store|, i requires 0 <= i < |store| => store[i].id)
  }

  ghost predicate Distinct(s: seq<string>)
  {
    forall i, j :: 0 <= i < j < |s| ==> s[i] != s[j]
  }

  /** No two stored reports share an id. */
  ghost predicate UniqueIds(store: Reports)
  {
    Distinct(Ids(store))
  }

  /** The ids of the creations the server accepts, in arrival order. */
  function AcceptedIds(reqs: seq<Request>): seq<string>
    decreases |reqs|
  {
    if |reqs| == 0 then []
    else if reqs[0].CreateRequest? && Accepted(reqs[0].data) then [reqs[0].newId] + AcceptedIds(reqs[1..])
    else AcceptedIds(reqs[1..])
  }

  /** An update rewrites at most one record and never its id, phone, ts, status or creation time. */
  lemma UpdateStep(store: Reports, data: Body)
    ensures var after := ReportUpdate(store, data).store;
            |after| == |store| &&
            forall i :: 0 <= i < |store| ==>
              after[i].id == store[i].id && after[i].phone == store[i].phone && after[i].ts == store[i].ts &&
              after[i].status == store[i].status && after[i].createdAt == store[i].createdAt
    ensures var after := ReportUpdate(store, data).store;
            forall i, j :: 0 <= i < |store| && 0 <= j < |store| && after[i] != store[i] && after[j] != store[j] ==> i == j
  {
    if "id" in data || "phone" in data {
      match FindFirst(store, ByIdOrPhone(data))
      case None =>
      case Some(i) =>
    }
  }

  /** A status change rewrites at most one status, and only with an allowed one. */
  lemma StatusStep(store: Reports, data: Body)
    ensures var after := RescueUpdateStatus(store, data).store;
            |after| == |store| &&
            forall i :: 0 <= i < |store| ==>
              after[i].id == store[i].id && after[i].phone == store[i].phone && after[i].ts == store[i].ts &&
              after[i].createdAt == store[i].createdAt &&
              (after[i].status == store[i].status || IsAllowedStatus(after[i].status))
    ensures var after := RescueUpdateStatus(store, data).store;
            forall i :: 0 <= i < |store| ==> after[i] == store[i] || after[i] == store[i].(status := after[i].status)
    ensures var after := RescueUpdateStatus(store, data).store;
            forall i, j :: 0 <= i < |store| && 0 <= j < |store| && after[i] != store[i] && after[j] != store[j] ==> i == j
  {
    var status := Get(data, "status", Null);
    if IsAllowedStatus(status) {
      match FindFirst(store, ById(Get(data, "id", Null)))
      case None =>
      case Some(i) =>
    }
  }

  /** One request keeps every stored report, keeps statuses allowed, and appends only an accepted creation. */
  lemma HandleStep(store: Reports, req: Request)
    ensures Keeps(store, Handle(store, req).store)
    ensures StatusesAllowed(store) ==> StatusesAllowed(Handle(store, req).store)
    ensures req.CreateRequest? && Accepted(req.data) ==>
              Ids(Handle(store, req).store) == Ids(store) + [req.newId]
    ensures !(req.CreateRequest? && Accepted(req.data)) ==>
              Ids(Handle(store, req).store) == Ids(store)
  {
    var after := Handle(store, req).store;
    match req
    case CreateRequest(data, newId, now) =>
      if Accepted(data) {
        assert after == store + [after[|store|]];
        assert IsAllowedStatus(after[|store|].status);
      }
    case UpdateRequest(data) =>
      UpdateStep(store, data);
    case StatusRequest(data) =>
      StatusStep(store, data);
    case ListRequest =>
  }

  /** Invariant: serving any requests keeps every persisted status among the four allowed names. */
  lemma {:induction false} RunKeepsStatusesAllowed(store: Reports, reqs: seq<Request>)
    requires StatusesAllowed(store)
    ensures StatusesAllowed(Run(store, reqs))
    decreases |reqs|
  {
    if |reqs| > 0 {
      HandleStep(store, reqs[0]);
      RunKeepsStatusesAllowed(Handle(store, reqs[0]).store, reqs[1..]);
    }
  }

  /** Nothing is ever deleted, moved or re-identified, whatever requests arrive. */
  lemma {:induction false} RunKeepsReports(store: Reports, reqs: seq<Request>)
    ensures Keeps(store, Run(store, reqs))
    decreases |reqs|
  {
    if |reqs| > 0 {
      var mid := Handle(store, reqs[0]).store;
      HandleStep(store, reqs[0]);
      RunKeepsReports(mid, reqs[1..]);
    }
  }

  /** Listing after any requests shows the original reports, then the accepted creations in arrival order. */
  lemma {:induction false} RunListsInInsertionOrder(store: Reports, reqs: seq<Request>)
    ensures Ids(Run(store, reqs)) == Ids(store) + AcceptedIds(reqs)
    decreases |reqs|
  {
    if |reqs| > 0 {
      var mid := Handle(store, reqs[0]).store;
      HandleStep(store, reqs[0]);
      RunListsInInsertionOrder(mid, reqs[1..]);
    }
  }

  /** Ids stay unique as long as the ids given to accepted creations are fresh and never repeated. */
  lemma {:induction false} RunKeepsIdsUnique(store: Reports, reqs: seq<Request>)
    requires Distinct(Ids(store) + AcceptedIds(reqs))
    ensures UniqueIds(Run(store, reqs))
    decreases |reqs|
  {
    if |reqs| == 0 {
      assert Ids(store) + AcceptedIds(reqs) == Ids(store);
    } else {
      var req := reqs[0];
      var mid := Handle(store, req).store;
      HandleStep(store, req);
      if req.CreateRequest? && Accepted(req.data) {
        assert Ids(mid) + AcceptedIds(reqs[1..]) == Ids(store) + AcceptedIds(reqs);
      }
      RunKeepsIdsUnique(mid, reqs[1..]);
    }
  }

  /** Listing changes nothing and returns the store as it stands. */
  lemma ListIsReadOnly(store: Reports)
    ensures Handle(store, ListRequest).store == store
    ensures Handle(store, ListRequest).result == Response(200, AllReports(store))
  {
  }
}
