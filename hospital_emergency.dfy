// The hospital's emergency requests: two tabs that split the requests by
// status, the priority and status badges, and which actions a request
// offers.

module HospitalEmergency {
  import opened Common

  /** request.dispatchDetails: the ambulance sent and when, and, once the
      request is closed, when it arrived and where the patient was taken
      (either may be missing). */
  datatype DispatchDetails = DispatchDetails(ambulance: string, dispatchTime: string, eta: string,
                                             arrivalTime: Option<string>, hospital: Option<string>)

  datatype Request = Request(id: int, patientName: string, priority: string, status: string,
                             dispatchDetails: Option<DispatchDetails>)

  predicate IsActive(status: string) {
    status == "pending" || status == "dispatched"
  }

  predicate IsClosed(status: string) {
    status == "completed" || status == "cancelled"
  }

  /** filteredRequests: the 'active' tab holds the pending and dispatched
      requests, any other tab the completed and cancelled ones. */
  function FilteredRequests(rs: seq<Request>, tab: string): seq<Request> {
    if tab == "active" then Filter(rs, (r: Request) => IsActive(r.status))
    else Filter(rs, (r: Request) => IsClosed(r.status))
  }

  /** Each tab shows exactly its requests, in order; no request is on both
      tabs, and a request with any other status is on neither. */
  lemma TabsPartition(rs: seq<Request>, tab: string)
    ensures Subseq(FilteredRequests(rs, tab), rs)
    ensures tab == "active" ==> forall r :: r in FilteredRequests(rs, tab) <==> r in rs && IsActive(r.status)
    ensures tab != "active" ==> forall r :: r in FilteredRequests(rs, tab) <==> r in rs && IsClosed(r.status)
    ensures forall r :: !(r in FilteredRequests(rs, "active") && r in FilteredRequests(rs, "history"))
    ensures forall r :: r in rs && !IsActive(r.status) && !IsClosed(r.status) ==>
              r !in FilteredRequests(rs, "active") && r !in FilteredRequests(rs, tab)
  {
    FilterIsSubseq(rs, (r: Request) => IsActive(r.status));
    FilterIsSubseq(rs, (r: Request) => IsClosed(r.status));
  }

  /** Every request with a known status is on exactly one of the two tabs,
      so the tabs together count at most all requests. */
  lemma TabCounts(rs: seq<Request>)
    ensures |FilteredRequests(rs, "active")| + |FilteredRequests(rs, "history")| <= |rs|
  {
    FilterCountsDisjoint(rs, (r: Request) => IsActive(r.status), (r: Request) => IsClosed(r.status),
                         (r: Request) => false);
    FilterNone(rs, (r: Request) => false);
  }

  /** getPriorityBadge */
  function PriorityBadge(priority: string): (b: Badge)
    ensures priority == "critical" ==> b == Badge("Critical", "badge-red")
    ensures priority == "high" ==> b == Badge("High", "badge-orange")
    ensures priority == "medium" ==> b == Badge("Medium", "badge-yellow")
    ensures priority == "low" ==> b == Badge("Low", "badge-green")
    ensures priority !in {"critical", "high", "medium", "low"} ==> b == Badge(priority, "badge-gray")
  {
    if priority == "critical" then Badge("Critical", "badge-red")
    else if priority == "high" then Badge("High", "badge-orange")
    else if priority == "medium" then Badge("Medium", "badge-yellow")
    else if priority == "low" then Badge("Low", "badge-green")
    else Badge(priority, "badge-gray")
  }

  /** getStatusBadge */
  function StatusBadge(status: string): (b: Badge)
    ensures status == "pending" ==> b == Badge("Pending", "badge-yellow")
    ensures status == "dispatched" ==> b == Badge("Dispatched", "badge-blue")
    ensures status == "completed" ==> b == Badge("Completed", "badge-green")
    ensures status == "cancelled" ==> b == Badge("Cancelled", "badge-red")
    ensures !IsActive(status) && !IsClosed(status) ==> b == Badge(status, "badge-gray")
  {
    if status == "pending" then Badge("Pending", "badge-yellow")
    else if status == "dispatched" then Badge("Dispatched", "badge-blue")
    else if status == "completed" then Badge("Completed", "badge-green")
    else if status == "cancelled" then Badge("Cancelled", "badge-red")
    else Badge(status, "badge-gray")
  }

  /** A dispatch block: the ambulance under way, with its ETA and the Mark
      as Arrived button, or the record of a closed dispatch, with the
      arrival time and the hospital when they are given. */
  datatype DispatchBlock = EnRoute(ambulance: string, dispatchTime: string, eta: string)
                         | DispatchRecord(ambulance: string, dispatchTime: string,
                                          arrivedAt: Option<string>, transportedTo: Option<string>)

  /** What the actions column of a request shows. */
  datatype Panel = Panel(heading: string, canDispatch: bool, canCancel: bool, block: Option<DispatchBlock>)

  /** `{value && ...}`: an optional text is shown only when it is present
      and non-empty. */
  function Shown(value: Option<string>): (r: Option<string>)
    ensures r.Some? <==> value.Some? && value.value != ""
    ensures r.Some? ==> r == value
  {
    if value.Some? && value.value != "" then value else None
  }

  /** The heading is 'Dispatch Details' for closed requests and 'Actions'
      otherwise; the dispatch and cancel buttons are offered only for a
      pending request; a dispatched request with dispatch details shows the
      ambulance under way, and a closed one with dispatch details shows the
      dispatch record. */
  function ActionsPanel(r: Request): (p: Panel)
    ensures p.heading == (if IsClosed(r.status) then "Dispatch Details" else "Actions")
    ensures p.canDispatch <==> r.status == "pending"
    ensures p.canCancel <==> r.status == "pending"
    ensures p.block.Some? <==> (r.status == "dispatched" || IsClosed(r.status)) && r.dispatchDetails.Some?
    ensures r.status == "dispatched" && r.dispatchDetails.Some? ==>
              var d := r.dispatchDetails.value;
              p.block == Some(EnRoute(d.ambulance, d.dispatchTime, d.eta))
    ensures IsClosed(r.status) && r.dispatchDetails.Some? ==>
              var d := r.dispatchDetails.value;
              p.block == Some(DispatchRecord(d.ambulance, d.dispatchTime, Shown(d.arrivalTime), Shown(d.hospital)))
    ensures !(p.canDispatch && p.block.Some?)
  {
    var block :=
      match r.dispatchDetails
      case None => None
      case Some(d) =>
        if r.status == "dispatched" then Some(EnRoute(d.ambulance, d.dispatchTime, d.eta))
        else if IsClosed(r.status) then
          Some(DispatchRecord(d.ambulance, d.dispatchTime, Shown(d.arrivalTime), Shown(d.hospital)))
        else None;
    Panel(if IsClosed(r.status) then "Dispatch Details" else "Actions",
          r.status == "pending", r.status == "pending", block)
  }

  /** Requests on the history tab never offer an action. */
  lemma HistoryOffersNoAction(rs: seq<Request>, r: Request)
    requires r in FilteredRequests(rs, "history")
    ensures !ActionsPanel(r).canDispatch && !ActionsPanel(r).canCancel
    ensures ActionsPanel(r).block.Some? ==> ActionsPanel(r).block.value.DispatchRecord?
  {
    TabsPartition(rs, "history");
  }

  /** A request on the history tab that was dispatched shows its dispatch
      record: the ambulance and dispatch time, and the arrival time and the
      hospital when they are given. */
  lemma HistoryShowsDispatchRecord(rs: seq<Request>, r: Request)
    requires r in FilteredRequests(rs, "history") && r.dispatchDetails.Some?
    ensures var d := r.dispatchDetails.value;
            ActionsPanel(r).block == Some(DispatchRecord(d.ambulance, d.dispatchTime, Shown(d.arrivalTime),
                                                         Shown(d.hospital)))
  {
    TabsPartition(rs, "history");
  }
}
