/** The two actions of frontend/src/pages/IncidentDetailPage.jsx as state
    transitions: loading the incident named by the route, and marking it
    resolved. Network outcomes are inputs; the alert() and console calls
    are not modelled.
 */
module IncidentDetailPage {
  import opened Wrappers
  import opened Api
  import Formatters

  /** The page's useState hooks. */
  datatype PageState = PageState(
    incident: Option<IncidentDetail>,
    loading: bool,
    error: Option<string>,
    resolving: bool,
    mode: Mode)

  /** The state right after mounting: no incident yet, loading, mock data. */
  function Initial(): (s: PageState)
    ensures s.incident.None? && s.loading && s.error.None? && !s.resolving && s.mode == Mock
  {
    PageState(None, true, None, false, Mock)
  }

  /** `{ ...MOCK_INCIDENT_DETAIL, id }` */
  function MockFor(id: string): (d: IncidentDetail)
    ensures d.id == id
    ensures d.(id := MockIncidentDetail.id) == MockIncidentDetail
  {
    MockIncidentDetail.(id := id)
  }

  // ---------------------------------------------------------------------
  // Loading the incident

  /** The request the load effect sends: none in mock mode, one GET for the
      route id in live mode. */
  function FetchRequests(mode: Mode, id: string): (calls: seq<ApiCall>)
    ensures mode == Mock ==> calls == []
    ensures mode == Live ==> calls == [GetIncident(id)]
  {
    if mode == Mock then [] else [GetIncident(id)]
  }

  /** The state rendered while the load is in flight: `loading` set and
      `error` cleared, the previous incident kept. */
  function BeginLoad(s: PageState): (s': PageState)
    ensures s'.loading && s'.error.None?
    ensures s'.incident == s.incident && s'.resolving == s.resolving && s'.mode == s.mode
  {
    s.(loading := true, error := None)
  }

  /** The load effect for route id `id`: in mock mode the mock incident under
      the route id; in live mode the fetched incident as received, or, when
      the fetch fails, the same id-overridden mock with the error recorded.
      `loading` is cleared whatever the outcome. */
  function FetchIncident(s: PageState, id: string, fetched: Result<IncidentDetail>): (s': PageState)
    ensures !s'.loading && s'.incident.Some?
    ensures s'.mode == s.mode && s'.resolving == s.resolving
    ensures s.mode == Mock ==> s'.incident == Some(MockFor(id)) && s'.error.None?
    ensures s.mode == Live && fetched.Ok? ==> s'.incident == Some(fetched.value) && s'.error.None?
    ensures s.mode == Live && fetched.Err? ==> s'.incident == Some(MockFor(id)) && s'.error == Some(fetched.message)
    ensures s'.error.Some? <==> s.mode == Live && fetched.Err?
  {
    var started := BeginLoad(s);
    var settled :=
      match s.mode
      case Mock => started.(incident := Some(MockFor(id)))
      case Live =>
        match fetched
        case Ok(data) => started.(incident := Some(data))
        case Err(msg) => started.(error := Some(msg), incident := Some(MockFor(id)));
    settled.(loading := false)
  }

  /** Which of the page's views renders. */
  datatype View = LoadingView | LoadErrorView | DetailView

  /** `loading` shows the spinner, `error && !incident` the load error (an
      empty message is falsy), anything else the detail view. */
  function ViewOf(s: PageState): (v: View)
    ensures v == LoadingView <==> s.loading
    ensures v == LoadErrorView <==> !s.loading && s.incident.None? && s.error.Some? && s.error.value != ""
    ensures v == DetailView ==> !s.loading
  {
    if s.loading then LoadingView
    else if s.error.Some? && s.error.value != "" && s.incident.None? then LoadErrorView
    else DetailView
  }

  /** After a load, whatever its outcome, the detail view renders: the load
      error view is unreachable because a failure stores the fallback. */
  lemma LoadErrorViewUnreachable(s: PageState, id: string, fetched: Result<IncidentDetail>)
    ensures ViewOf(FetchIncident(s, id, fetched)) == DetailView
  {
  }

  /** From mounting to the first settled load: the spinner shows first, also
      while the load is in flight, and the detail view once it settles. */
  lemma MountThenLoad(id: string, fetched: Result<IncidentDetail>)
    ensures ViewOf(Initial()) == LoadingView
    ensures ViewOf(BeginLoad(Initial())) == LoadingView
    ensures ViewOf(FetchIncident(Initial(), id, fetched)) == DetailView
    ensures FetchIncident(Initial(), id, fetched).incident == Some(MockFor(id))
  {
  }

  /** The request list and the outcome input belong together: a load that
      sends no request does not read the outcome, and a live load stores the
      response of its GET, so different successful responses give different
      pages. */
  lemma FetchRequestsMatchOutcome(s: PageState, id: string, a: Result<IncidentDetail>, b: Result<IncidentDetail>)
    ensures FetchRequests(s.mode, id) == [] ==> FetchIncident(s, id, a) == FetchIncident(s, id, b)
    ensures FetchRequests(s.mode, id) != [] && a.Ok? && b.Ok? && FetchIncident(s, id, a) == FetchIncident(s, id, b) ==> a == b
  {
  }

  // ---------------------------------------------------------------------
  // Marking resolved

  const ResolvedStatus := "Resolved"

  /** The two incidents agree on every field but the status. */
  predicate SameExceptStatus(a: IncidentDetail, b: IncidentDetail)
  {
    && a.id == b.id && a.cloud == b.cloud && a.principal == b.principal
    && a.triggerType == b.triggerType && a.timestamp == b.timestamp
    && a.severity == b.severity && a.ipAddress == b.ipAddress && a.region == b.region
    && a.resourceArn == b.resourceArn && a.userAgent == b.userAgent
    && a.responseActions == b.responseActions && a.evidence == b.evidence
    && a.timeline == b.timeline && a.threatIndicators == b.threatIndicators
  }

  /** The "Mark as Resolved" button renders only for an incident whose status
      is exactly 'Active': never with no incident, never for a resolved one,
      and not for a differently cased 'active'. It is offered exactly when
      the header shows the active status badge. */
  function ResolveOffered(s: PageState): (offered: bool)
    ensures offered ==> s.incident.Some? && s.incident.value.status == "Active"
    ensures offered <==> s.incident.Some? && Formatters.StatusColor(s.incident.value.status) == Formatters.StatusActiveClass
    ensures s.incident.None? || s.incident.value.status == ResolvedStatus || s.incident.value.status == "active" ==> !offered
  {
    s.incident.Some? && s.incident.value.status == "Active"
  }

  /** handleMarkResolved for route id `id`. Returns the next state and the
      requests sent: none in mock mode, one PATCH for the route id in live
      mode. The local copy gets status 'Resolved' unless the PATCH failed;
      `resolving` is cleared in both cases. The handler is reachable only
      through the button, so an incident is loaded. */
  function MarkResolved(s: PageState, id: string, patched: Result<IncidentDetail>): (r: (PageState, seq<ApiCall>))
    requires s.incident.Some?
    ensures r.1 == (if s.mode == Live then [PatchIncidentResolved(id)] else [])
    ensures !r.0.resolving && r.0.incident.Some?
    ensures r.0.loading == s.loading && r.0.error == s.error && r.0.mode == s.mode
    ensures s.mode == Mock || patched.Ok? ==>
      r.0.incident.value.status == ResolvedStatus && SameExceptStatus(r.0.incident.value, s.incident.value)
    ensures s.mode == Live && patched.Err? ==> r.0.incident == s.incident
  {
    var started := s.(resolving := true);
    var calls := if s.mode == Live then [PatchIncidentResolved(id)] else [];
    var settled :=
      if s.mode == Live && patched.Err? then started
      else started.(incident := Some(started.incident.value.(status := ResolvedStatus)));
    (settled.(resolving := false), calls)
  }

  /** The PATCH list and the outcome input belong together: without a request
      the outcome is not read, and with one a failed PATCH and a successful one
      leave different incidents unless it was already resolved. */
  lemma MarkResolvedRequestsMatchOutcome(s: PageState, id: string, a: Result<IncidentDetail>, b: Result<IncidentDetail>)
    requires s.incident.Some?
    ensures MarkResolved(s, id, a).1 == [] ==> MarkResolved(s, id, a).0 == MarkResolved(s, id, b).0
    ensures MarkResolved(s, id, a).1 != [] && a.Err? && b.Ok? && s.incident.value.status != ResolvedStatus ==>
      MarkResolved(s, id, a).0 != MarkResolved(s, id, b).0
  {
  }

  /** After a successful resolve the button disappears; after a failed one
      it stays for an incident that was offered it. */
  lemma ResolveWithdrawsOffer(s: PageState, id: string, patched: Result<IncidentDetail>)
    requires ResolveOffered(s)
    ensures var (s', _) := MarkResolved(s, id, patched);
      ResolveOffered(s') <==> s.mode == Live && patched.Err?
  {
  }

  /** Resolving is idempotent on the local copy: a second successful resolve
      changes nothing further. */
  lemma ResolveTwice(s: PageState, id: string, patched: Result<IncidentDetail>)
    requires s.incident.Some?
    requires s.mode == Mock || patched.Ok?
    ensures var s1 := MarkResolved(s, id, patched).0;
      MarkResolved(s1, id, patched).0 == s1
  {
  }
}
