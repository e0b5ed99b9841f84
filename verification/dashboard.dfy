/** The refresh cycle of frontend/src/pages/Dashboard.jsx as a state
    transition.

    One cycle of fetchDashboardData maps the page state, the data-source mode
    and the settled outcome of the three live fetches to the next state. The
    clock reading `now` stands for `new Date()`. A cycle is applied as one
    step: the polling timer and overlapping cycles are not modelled.
 */
module Dashboard {
  import opened Wrappers
  import opened Api
  import Charts

  /** The page's useState hooks. */
  datatype State = State(
    metrics: Option<Metrics>,
    incidents: seq<IncidentSummary>,
    timeSeries: seq<TimePoint>,
    loading: bool,
    error: Option<string>,
    lastRefresh: int,
    mode: Mode)

  /** The three data fields that are replaced together. */
  datatype Snapshot = Snapshot(metrics: Option<Metrics>, incidents: seq<IncidentSummary>, timeSeries: seq<TimePoint>)

  function SnapshotOf(s: State): Snapshot
  {
    Snapshot(s.metrics, s.incidents, s.timeSeries)
  }

  const MockSnapshot := Snapshot(Some(MockMetrics), MockIncidents, MockTimeSeries)

  /** The state right after mounting at time `now`: no data yet, loading,
      and mock data selected. */
  function Initial(now: int): (s: State)
    ensures s.metrics.None? && s.incidents == [] && s.timeSeries == []
    ensures s.loading && s.error.None? && s.mode == Mock
  {
    State(None, [], [], true, None, now, Mock)
  }

  // ---------------------------------------------------------------------
  // Live requests and their outcome

  const IncidentLimit := 10
  const TimeSeriesDays := 7

  /** The requests one cycle sends: none in mock mode; in live mode the
      metrics, the ten latest incidents and a seven-day time series. */
  function CycleRequests(mode: Mode): (calls: seq<ApiCall>)
    ensures mode == Mock <==> calls == []
    ensures mode == Live ==> |calls| == 3
    ensures mode == Live ==>
      GetMetrics in calls && GetIncidents(IncidentLimit) in calls && GetTimeSeries(TimeSeriesDays) in calls
    ensures forall i :: 0 <= i < |calls| && calls[i].GetIncidents? ==> calls[i].limit == 10
    ensures forall i :: 0 <= i < |calls| && calls[i].GetTimeSeries? ==> calls[i].days == 7
  {
    match mode
    case Mock => []
    case Live => [GetMetrics, GetIncidents(IncidentLimit), GetTimeSeries(TimeSeriesDays)]
  }

  datatype FetchKind = MetricsFetch | IncidentsFetch | TimeSeriesFetch

  /** How the three live fetches of one cycle settle. When several reject,
      Promise.all reports the one that rejected first; which one that is
      depends on timing, so it is an input (`firstRejected`). */
  datatype LiveOutcome = LiveOutcome(
    metrics: Result<Metrics>,
    incidents: Result<seq<IncidentSummary>>,
    timeSeries: Result<seq<TimePoint>>,
    firstRejected: FetchKind)

  predicate Failed(o: LiveOutcome, k: FetchKind)
  {
    match k
    case MetricsFetch => o.metrics.Err?
    case IncidentsFetch => o.incidents.Err?
    case TimeSeriesFetch => o.timeSeries.Err?
  }

  function ErrorOf(o: LiveOutcome, k: FetchKind): string
    requires Failed(o, k)
  {
    match k
    case MetricsFetch => o.metrics.message
    case IncidentsFetch => o.incidents.message
    case TimeSeriesFetch => o.timeSeries.message
  }

  predicate AllSucceeded(o: LiveOutcome)
  {
    o.metrics.Ok? && o.incidents.Ok? && o.timeSeries.Ok?
  }

  /** `await Promise.all([...])`: the three values when every fetch succeeds,
      otherwise the message of a fetch that failed, the first to reject when
      `firstRejected` names a failed fetch. */
  function AwaitAll(o: LiveOutcome): (r: Result<Snapshot>)
    ensures r.Ok? <==> AllSucceeded(o)
    ensures r.Ok? ==> r.value == Snapshot(Some(o.metrics.value), o.incidents.value, o.timeSeries.value)
    ensures r.Err? ==> exists k :: Failed(o, k) && r.message == ErrorOf(o, k)
    ensures r.Err? && Failed(o, o.firstRejected) ==> r.message == ErrorOf(o, o.firstRejected)
  {
    if AllSucceeded(o) then Ok(Snapshot(Some(o.metrics.value), o.incidents.value, o.timeSeries.value))
    else if Failed(o, o.firstRejected) then Err(ErrorOf(o, o.firstRejected))
    else if o.metrics.Err? then Err(ErrorOf(o, MetricsFetch))
    else if o.incidents.Err? then Err(ErrorOf(o, IncidentsFetch))
    else Err(ErrorOf(o, TimeSeriesFetch))
  }

  // ---------------------------------------------------------------------
  // The cycle

  function WithSnapshot(s: State, snap: Snapshot): State
  {
    s.(metrics := snap.metrics, incidents := snap.incidents, timeSeries := snap.timeSeries)
  }

  /** The state a cycle renders while its fetches are in flight: `loading`
      set and `error` cleared, everything else as before. */
  function Begin(s: State): (s': State)
    ensures s'.loading && s'.error.None?
    ensures SnapshotOf(s') == SnapshotOf(s) && s'.lastRefresh == s.lastRefresh && s'.mode == s.mode
  {
    s.(loading := true, error := None)
  }

  /** One run of fetchDashboardData: `loading` and `error` are reset, the
      data is replaced by the mock tables (mock mode), by the three fetched
      values (live, all succeeded) or by the mock tables with the error
      message set (live, some fetch failed); the refresh time is taken only
      on the two success paths, and `loading` is cleared in every case. */
  function Refresh(s: State, live: LiveOutcome, now: int): (s': State)
    ensures !s'.loading && s'.mode == s.mode && s'.metrics.Some?
    ensures s.mode == Mock ==>
      SnapshotOf(s') == MockSnapshot && s'.error.None? && s'.lastRefresh == now
    ensures s.mode == Live && AllSucceeded(live) ==>
      && SnapshotOf(s') == Snapshot(Some(live.metrics.value), live.incidents.value, live.timeSeries.value)
      && s'.error.None? && s'.lastRefresh == now
    ensures s.mode == Live && !AllSucceeded(live) ==>
      && SnapshotOf(s') == MockSnapshot && s'.lastRefresh == s.lastRefresh
      && s'.error.Some? && exists k :: Failed(live, k) && s'.error.value == ErrorOf(live, k)
    ensures s.mode == Live && !AllSucceeded(live) ==> s'.error == Some(AwaitAll(live).message)
  {
    var started := Begin(s);
    var settled :=
      match s.mode
      case Mock => WithSnapshot(started, MockSnapshot).(lastRefresh := now)
      case Live =>
        match AwaitAll(live)
        case Ok(snap) => WithSnapshot(started, snap).(lastRefresh := now)
        case Err(msg) => WithSnapshot(started.(error := Some(msg)), MockSnapshot);
    settled.(loading := false)
  }

  /** All or nothing: after any cycle the data is either the mock tables in
      full or the three live values in full, never a mix; and an error is
      reported exactly when the data is the fallback of a failed live cycle. */
  lemma RefreshAllOrNothing(s: State, live: LiveOutcome, now: int)
    ensures var s' := Refresh(s, live, now);
      || SnapshotOf(s') == MockSnapshot
      || (s.mode == Live && AllSucceeded(live)
          && SnapshotOf(s') == Snapshot(Some(live.metrics.value), live.incidents.value, live.timeSeries.value))
    ensures var s' := Refresh(s, live, now);
      s'.error.Some? <==> s.mode == Live && !AllSucceeded(live)
    ensures var s' := Refresh(s, live, now);
      s'.lastRefresh == now || (s'.error.Some? && s'.lastRefresh == s.lastRefresh)
  {
  }

  /** A live cycle that succeeds after a failed one leaves nothing of the
      fallback behind: data and error are exactly those of the second cycle. */
  lemma RecoveryReplacesFallback(s: State, bad: LiveOutcome, good: LiveOutcome, t1: int, t2: int)
    requires s.mode == Live && !AllSucceeded(bad) && AllSucceeded(good)
    ensures var s2 := Refresh(Refresh(s, bad, t1), good, t2);
      && SnapshotOf(s2) == Snapshot(Some(good.metrics.value), good.incidents.value, good.timeSeries.value)
      && s2.error.None? && s2.lastRefresh == t2
  {
  }

  /** The request list and the outcome input belong together: a cycle that
      sends no request does not read the outcome, and a live cycle whose
      fetches succeed shows every one of the three responses, so two
      different responses to any request give two different states. */
  lemma RequestsMatchOutcome(s: State, a: LiveOutcome, b: LiveOutcome, now: int)
    ensures CycleRequests(s.mode) == [] ==> Refresh(s, a, now) == Refresh(s, b, now)
    ensures CycleRequests(s.mode) != [] && AllSucceeded(a) && AllSucceeded(b) && Refresh(s, a, now) == Refresh(s, b, now) ==>
      a.metrics == b.metrics && a.incidents == b.incidents && a.timeSeries == b.timeSeries
  {
    if CycleRequests(s.mode) != [] && AllSucceeded(a) && AllSucceeded(b) && Refresh(s, a, now) == Refresh(s, b, now) {
      assert SnapshotOf(Refresh(s, a, now)) == SnapshotOf(Refresh(s, b, now));
    }
  }

  // ---------------------------------------------------------------------
  // Mode toggle and runs of the page

  /** The mock/live button: flips the mode; the effect keyed on the mode
      then runs a cycle. */
  function Toggle(s: State): (s': State)
    ensures s'.mode != s.mode
    ensures s'.(mode := s.mode) == s
  {
    s.(mode := s.mode.Toggled())
  }

  datatype Event = Cycle(live: LiveOutcome, now: int) | ToggleMode

  function Step(s: State, e: Event): State
  {
    match e
    case Cycle(live, now) => Refresh(s, live, now)
    case ToggleMode => Toggle(s)
  }

  function Run(s: State, events: seq<Event>): State
    decreases |events|
  {
    if events == [] then s else Run(Step(s, events[0]), events[1..])
  }

  /** Toggling twice and running a cycle gives the same state as running the
      cycle in the original mode. */
  lemma ToggleTwiceThenCycle(s: State, live: LiveOutcome, now: int)
    ensures Run(s, [ToggleMode, ToggleMode, Cycle(live, now)]) == Refresh(s, live, now)
  {
    var events := [ToggleMode, ToggleMode, Cycle(live, now)];
    assert Toggle(Toggle(s)) == s;
    calc {
      Run(s, events);
      Run(Toggle(s), events[1..]);
      { assert events[1..][1..] == [Cycle(live, now)]; }
      Run(Toggle(Toggle(s)), [Cycle(live, now)]);
      Run(Refresh(s, live, now), []);
    }
  }

  /** Which of the page's three views renders. */
  datatype View = LoadingView | ErrorView | DashboardView

  /** `loading && !metrics` shows the spinner; `error && !metrics` the
      full-page error (an empty message is falsy); otherwise the dashboard. */
  function ViewOf(s: State): (v: View)
    ensures v == LoadingView <==> s.loading && s.metrics.None?
    ensures v == ErrorView <==> !s.loading && s.metrics.None? && s.error.Some? && s.error.value != ""
    ensures v == DashboardView <==> s.metrics.Some? || (!s.loading && (s.error.None? || s.error.value == ""))
  {
    if s.loading && s.metrics.None? then LoadingView
    else if s.error.Some? && s.error.value != "" && s.metrics.None? then ErrorView
    else DashboardView
  }

  /** While a cycle is in flight the page shows the spinner only when no data
      has arrived yet; otherwise the previous data stays on screen with
      loading on. The error view is never shown then. */
  lemma InFlightView(s: State)
    ensures ViewOf(Begin(s)) != ErrorView
    ensures ViewOf(Begin(s)) == LoadingView <==> s.metrics.None?
    ensures ViewOf(Begin(s)) == DashboardView ==> SnapshotOf(Begin(s)) == SnapshotOf(s)
  {
  }

  /** While no data has arrived no error is recorded. */
  predicate Consistent(s: State)
  {
    s.metrics.None? ==> s.error.None?
  }

  lemma {:induction false} RunConsistent(s: State, events: seq<Event>)
    requires Consistent(s)
    ensures Consistent(Run(s, events))
    ensures events != [] && (exists i :: 0 <= i < |events| && events[i].Cycle?) ==> Run(s, events).metrics.Some?
    decreases |events|
  {
    if events != [] {
      var next := Step(s, events[0]);
      RunConsistent(next, events[1..]);
      if exists i :: 0 <= i < |events| && events[i].Cycle? {
        var i :| 0 <= i < |events| && events[i].Cycle?;
        if i > 0 {
          assert events[1..][i - 1].Cycle?;
        } else {
          RunKeepsMetrics(next, events[1..]);
        }
      }
    }
  }

  lemma {:induction false} RunKeepsMetrics(s: State, events: seq<Event>)
    requires s.metrics.Some?
    ensures Run(s, events).metrics.Some?
    decreases |events|
  {
    if events != [] {
      RunKeepsMetrics(Step(s, events[0]), events[1..]);
    }
  }

  /** The full-page error view is unreachable: from mounting on, through any
      sequence of cycles and toggles, it never renders. */
  lemma ErrorViewUnreachable(mountTime: int, events: seq<Event>)
    ensures ViewOf(Run(Initial(mountTime), events)) != ErrorView
  {
    RunConsistent(Initial(mountTime), events);
  }

  // ---------------------------------------------------------------------
  // Bar chart input

  /** `{aws: metrics?.aws_incidents || 0, azure: metrics?.azure_incidents || 0, gcp: 0}` */
  function CloudDistributionOf(metrics: Option<Metrics>): (d: Charts.CloudDistribution)
    ensures d.aws.Some? && d.azure.Some? && d.gcp == Some(0)
    ensures metrics.None? ==> d.aws == Some(0) && d.azure == Some(0)
    ensures metrics.Some? ==> Charts.Count(d, Charts.AWS) == Charts.OrZero(metrics.value.awsIncidents)
    ensures metrics.Some? ==> Charts.Count(d, Charts.Azure) == Charts.OrZero(metrics.value.azureIncidents)
  {
    match metrics
    case None => Charts.CloudDistribution(Some(0), Some(0), Some(0))
    case Some(m) => Charts.CloudDistribution(Some(Charts.OrZero(m.awsIncidents)), Some(Charts.OrZero(m.azureIncidents)), Some(0))
  }

  /** GCP never gets a bar, and AWS gets one exactly when the metrics report
      a positive AWS count. */
  lemma DashboardCloudBars(metrics: Option<Metrics>)
    ensures !Charts.HasRow(Charts.CloudRows(CloudDistributionOf(metrics)), Charts.GCP)
    ensures Charts.HasRow(Charts.CloudRows(CloudDistributionOf(metrics)), Charts.AWS) <==>
      metrics.Some? && metrics.value.awsIncidents.Some? && metrics.value.awsIncidents.value > 0
    ensures Charts.HasRow(Charts.CloudRows(CloudDistributionOf(metrics)), Charts.Azure) <==>
      metrics.Some? && metrics.value.azureIncidents.Some? && metrics.value.azureIncidents.value > 0
  {
  }
}
