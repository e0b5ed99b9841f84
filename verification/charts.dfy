/** The data shaping of frontend/src/components/Charts.jsx: the rows handed
    to the line chart and to the bar chart. Rendering is not modelled; the
    short date label (formatChartDate, a locale call) is a parameter.
 */
module Charts {
  import opened Wrappers
  import opened Api

  // ---------------------------------------------------------------------
  // IncidentsOverTimeChart

  datatype ChartPoint = ChartPoint(date: string, incidents: int)

  /** `data.map(item => ({date: formatChartDate(item.date), incidents: item.count}))` */
  function OverTimeRows(data: seq<TimePoint>, formatDate: string -> string): (rows: seq<ChartPoint>)
    ensures |rows| == |data|
    ensures forall i :: 0 <= i < |data| ==> rows[i].incidents == data[i].count
    ensures forall i :: 0 <= i < |data| ==> rows[i].date == formatDate(data[i].date)
  {
    if data == [] then []
    else [ChartPoint(formatDate(data[0].date), data[0].count)] + OverTimeRows(data[1..], formatDate)
  }

  /** The chart rows of a concatenation are the rows of the parts, in order. */
  lemma {:induction false} OverTimeRowsAppend(a: seq<TimePoint>, b: seq<TimePoint>, formatDate: string -> string)
    ensures OverTimeRows(a + b, formatDate) == OverTimeRows(a, formatDate) + OverTimeRows(b, formatDate)
    decreases |a|
  {
    if a != [] {
      assert (a + b)[1..] == a[1..] + b;
      OverTimeRowsAppend(a[1..], b, formatDate);
    } else {
      assert a + b == b;
    }
  }

  // ---------------------------------------------------------------------
  // IncidentsByCloudChart

  datatype Cloud = AWS | Azure | GCP

  /** The chart's `{aws, azure, gcp}` input; a missing key is None. */
  datatype CloudDistribution = CloudDistribution(aws: Option<int>, azure: Option<int>, gcp: Option<int>)

  datatype CloudRow = CloudRow(cloud: Cloud, incidents: int, fill: string)

  /** Position of a cloud in the chart's fixed order AWS, Azure, GCP. */
  function Rank(c: Cloud): nat
  {
    match c
    case AWS => 0
    case Azure => 1
    case GCP => 2
  }

  function Fill(c: Cloud): string
  {
    match c
    case AWS => "#FF9900"
    case Azure => "#0078D4"
    case GCP => "#4285F4"
  }

  /** `v || 0` for a number: a missing value gives 0, a present one is kept
      (a present 0 is falsy and is replaced by the same 0). */
  function OrZero(v: Option<int>): (n: int)
    ensures n == 0 <==> v.None? || v.value == 0
    ensures n != 0 ==> v == Some(n)
  {
    v.GetOr(0)
  }

  /** The number the distribution holds for a cloud, after `|| 0`. */
  function Count(d: CloudDistribution, c: Cloud): int
  {
    match c
    case AWS => OrZero(d.aws)
    case Azure => OrZero(d.azure)
    case GCP => OrZero(d.gcp)
  }

  predicate StrictlyRanked(rows: seq<CloudRow>)
  {
    forall i, j :: 0 <= i < j < |rows| ==> Rank(rows[i].cloud) < Rank(rows[j].cloud)
  }

  predicate HasRow(rows: seq<CloudRow>, c: Cloud)
  {
    exists i :: 0 <= i < |rows| && rows[i].cloud == c
  }

  /** `.filter(item => item.incidents > 0)` */
  function KeepPositive(rows: seq<CloudRow>): (kept: seq<CloudRow>)
    ensures forall r :: r in kept <==> r in rows && r.incidents > 0
    ensures StrictlyRanked(rows) ==> StrictlyRanked(kept)
  {
    if rows == [] then []
    else
      var rest := KeepPositive(rows[1..]);
      if rows[0].incidents > 0 then
        assert forall r :: r in rest ==> r in rows[1..];
        [rows[0]] + rest
      else rest
  }

  /** Each positive row is kept as often as it occurs, and no other row is. */
  lemma {:induction false} KeepPositiveCounts(rows: seq<CloudRow>, r: CloudRow)
    ensures multiset(KeepPositive(rows))[r] == if r.incidents > 0 then multiset(rows)[r] else 0
    decreases |rows|
  {
    if rows != [] {
      KeepPositiveCounts(rows[1..], r);
      assert rows == [rows[0]] + rows[1..];
      var rest := KeepPositive(rows[1..]);
      if rows[0].incidents > 0 {
        assert KeepPositive(rows) == [rows[0]] + rest;
      }
    }
  }

  /** The filter works row by row: filtering a concatenation filters each
      part and keeps the parts in order, so kept rows keep their relative
      order. */
  lemma {:induction false} KeepPositiveAppend(a: seq<CloudRow>, b: seq<CloudRow>)
    ensures KeepPositive(a + b) == KeepPositive(a) + KeepPositive(b)
    decreases |a|
  {
    if a == [] {
      assert a + b == b;
    } else {
      assert (a + b)[1..] == a[1..] + b;
      KeepPositiveAppend(a[1..], b);
    }
  }

  /** The three candidate rows, in the chart's order. */
  function Candidates(d: CloudDistribution): seq<CloudRow>
  {
    [CloudRow(AWS, Count(d, AWS), Fill(AWS)),
     CloudRow(Azure, Count(d, Azure), Fill(Azure)),
     CloudRow(GCP, Count(d, GCP), Fill(GCP))]
  }

  /** The rows of the bar chart: a subsequence of AWS, Azure, GCP in that
      order, each cloud at most once, exactly the clouds with a positive
      count, each carrying its own count and its fixed fill colour. */
  function CloudRows(d: CloudDistribution): (rows: seq<CloudRow>)
    ensures StrictlyRanked(rows)
    ensures forall i :: 0 <= i < |rows| ==> rows[i].incidents > 0
    ensures forall i :: 0 <= i < |rows| ==> rows[i].incidents == Count(d, rows[i].cloud)
    ensures forall i :: 0 <= i < |rows| ==> rows[i].fill == Fill(rows[i].cloud)
    ensures forall c :: HasRow(rows, c) <==> Count(d, c) > 0
  {
    var rows := KeepPositive(Candidates(d));
    KeptCandidates(d, rows);
    rows
  }

  lemma KeptCandidates(d: CloudDistribution, rows: seq<CloudRow>)
    requires rows == KeepPositive(Candidates(d))
    ensures StrictlyRanked(rows)
    ensures forall i :: 0 <= i < |rows| ==> rows[i].incidents > 0
    ensures forall i :: 0 <= i < |rows| ==> rows[i] == CloudRow(rows[i].cloud, Count(d, rows[i].cloud), Fill(rows[i].cloud))
    ensures forall c :: HasRow(rows, c) <==> Count(d, c) > 0
  {
    CandidatesShape(d);
    assert forall i :: 0 <= i < |rows| ==> rows[i] in rows;
    forall c | Count(d, c) > 0
      ensures HasRow(rows, c)
    {
      var r := CloudRow(c, Count(d, c), Fill(c));
      assert r in rows;
      var k :| 0 <= k < |rows| && rows[k] == r;
    }
  }

  lemma CandidatesShape(d: CloudDistribution)
    ensures StrictlyRanked(Candidates(d))
    ensures forall c :: CloudRow(c, Count(d, c), Fill(c)) in Candidates(d)
    ensures forall r :: r in Candidates(d) ==> r == CloudRow(r.cloud, Count(d, r.cloud), Fill(r.cloud))
  {
    var candidates := Candidates(d);
    forall c
      ensures CloudRow(c, Count(d, c), Fill(c)) in candidates
    {
      assert candidates[Rank(c)] == CloudRow(c, Count(d, c), Fill(c));
    }
  }

  /** A cloud with no value, or a zero value, gets no bar; a cloud with a
      positive value gets exactly one bar showing that value. */
  lemma CloudRowPresence(d: CloudDistribution, c: Cloud)
    ensures Count(d, c) <= 0 ==> !HasRow(CloudRows(d), c)
    ensures Count(d, c) > 0 ==> exists i :: 0 <= i < |CloudRows(d)| && CloudRows(d)[i] == CloudRow(c, Count(d, c), Fill(c))
  {
    var rows := CloudRows(d);
    if Count(d, c) > 0 {
      assert HasRow(rows, c);
      var i :| 0 <= i < |rows| && rows[i].cloud == c;
      assert rows[i] == CloudRow(c, Count(d, c), Fill(c));
    }
  }
}
