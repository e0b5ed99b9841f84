/** The display helpers of frontend/src/utils/formatters.js.

    JavaScript's falsy strings (null, undefined, "") are an Option<string>
    whose None or Some("") counts as falsy. The clock and the locale are not
    modelled: formatTimestamp receives the elapsed milliseconds and the
    locale rendering of the date as parameters, formatNumber receives its
    locale rendering as a function.
 */
module Formatters {
  import opened Wrappers
  import Decimal

  predicate Falsy(s: Option<string>)
  {
    s.None? || s.value == ""
  }

  // ---------------------------------------------------------------------
  // truncateString

  const DefaultMaxLength := 50
  const Ellipsis := "..."

  /** `str.substring(0, n)`: the end index is clamped into 0..|str|. */
  function Prefix(s: string, n: int): (p: string)
    ensures |p| == if n < 0 then 0 else if n > |s| then |s| else n
    ensures p <= s
  {
    if n < 0 then [] else if n > |s| then s else s[..n]
  }

  /** A falsy string becomes "", a string no longer than maxLength is kept,
      a longer one is cut to maxLength characters and an ellipsis appended. */
  function TruncateString(str: Option<string>, maxLength: int): (r: string)
    ensures Falsy(str) ==> r == ""
    ensures !Falsy(str) && |str.value| <= maxLength ==> r == str.value
    ensures !Falsy(str) && |str.value| > maxLength ==>
      && |r| == (if maxLength < 0 then 0 else maxLength) + |Ellipsis|
      && r[..|r| - |Ellipsis|] <= str.value
      && r[|r| - |Ellipsis|..] == Ellipsis
    ensures r == "" || (str.Some? && (r == str.value || exists k :: 0 <= k <= |str.value| && r == str.value[..k] + Ellipsis))
  {
    if Falsy(str) then ""
    else if |str.value| > maxLength then
      var p := Prefix(str.value, maxLength);
      assert p == str.value[..|p|];
      p + Ellipsis
    else str.value
  }

  /** truncateString with its default limit of 50 characters. */
  function TruncateDefault(str: Option<string>): (r: string)
    ensures |r| <= DefaultMaxLength + |Ellipsis|
    ensures !Falsy(str) && |str.value| <= DefaultMaxLength ==> r == str.value
  {
    TruncateString(str, DefaultMaxLength)
  }

  /** Truncating an already truncated string changes nothing. */
  lemma TruncateIdempotent(str: Option<string>, maxLength: int)
    ensures TruncateString(Some(TruncateString(str, maxLength)), maxLength) == TruncateString(str, maxLength)
  {
    var r := TruncateString(str, maxLength);
    if !Falsy(str) && |str.value| > maxLength {
      var p := Prefix(str.value, maxLength);
      assert r == p + Ellipsis;
      assert Prefix(r, maxLength) == p;
    }
  }

  // ---------------------------------------------------------------------
  // getStatusColor, getCloudColor

  const StatusActiveClass := "status-active"
  const StatusResolvedClass := "status-resolved"

  function StatusColor(status: string): (r: string)
    ensures r == StatusActiveClass <==> status == "Active"
    ensures r == StatusActiveClass || r == StatusResolvedClass
  {
    if status == "Active" then StatusActiveClass else StatusResolvedClass
  }

  const AwsClass := "bg-orange-500/20 text-orange-400 border-orange-500"
  const AzureClass := "bg-blue-500/20 text-blue-400 border-blue-500"
  const GcpClass := "bg-red-500/20 text-red-400 border-red-500"
  const GrayClass := "bg-gray-500/20 text-gray-400 border-gray-500"

  /** The lookup table of getCloudColor. */
  const CloudClasses: map<string, string> := map["AWS" := AwsClass, "Azure" := AzureClass, "GCP" := GcpClass]

  /** `colors[cloud] || gray`: every table entry is a non-empty string, so the
      fallback applies exactly to keys outside the table. */
  function CloudColor(cloud: string): (r: string)
    ensures r == AwsClass <==> cloud == "AWS"
    ensures r == AzureClass <==> cloud == "Azure"
    ensures r == GcpClass <==> cloud == "GCP"
    ensures r == GrayClass <==> cloud !in {"AWS", "Azure", "GCP"}
  {
    if cloud in CloudClasses && CloudClasses[cloud] != "" then CloudClasses[cloud] else GrayClass
  }

  // ---------------------------------------------------------------------
  // calculateChange

  datatype Direction = Up | Down | Neutral

  /** `percent` is the exact magnitude of the relative change in percent. */
  datatype Change = Change(percent: real, direction: Direction)

  function Abs(x: real): (a: real)
    ensures a >= 0.0 && (a == x || a == -x)
  {
    if x < 0.0 then -x else x
  }

  /** A zero (falsy) previous value gives a neutral zero change; otherwise the
      direction is the sign of (current - previous) / previous. */
  function CalculateChange(current: real, previous: real): (c: Change)
    ensures previous == 0.0 ==> c == Change(0.0, Neutral)
    ensures previous > 0.0 ==> (c.direction == Up <==> current > previous)
    ensures previous > 0.0 ==> (c.direction == Down <==> current < previous)
    ensures previous < 0.0 ==> (c.direction == Up <==> current < previous)
    ensures previous < 0.0 ==> (c.direction == Down <==> current > previous)
    ensures c.direction == Neutral <==> previous == 0.0 || current == previous
    ensures c.percent >= 0.0
    ensures previous != 0.0 ==> c.percent * Abs(previous) == 100.0 * Abs(current - previous)
  {
    if previous == 0.0 then Change(0.0, Neutral)
    else
      var change := (current - previous) / previous * 100.0;
      QuotientSign(current - previous, previous);
      QuotientScale(current - previous, previous);
      Change(Abs(change), if change > 0.0 then Up else if change < 0.0 then Down else Neutral)
  }

  lemma QuotientSign(x: real, y: real)
    requires y != 0.0
    ensures x / y * 100.0 > 0.0 <==> (x > 0.0 && y > 0.0) || (x < 0.0 && y < 0.0)
    ensures x / y * 100.0 < 0.0 <==> (x > 0.0 && y < 0.0) || (x < 0.0 && y > 0.0)
  {
    var q := x / y;
    assert q * y == x;
  }

  lemma QuotientScale(x: real, y: real)
    requires y != 0.0
    ensures Abs(x / y * 100.0) * Abs(y) == 100.0 * Abs(x)
  {
    var q := x / y;
    assert q * y == x;
  }

  // ---------------------------------------------------------------------
  // formatTimestamp

  const MsPerMinute := 60000
  const MinutesPerHour := 60
  const MinutesPerDay := 1440

  /** Which branch formatTimestamp takes. */
  datatype Stamp = NotAvailable | MinutesAgo(minutes: int) | HoursAgo(hours: int) | FullDate

  /** The branch for a timestamp that lies diffMs milliseconds in the past
      (negative for the future). Dafny's `/` by a positive divisor rounds
      down, as Math.floor does. */
  function Classify(iso: Option<string>, diffMs: int): (st: Stamp)
    ensures st == NotAvailable <==> Falsy(iso)
    ensures st.MinutesAgo? <==> !Falsy(iso) && diffMs < MinutesPerHour * MsPerMinute
    ensures st.MinutesAgo? ==>
      && st.minutes < MinutesPerHour
      && st.minutes * MsPerMinute <= diffMs < (st.minutes + 1) * MsPerMinute
    ensures st.HoursAgo? <==> !Falsy(iso) && MinutesPerHour * MsPerMinute <= diffMs < MinutesPerDay * MsPerMinute
    ensures st.HoursAgo? ==>
      && 1 <= st.hours <= 23
      && st.hours * MinutesPerHour * MsPerMinute <= diffMs < (st.hours + 1) * MinutesPerHour * MsPerMinute
    ensures st.FullDate? <==> !Falsy(iso) && diffMs >= MinutesPerDay * MsPerMinute
  {
    if Falsy(iso) then NotAvailable
    else
      var diffMins := diffMs / MsPerMinute;
      if diffMins < MinutesPerHour then MinutesAgo(diffMins)
      else if diffMins < MinutesPerDay then HoursAgo(diffMins / MinutesPerHour)
      else FullDate
  }

  function Plural(n: int): string
  {
    if n != 1 then "s" else ""
  }

  /** `${n} <unit>${n !== 1 ? 's' : ''} ago` */
  function RelativeText(n: int, unit: string): string
  {
    Decimal.IntToString(n) + " " + unit + Plural(n) + " ago"
  }

  /** formatTimestamp; `fullDate` is what toLocaleString renders for the date. */
  function FormatTimestamp(iso: Option<string>, diffMs: int, fullDate: string): (r: string)
    ensures Falsy(iso) ==> r == "N/A"
    ensures Classify(iso, diffMs).FullDate? ==> r == fullDate
  {
    match Classify(iso, diffMs)
    case NotAvailable => "N/A"
    case MinutesAgo(n) => RelativeText(n, "min")
    case HoursAgo(h) => RelativeText(h, "hour")
    case FullDate => fullDate
  }

  /** Splits at the first space: the head holds no space and the tail is
      empty or starts with the space. */
  function SplitAtSpace(s: string): (r: (string, string))
    ensures r.0 + r.1 == s
    ensures ' ' !in r.0
  {
    if s == [] then ([], [])
    else if s[0] == ' ' then ([], s)
    else
      var (head, tail) := SplitAtSpace(s[1..]);
      ([s[0]] + head, tail)
  }

  /** Reads a relative-time text back: the number before the first space,
      then the unit with the plural ending its number calls for. */
  function ParseRelative(text: string): Option<Stamp>
  {
    var (head, tail) := SplitAtSpace(text);
    match Decimal.ParseInt(head)
    case None => None
    case Some(n) =>
      if tail == " min" + Plural(n) + " ago" then Some(MinutesAgo(n))
      else if tail == " hour" + Plural(n) + " ago" then Some(HoursAgo(n))
      else None
  }

  lemma {:induction false} SplitAfterWord(word: string, rest: string)
    requires ' ' !in word
    ensures SplitAtSpace(word + " " + rest) == (word, " " + rest)
    decreases |word|
  {
    if word != [] {
      assert (word + " " + rest)[1..] == word[1..] + " " + rest;
      SplitAfterWord(word[1..], rest);
      assert [word[0]] + word[1..] == word;
    } else {
      assert word + " " + rest == " " + rest;
    }
  }

  lemma RelativeTextSplit(n: int, unit: string)
    ensures SplitAtSpace(RelativeText(n, unit)) == (Decimal.IntToString(n), " " + unit + Plural(n) + " ago")
  {
    var rest := unit + Plural(n) + " ago";
    assert RelativeText(n, unit) == Decimal.IntToString(n) + " " + rest;
    assert " " + unit + Plural(n) + " ago" == " " + rest;
    SplitAfterWord(Decimal.IntToString(n), rest);
  }

  lemma RelativeTextRoundTrip(n: int, unit: string)
    requires unit == "min" || unit == "hour"
    ensures ParseRelative(RelativeText(n, unit)) == Some(if unit == "min" then MinutesAgo(n) else HoursAgo(n))
  {
    RelativeTextSplit(n, unit);
    Decimal.IntToStringRoundTrip(n);
    var tail := " " + unit + Plural(n) + " ago";
    if unit == "hour" {
      assert tail[1] == 'h';
      assert (" min" + Plural(n) + " ago")[1] == 'm';
    }
  }

  /** Round trip: a relative-time output of formatTimestamp reads back as the
      branch and the number that produced it. */
  lemma FormatTimestampRoundTrip(iso: Option<string>, diffMs: int, fullDate: string)
    requires Classify(iso, diffMs).MinutesAgo? || Classify(iso, diffMs).HoursAgo?
    ensures ParseRelative(FormatTimestamp(iso, diffMs, fullDate)) == Some(Classify(iso, diffMs))
    ensures Decimal.Canonical(SplitAtSpace(FormatTimestamp(iso, diffMs, fullDate)).0)
  {
    match Classify(iso, diffMs)
    case MinutesAgo(n) =>
      RelativeTextRoundTrip(n, "min");
      RelativeTextSplit(n, "min");
    case HoursAgo(h) =>
      RelativeTextRoundTrip(h, "hour");
      RelativeTextSplit(h, "hour");
  }

  /** The unit carries its plural 's' exactly when the number is not 1. */
  lemma RelativeTextPlural(n: int, unit: string)
    requires unit == "min" || unit == "hour"
    ensures var t := RelativeText(n, unit); |t| >= 5 && (t[|t| - 5..] == "s ago" <==> n != 1)
  {
    var t := RelativeText(n, unit);
    var body := Decimal.IntToString(n) + " " + unit;
    if n == 1 {
      assert t == body + " ago";
      assert t[|t| - 5] == body[|body| - 1] == unit[|unit| - 1];
      assert t[|t| - 5] != 's';
    } else {
      assert t == body + "s ago";
    }
  }

  // ---------------------------------------------------------------------
  // formatNumber

  /** A non-number (None) renders as "0"; a number is handed to the locale
      formatter. */
  function FormatNumber(num: Option<real>, localeFormat: real -> string): (r: string)
    ensures num.None? ==> r == "0"
    ensures num.Some? ==> r == localeFormat(num.value)
  {
    match num
    case None => "0"
    case Some(x) => localeFormat(x)
  }

  /** The guard does not consult the locale: every non-number gives the same
      "0" under any formatter, and under the en-US rendering of zero ("0")
      a non-number is indistinguishable from the number 0. A number's text
      depends on the formatter only through that number. */
  lemma FormatNumberGuard(f: real -> string, g: real -> string, x: real)
    ensures FormatNumber(None, f) == FormatNumber(None, g)
    ensures f(0.0) == "0" ==> FormatNumber(None, f) == FormatNumber(Some(0.0), f)
    ensures f(x) == g(x) ==> FormatNumber(Some(x), f) == FormatNumber(Some(x), g)
  {
  }
}
