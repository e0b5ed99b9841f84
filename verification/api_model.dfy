/** The records the dashboard receives from its REST backend, the calls it can
    make, and the built-in mock data it falls back on.

    The HTTP client itself is not modelled: every call's outcome is an input
    of the operation that issues it (a Wrappers.Result). The mock constants
    are transcribed from frontend/src/api/incidentAPI.js:112-244.

    A JSON field that may be absent from a payload is an Option; a string
    field whose absence the page only tests for truthiness is a string, with
    "" standing for absent.
 */
module Api {
  import opened Wrappers

  /** Which data source a page reads: the built-in mock tables or the backend. */
  datatype Mode = Mock | Live {
    function Toggled(): (m: Mode)
      ensures m != this
    {
      if Mock? then Live else Mock
    }
  }

  /** Payload of GET /metrics. */
  datatype Metrics = Metrics(
    totalIncidents: Option<int>,
    activeIncidents: Option<int>,
    awsIncidents: Option<int>,
    azureIncidents: Option<int>,
    resolvedIncidents: Option<int>,
    avgResponseTime: Option<int>)

  /** One element of the GET /incidents list. */
  datatype IncidentSummary = IncidentSummary(
    id: string,
    cloud: string,
    principal: string,
    triggerType: string,
    timestamp: string,
    status: string,
    severity: string,
    ipAddress: string,
    region: string)

  /** One element of the GET /incidents/timeseries list. */
  datatype TimePoint = TimePoint(date: string, count: int)

  datatype ResponseAction = ResponseAction(action: string, timestamp: string, status: string)

  datatype TimelineEvent = TimelineEvent(event: string, timestamp: string)

  datatype ThreatIndicators = ThreatIndicators(
    isVpn: bool,
    isTor: bool,
    isKnownAttacker: bool,
    geoLocation: Option<string>)

  /** Payload of GET /incident/{id}. `evidence` lists the evidence object's
      entries in property order (key, url). */
  datatype IncidentDetail = IncidentDetail(
    id: string,
    cloud: string,
    principal: string,
    triggerType: string,
    timestamp: string,
    status: string,
    severity: string,
    ipAddress: string,
    region: string,
    resourceArn: string,
    userAgent: string,
    responseActions: seq<ResponseAction>,
    evidence: seq<(string, string)>,
    timeline: seq<TimelineEvent>,
    threatIndicators: Option<ThreatIndicators>)

  /** A request the pages can send to the backend. */
  datatype ApiCall =
    | GetMetrics
    | GetIncidents(limit: int)
    | GetTimeSeries(days: int)
    | GetIncident(id: string)
    | PatchIncidentResolved(id: string)

  const MockMetrics := Metrics(Some(47), Some(12), Some(28), Some(19), Some(35), Some(142))

  const MockIncidents := [
    IncidentSummary("inc-001", "AWS", "arn:aws:iam::123456789012:user/honeypot-user", "S3 Access",
      "2025-10-27T14:23:45Z", "Active", "High", "203.45.67.89", "us-east-1"),
    IncidentSummary("inc-002", "Azure", "decoy-service-principal@contoso.com", "Key Vault Access",
      "2025-10-27T13:15:22Z", "Active", "Critical", "45.123.78.210", "eastus"),
    IncidentSummary("inc-003", "AWS", "arn:aws:iam::123456789012:role/trap-role", "DynamoDB Query",
      "2025-10-27T11:42:18Z", "Resolved", "Medium", "102.34.56.178", "eu-west-1"),
    IncidentSummary("inc-004", "Azure", "honeypot-app@tenant.onmicrosoft.com", "Storage Blob Read",
      "2025-10-27T10:18:55Z", "Resolved", "Low", "78.92.145.23", "westus2"),
    IncidentSummary("inc-005", "AWS", "arn:aws:iam::987654321098:user/decoy-admin", "Lambda Invocation",
      "2025-10-27T09:33:12Z", "Active", "High", "156.78.90.234", "ap-southeast-1")
  ]

  const MockTimeSeries := [
    TimePoint("2025-10-21", 5),
    TimePoint("2025-10-22", 8),
    TimePoint("2025-10-23", 3),
    TimePoint("2025-10-24", 12),
    TimePoint("2025-10-25", 7),
    TimePoint("2025-10-26", 9),
    TimePoint("2025-10-27", 3)
  ]

  const MockIncidentDetail := IncidentDetail(
    "inc-001", "AWS", "arn:aws:iam::123456789012:user/honeypot-user", "S3 Access",
    "2025-10-27T14:23:45Z", "Active", "High", "203.45.67.89", "us-east-1",
    "arn:aws:s3:::honeypot-bucket-prod/sensitive-data.zip",
    "aws-cli/2.13.5 Python/3.11.4 Linux/5.15.0",
    [
      ResponseAction("Credential Revoked", "2025-10-27T14:24:02Z", "Success"),
      ResponseAction("Security Team Notified", "2025-10-27T14:24:05Z", "Success"),
      ResponseAction("CloudTrail Logs Captured", "2025-10-27T14:24:08Z", "Success")
    ],
    [
      ("cloudtrail_log", "https://s3.amazonaws.com/evidence/inc-001-cloudtrail.json"),
      ("vpc_flow_logs", "https://s3.amazonaws.com/evidence/inc-001-vpc-flow.log"),
      ("iam_snapshot", "https://s3.amazonaws.com/evidence/inc-001-iam-snapshot.json")
    ],
    [
      TimelineEvent("Honeytoken Triggered", "2025-10-27T14:23:45Z"),
      TimelineEvent("Automated Response Initiated", "2025-10-27T14:24:00Z"),
      TimelineEvent("Evidence Collection Started", "2025-10-27T14:24:08Z"),
      TimelineEvent("Evidence Saved to S3", "2025-10-27T14:24:15Z")
    ],
    Some(ThreatIndicators(false, false, true, Some("Singapore"))))
}
