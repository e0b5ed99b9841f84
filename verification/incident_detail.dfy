/** The display decisions of frontend/src/components/IncidentDetail.jsx:
    which sections render, the evidence link labels, and the small value
    mappings of the threat-intelligence and response-action panels.
    Markup and styling are not modelled.
 */
module IncidentDetailView {
  import opened Wrappers
  import opened Api

  // ---------------------------------------------------------------------
  // Sections

  datatype Section =
    | Header
    | SeverityBadge
    | BasicInfo
    | RegionRow
    | SourceIpRow
    | ResourceDetails
    | UserAgentBlock
    | ResponseActions
    | Timeline
    | EvidenceBundle
    | ThreatIntelligence

  /** The page lays its sections out in the order of the constructors above. */
  datatype Rendering = NotFound | Page(sections: set<Section>)

  const AllSections := [Header, SeverityBadge, BasicInfo, RegionRow, SourceIpRow,
                        ResourceDetails, UserAgentBlock, ResponseActions, Timeline,
                        EvidenceBundle, ThreatIntelligence]

  /** The JSX guard of each part of the page. */
  predicate Shown(inc: IncidentDetail, sec: Section)
  {
    match sec
    case Header => true
    case BasicInfo => true
    case SeverityBadge => inc.severity != ""
    case RegionRow => inc.region != ""
    case SourceIpRow => inc.ipAddress != ""
    case ResourceDetails => inc.resourceArn != ""
    case UserAgentBlock => inc.resourceArn != "" && inc.userAgent != ""
    case ResponseActions => |inc.responseActions| > 0
    case Timeline => |inc.timeline| > 0
    case EvidenceBundle => |inc.evidence| > 0
    case ThreatIntelligence => inc.threatIndicators.Some?
  }

  /** A null incident renders only "Incident Not Found"; otherwise exactly
      the parts whose guard holds. */
  function Render(incident: Option<IncidentDetail>): (r: Rendering)
    ensures r.NotFound? <==> incident.None?
    ensures r.Page? ==> forall sec :: sec in r.sections <==> Shown(incident.value, sec)
  {
    match incident
    case None => NotFound
    case Some(inc) =>
      AllSectionsListed();
      Page(set sec | sec in AllSections && Shown(inc, sec))
  }

  /** What a loaded incident's page shows: the header and the basic
      information always, and each list only when it is non-empty. */
  lemma RenderedSections(inc: IncidentDetail)
    ensures Render(Some(inc)).Page?
    ensures Header in Render(Some(inc)).sections && BasicInfo in Render(Some(inc)).sections
    ensures ResponseActions in Render(Some(inc)).sections <==> |inc.responseActions| > 0
    ensures Timeline in Render(Some(inc)).sections <==> |inc.timeline| > 0
    ensures EvidenceBundle in Render(Some(inc)).sections <==> |inc.evidence| > 0
  {
  }

  /** The optional parts of a loaded incident's page appear only when their
      value is present (a non-empty string, or threat indicators at all). */
  lemma RenderedOptionalParts(inc: IncidentDetail)
    ensures ThreatIntelligence in Render(Some(inc)).sections <==> inc.threatIndicators.Some?
    ensures SeverityBadge in Render(Some(inc)).sections <==> inc.severity != ""
    ensures RegionRow in Render(Some(inc)).sections <==> inc.region != ""
    ensures SourceIpRow in Render(Some(inc)).sections <==> inc.ipAddress != ""
  {
  }

  /** The user agent sits inside the resource details, so it needs both
      values, and it never shows without the resource details. */
  lemma RenderedResource(inc: IncidentDetail)
    ensures ResourceDetails in Render(Some(inc)).sections <==> inc.resourceArn != ""
    ensures UserAgentBlock in Render(Some(inc)).sections <==> inc.resourceArn != "" && inc.userAgent != ""
    ensures UserAgentBlock in Render(Some(inc)).sections ==> ResourceDetails in Render(Some(inc)).sections
  {
  }

  lemma AllSectionsListed()
    ensures forall sec: Section :: sec in AllSections
  {
    forall sec: Section
      ensures sec in AllSections
    {
      assert AllSections[Rank(sec)] == sec;
    }
  }

  /** Position of a section in AllSections. */
  function Rank(sec: Section): (i: nat)
    ensures i < |AllSections| && AllSections[i] == sec
  {
    match sec
    case Header => 0
    case SeverityBadge => 1
    case BasicInfo => 2
    case RegionRow => 3
    case SourceIpRow => 4
    case ResourceDetails => 5
    case UserAgentBlock => 6
    case ResponseActions => 7
    case Timeline => 8
    case EvidenceBundle => 9
    case ThreatIntelligence => 10
  }

  // ---------------------------------------------------------------------
  // Evidence labels

  predicate IsLower(c: char)
  {
    'a' <= c <= 'z'
  }

  /** toUpperCase on ASCII: a-z become A-Z, every other character is kept. */
  function UpperChar(c: char): (u: char)
    ensures !IsLower(u)
    ensures IsLower(c) ==> u as int == c as int - 32
    ensures !IsLower(c) ==> u == c
  {
    if IsLower(c) then (c as int - 32) as char else c
  }

  function SpaceForUnderscore(c: char): (d: char)
    ensures d != '_'
  {
    if c == '_' then ' ' else c
  }

  /** `key.replace(/_/g, ' ').toUpperCase()` */
  function EvidenceLabel(key: string): (text: string)
    ensures |text| == |key|
    ensures forall i :: 0 <= i < |key| ==> text[i] == UpperChar(SpaceForUnderscore(key[i]))
  {
    if key == [] then []
    else [UpperChar(SpaceForUnderscore(key[0]))] + EvidenceLabel(key[1..])
  }

  /** A label has no underscore and no lower-case letter, and every position
      holds the key's character, a space for an underscore, or the upper-case
      form of a lower-case letter. */
  lemma EvidenceLabelShape(key: string)
    ensures var text := EvidenceLabel(key);
      forall i :: 0 <= i < |text| ==>
        && text[i] != '_' && !IsLower(text[i])
        && (text[i] == key[i]
            || (key[i] == '_' && text[i] == ' ')
            || (IsLower(key[i]) && text[i] as int == key[i] as int - 32))
  {
  }

  /** Relabelling a label changes nothing. */
  lemma {:induction false} EvidenceLabelIdempotent(key: string)
    ensures EvidenceLabel(EvidenceLabel(key)) == EvidenceLabel(key)
    decreases |key|
  {
    if key != [] {
      var text := EvidenceLabel(key);
      assert text[1..] == EvidenceLabel(key[1..]);
      EvidenceLabelIdempotent(key[1..]);
    }
  }

  /** The labels of the evidence links, one per entry, in entry order. */
  function EvidenceLabels(evidence: seq<(string, string)>): (labels: seq<string>)
    ensures |labels| == |evidence|
    ensures forall i :: 0 <= i < |evidence| ==> labels[i] == EvidenceLabel(evidence[i].0)
  {
    if evidence == [] then []
    else [EvidenceLabel(evidence[0].0)] + EvidenceLabels(evidence[1..])
  }

  // ---------------------------------------------------------------------
  // Threat indicators and response actions

  /** A threat flag reads 'Yes' exactly when it is set. */
  function FlagText(flag: bool): (t: string)
    ensures t == "Yes" <==> flag
    ensures t == "No" <==> !flag
  {
    if flag then "Yes" else "No"
  }

  /** `geo_location || 'Unknown'` */
  function GeoLocationText(geo: Option<string>): (t: string)
    ensures geo.None? || geo.value == "" ==> t == "Unknown"
    ensures geo.Some? && geo.value != "" ==> t == geo.value
    ensures t != ""
  {
    match geo
    case Some(g) => if g != "" then g else "Unknown"
    case None => "Unknown"
  }

  /** The four cells of the threat-intelligence panel, in display order. */
  function ThreatCells(t: ThreatIndicators): (cells: seq<string>)
    ensures |cells| == 4
    ensures (cells[0] == "Yes") == t.isVpn && (cells[1] == "Yes") == t.isTor
    ensures (cells[2] == "Yes") == t.isKnownAttacker
    ensures (cells[0] == "No") == !t.isVpn && (cells[1] == "No") == !t.isTor
    ensures (cells[2] == "No") == !t.isKnownAttacker
    ensures cells[3] == GeoLocationText(t.geoLocation)
  {
    [FlagText(t.isVpn), FlagText(t.isTor), FlagText(t.isKnownAttacker), GeoLocationText(t.geoLocation)]
  }

  /** The two places a response action's status is styled: the icon before
      it and the badge after it. */
  datatype Icon = CheckCircle | XCircle

  const SuccessBadge := "bg-green-500/20 text-green-400"
  const FailureBadge := "bg-red-500/20 text-red-400"

  /** Success means a status of exactly 'Success'. */
  predicate ActionSucceeded(action: ResponseAction)
  {
    action.status == "Success"
  }

  function ActionIcon(action: ResponseAction): Icon
  {
    if action.status == "Success" then CheckCircle else XCircle
  }

  function ActionBadge(action: ResponseAction): string
  {
    if action.status == "Success" then SuccessBadge else FailureBadge
  }

  /** The icon and the badge are decided by the same comparison, so they
      always agree: the check icon comes with the green badge exactly for a
      successful action, and any other status, a differently cased
      'success' included, gets the cross and the red badge. */
  lemma ActionStylingAgrees(action: ResponseAction)
    ensures ActionIcon(action) == CheckCircle <==> ActionBadge(action) == SuccessBadge
    ensures ActionIcon(action) == CheckCircle <==> ActionSucceeded(action)
    ensures ActionIcon(action) == XCircle <==> ActionBadge(action) == FailureBadge
    ensures action.status == "success" ==> ActionIcon(action) == XCircle
  {
  }
}
