/**
 * The batch uploader: every report file is posted to DefectDojo under the
 * scan type its file name selects, except the ZAP JSON report, which is
 * first converted to findings (one per alert, from the alert's first
 * instance) and posted as an import. The batch needs a product and an
 * engagement; an engagement started today is reused.
 *
 * HTTP calls are inputs: a search result list, a flag for whether a post
 * was answered with 201, the id a creation returned.
 */
module UploadReports {
  import opened Common
  import opened ZapJson
  import DastEnhanced
  import ZapXml

  // ---------------------------------------------------------------------
  // Classification tables
  // ---------------------------------------------------------------------

  const GenericScanType: string := "Generic Findings Import"

  /** Report file name to DefectDojo scan type. */
  const ScanTypes: map<string, string> := map[
    "gitleaks.json" := "Gitleaks Scan",
    "gitleaks-report.json" := "Gitleaks Scan",
    "semgrep.json" := "Semgrep JSON Report",
    "semgrep_nodejs.json" := "Semgrep JSON Report",
    "trivy_fs_report.json" := "Trivy Scan",
    "trivy_images_report.json" := "Trivy Scan",
    "gl-dast-report.json" := "OWASP ZAP DAST Scan",
    "gl-dast-report.xml" := "OWASP ZAP DAST Scan (XML)",
    "dependency_track_findings.json" := "Dependency-Track Scan",
    "syft.cdx.json" := "Software Bill of Materials (SBOM)",
    "njsscan.sarif" := "SARIF",
    "security_summary.json" := "Security Summary Report"]

  /**
   * `get_scan_type`: an exact match on the file name; any other name is a
   * generic import (no table entry is the generic type, so the two cases
   * are told apart by the result).
   */
  function GetScanType(fileName: string): (scanType: string)
    ensures fileName in ScanTypes ==> scanType == ScanTypes[fileName]
    ensures scanType == GenericScanType <==> fileName !in ScanTypes
  {
    if fileName in ScanTypes then ScanTypes[fileName] else GenericScanType
  }

  /** This uploader's `risk_mapping`. */
  const RiskMapping: map<string, Severity> := map[
    "High" := High,
    "Critical" := Critical,
    "Medium" := Medium,
    "Low" := Low,
    "Informational" := Info]

  /**
   * `map_zap_risk_to_severity`: the identity on the four severities that
   * share a name with a ZAP risk, Informational to Info, anything else Low.
   */
  function MapZapRiskToSeverity(zapRisk: string): (sev: Severity)
    ensures ZapRiskRank(zapRisk).Some? ==> SeverityRank(sev) == ZapRiskRank(zapRisk).value
    ensures zapRisk == "Critical" <==> sev == Critical
    ensures ZapRiskRank(zapRisk).None? && zapRisk != "Critical" ==> sev == Low
  {
    if zapRisk in RiskMapping then RiskMapping[zapRisk] else Low
  }

  /** This uploader's `owasp_mapping`, keyed by the exact ZAP alert name. */
  const OwaspMapping: map<string, string> := map[
    "Cross Site Scripting" := "A03:2021-Injection",
    "SQL Injection" := "A03:2021-Injection",
    "X-Content-Type-Options header missing" := "A05:2021-Security Misconfiguration",
    "Cookie without SameSite Attribute" := "A05:2021-Security Misconfiguration",
    "CSP Scanner: Content Security Policy Not Implemented" := "A05:2021-Security Misconfiguration",
    "X-Frame-Options header not set" := "A05:2021-Security Misconfiguration",
    "Absence of Anti-CSRF Tokens" := "A01:2021-Broken Access Control",
    "Cross Domain Script Inclusion" := "A05:2021-Security Misconfiguration",
    "Content Type Missing" := "A05:2021-Security Misconfiguration",
    "Cookie without Secure Flag" := "A05:2021-Security Misconfiguration"]

  /** `get_owasp_mapping`: an exact-match lookup, None when the name is not listed. */
  function GetOwaspMapping(alertName: string): (cat: Option<string>)
    ensures cat.Some? <==> alertName in OwaspMapping
    ensures cat.Some? ==> cat.value == OwaspMapping[alertName]
    ensures cat.Some? ==> cat.value in {ZapXml.BrokenAccessControl, ZapXml.Injection, ZapXml.SecurityMisconfiguration}
  {
    if alertName in OwaspMapping then Some(OwaspMapping[alertName]) else None
  }

  /** The alert names this uploader and the XML uploader file under different categories. */
  const DisputedAlertNames: set<string> := {
    "Cross Site Scripting",
    "Cookie without SameSite Attribute",
    "CSP Scanner: Content Security Policy Not Implemented",
    "Cross Domain Script Inclusion"}

  /**
   * Every alert name this uploader's table lists is also in the XML
   * uploader's table, and the two give the same category for all of them
   * except four: cross-site scripting is Injection here but Broken Access
   * Control there, and the SameSite, CSP and cross-domain alerts are
   * Security Misconfiguration here but Broken Access Control there.
   */
  lemma OwaspMappingsDisagree(alertName: string)
    ensures GetOwaspMapping(alertName).Some? ==> ZapXml.OwaspTop10(alertName).Some?
    ensures GetOwaspMapping(alertName).Some? ==>
      (GetOwaspMapping(alertName) != ZapXml.OwaspTop10(alertName) <==> alertName in DisputedAlertNames)
    ensures alertName in DisputedAlertNames ==>
      GetOwaspMapping(alertName).Some? && ZapXml.OwaspTop10(alertName) == Some(ZapXml.BrokenAccessControl)
  {
  }

  // ---------------------------------------------------------------------
  // The three risk-to-severity maps compared
  // ---------------------------------------------------------------------

  /**
   * The enhanced DAST uploader ranks every ZAP risk one level above this
   * uploader, and an unknown risk is Info there but Low here.
   */
  lemma SeverityMapsDisagree(zapRisk: string)
    ensures ZapRiskRank(zapRisk).Some? ==>
      SeverityRank(DastEnhanced.MapZapRiskToSeverity(zapRisk)) == SeverityRank(MapZapRiskToSeverity(zapRisk)) + 1
    ensures ZapRiskRank(zapRisk).None? && zapRisk != "Critical" ==>
      DastEnhanced.MapZapRiskToSeverity(zapRisk) == Info && MapZapRiskToSeverity(zapRisk) == Low
  {
  }

  /** The XML uploader's `severity_mapping` lookup and this uploader's map agree on every string. */
  lemma XmlSeverityMapAgrees(level: string)
    ensures ZapXml.XmlSeverity(level) == MapZapRiskToSeverity(level)
  {
  }

  // ---------------------------------------------------------------------
  // ZAP report conversion
  // ---------------------------------------------------------------------

  /** The fields of the finding dict that depend on the report (the rest are constants). */
  datatype UploadFinding = UploadFinding(
    title: string,
    description: string,
    severity: Severity,
    cwe: Option<int>,
    references: string,
    solution: string,
    mitigated: bool,        // the later duplicate key `'mitigated': False` wins
    impact: string,
    url: string,
    param: string,
    attack: string,
    evidence: string,
    request: string,
    response: string,
    owaspTop10: Option<string>)

  /** What the loop body does with one alert. */
  datatype Conversion = Skipped | Converted(finding: UploadFinding) | Raised

  /**
   * One alert of the first site: skipped without instances; otherwise a
   * finding from its first instance, unless a given cweid is not an
   * integer, in which case `int()` raises.
   */
  function ConvertAlert(alert: Alert, siteName: string): (c: Conversion)
    ensures c.Skipped? <==> alert.instances == []
    ensures c.Raised? <==> alert.instances != [] && CweUnparsable(alert)
    ensures c.Converted? ==> var f := c.finding;
      && (Truthy(alert.cweid) ==> f.cwe == ParseInt(alert.cweid.value))
      && (!Truthy(alert.cweid) ==> f.cwe == None)
      && f.title == alert.name.GetOr("Unknown ZAP Finding")
      && f.description == alert.desc.GetOr("")
      && f.severity == MapZapRiskToSeverity(alert.risk.GetOr("Low"))
      && f.impact == alert.risk.GetOr("Low")
      && (alert.risk.None? ==> f.severity == Low && f.impact == "Low")
      && f.references == alert.reference.GetOr("")
      && f.solution == alert.solution.GetOr("")
      && !f.mitigated
      && f.url == siteName
      && f.param == alert.instances[0].param.GetOr("")
      && f.attack == alert.instances[0].attack.GetOr("")
      && f.evidence == alert.instances[0].evidence.GetOr("")
      && f.request == alert.instances[0].request.GetOr("")
      && f.response == alert.instances[0].response.GetOr("")
      && f.owaspTop10 == GetOwaspMapping(alert.name.GetOr(""))
      && (f.owaspTop10.Some? <==> alert.name.GetOr("") in OwaspMapping)
  {
    if alert.instances == [] then Skipped
    else
      var instance := alert.instances[0];
      var cwe := if Truthy(alert.cweid) then ParseInt(alert.cweid.value) else Some(0);
      if cwe.None? then Raised
      else
        Converted(UploadFinding(
          title := alert.name.GetOr("Unknown ZAP Finding"),
          description := alert.desc.GetOr(""),
          severity := MapZapRiskToSeverity(alert.risk.GetOr("Low")),
          cwe := if Truthy(alert.cweid) then cwe else None,
          references := alert.reference.GetOr(""),
          solution := alert.solution.GetOr(""),
          mitigated := false,
          impact := alert.risk.GetOr("Low"),
          url := siteName,
          param := instance.param.GetOr(""),
          attack := instance.attack.GetOr(""),
          evidence := instance.evidence.GetOr(""),
          request := instance.request.GetOr(""),
          response := instance.response.GetOr(""),
          owaspTop10 := GetOwaspMapping(alert.name.GetOr(""))))
  }

  /** The finding of a converted alert, None for a skipped one. */
  function FindingOf(c: Conversion): (r: Option<UploadFinding>)
    ensures r.Some? <==> c.Converted?
    ensures r.Some? ==> r.value == c.finding
  {
    if c.Converted? then Some(c.finding) else None
  }

  /** Some alert makes the conversion raise. */
  predicate SomeAlertRaises(alerts: seq<Alert>, siteName: string) {
    exists i :: 0 <= i < |alerts| && ConvertAlert(alerts[i], siteName).Raised?
  }

  /**
   * The conversion of a list of alerts: None when one of them raises,
   * otherwise the findings of the alerts with instances, in alert order.
   */
  function ConvertedFindings(alerts: seq<Alert>, siteName: string): Option<seq<UploadFinding>> {
    if SomeAlertRaises(alerts, siteName) then None
    else Some(FilterMap(alerts, (a: Alert) => FindingOf(ConvertAlert(a, siteName))))
  }

  /** `site.get('@name', '')` of the first site, "" when there is none. */
  function FirstSiteName(report: Report): string {
    if report.sites == [] then "" else report.sites[0].name.GetOr("")
  }

  /** The conversion loop of `process_zap_dast_report`, which stops at the first alert that raises. */
  method ConvertZapReport(report: Report) returns (findings: Option<seq<UploadFinding>>)
    ensures findings == ConvertedFindings(FirstSiteAlerts(report), FirstSiteName(report))
  {
    var alerts := FirstSiteAlerts(report);
    var siteName := FirstSiteName(report);
    var convert := (a: Alert) => FindingOf(ConvertAlert(a, siteName));
    var found: seq<UploadFinding> := [];
    for i := 0 to |alerts|
      invariant forall k :: 0 <= k < i ==> !ConvertAlert(alerts[k], siteName).Raised?
      invariant found == FilterMap(alerts[..i], convert)
    {
      FilterMapStep(alerts, i, convert);
      var c := ConvertAlert(alerts[i], siteName);
      match c
      case Raised =>
        return None;
      case Skipped =>
      case Converted(f) =>
        found := found + [f];
    }
    assert alerts[..|alerts|] == alerts;
    return Some(found);
  }

  /**
   * When every alert has instances and none raises, there is exactly one
   * finding per alert, each converted from the alert at the same position.
   */
  lemma OneFindingPerAlert(alerts: seq<Alert>, siteName: string)
    requires forall i :: 0 <= i < |alerts| ==> alerts[i].instances != [] && !CweUnparsable(alerts[i])
    ensures ConvertedFindings(alerts, siteName).Some?
    ensures |ConvertedFindings(alerts, siteName).value| == |alerts|
    ensures forall i :: 0 <= i < |alerts| ==>
      ConvertAlert(alerts[i], siteName) == Converted(ConvertedFindings(alerts, siteName).value[i])
  {
    var convert := (a: Alert) => FindingOf(ConvertAlert(a, siteName));
    FilterMapComplete(alerts, convert);
  }

  /** Alerts without instances contribute nothing: a report of only those converts to no finding. */
  lemma AlertsWithoutInstancesYieldNothing(alerts: seq<Alert>, siteName: string)
    requires forall i :: 0 <= i < |alerts| ==> alerts[i].instances == []
    ensures ConvertedFindings(alerts, siteName) == Some([])
  {
    var convert := (a: Alert) => FindingOf(ConvertAlert(a, siteName));
    FilterMapEmpty(alerts, convert);
  }

  /**
   * Whether the ZAP handler reports success: the report must load and
   * convert; no finding is a success without an upload, otherwise the
   * result of the findings upload counts.
   */
  function ZapHandlerSucceeds(loaded: Option<Report>, uploadSucceeded: bool): bool {
    match loaded
    case None => false
    case Some(report) =>
      match ConvertedFindings(FirstSiteAlerts(report), FirstSiteName(report))
      case None => false
      case Some(findings) => findings == [] || uploadSucceeded
  }

  /**
   * `process_zap_dast_report`: `loaded` is None when the file could not be
   * opened or parsed, `uploadSucceeded` is the outcome `upload_zap_findings`
   * would report. `posted` is what was uploaded, None when nothing was.
   */
  method ProcessZapDastReport(loaded: Option<Report>, uploadSucceeded: bool)
    returns (success: bool, posted: Option<seq<UploadFinding>>)
    ensures success == ZapHandlerSucceeds(loaded, uploadSucceeded)
    ensures posted.Some? <==>
      loaded.Some? && ConvertedFindings(FirstSiteAlerts(loaded.value), FirstSiteName(loaded.value)).Some?
      && ConvertedFindings(FirstSiteAlerts(loaded.value), FirstSiteName(loaded.value)).value != []
    ensures posted.Some? ==> posted == ConvertedFindings(FirstSiteAlerts(loaded.value), FirstSiteName(loaded.value))
  {
    if loaded.None? {
      return false, None;
    }
    var findings := ConvertZapReport(loaded.value);
    if findings.None? {
      return false, None;
    }
    if findings.value != [] {
      return uploadSucceeded, findings;
    }
    return true, None;
  }

  // ---------------------------------------------------------------------
  // Batch upload
  // ---------------------------------------------------------------------

  /**
   * One report file as the batch sees it: its path, whether it exists and
   * its size, its contents read as a ZAP report (None when that fails), and
   * whether the post for it is answered with 201.
   */
  datatype ReportFile = ReportFile(path: string, present: bool, size: nat, zapReport: Option<Report>, postSucceeded: bool)

  /**
   * `upload_report`: a missing or empty file fails without a post;
   * otherwise the file is posted under the scan type of its base name.
   * `scanType` is the type it was posted under, None when it was not posted.
   */
  function UploadReport(file: ReportFile): (r: (bool, Option<string>))
    ensures r.1.Some? <==> file.present && file.size > 0
    ensures r.1.Some? ==> r.1.value == GetScanType(Basename(file.path))
    ensures r.0 <==> r.1.Some? && file.postSucceeded
  {
    if !file.present || file.size == 0 then (false, None)
    else (file.postSucceeded, Some(GetScanType(Basename(file.path))))
  }

  /** Only the exact base name `gl-dast-report.json` takes the ZAP handler. */
  predicate IsZapJsonReport(path: string) {
    Basename(path) == "gl-dast-report.json"
  }

  /** Whether the batch counts the file as a successful upload. */
  function FileSucceeds(file: ReportFile): bool {
    if IsZapJsonReport(file.path) then ZapHandlerSucceeds(file.zapReport, file.postSucceeded)
    else UploadReport(file).0
  }

  /** The success of each file, in file order. */
  function Outcomes(files: seq<ReportFile>): (outcomes: seq<bool>)
    ensures |outcomes| == |files|
    ensures forall i :: 0 <= i < |files| ==> outcomes[i] == FileSucceeds(files[i])
  {
    seq(|files|, i requires 0 <= i < |files| => FileSucceeds(files[i]))
  }

  /** The number of files that succeed. */
  function SuccessCount(files: seq<ReportFile>): nat {
    Count(Outcomes(files), true)
  }

  /** Some file succeeds exactly when the success count is positive. */
  lemma SuccessCountPositive(files: seq<ReportFile>)
    ensures SuccessCount(files) > 0 <==> exists i :: 0 <= i < |files| && FileSucceeds(files[i])
  {
    var outcomes := Outcomes(files);
    CountPositive(outcomes, true);
    if true in outcomes {
      var i :| 0 <= i < |outcomes| && outcomes[i];
      assert FileSucceeds(files[i]);
    }
  }

  /** The body of the batch loop: the ZAP handler or the plain upload, by file name. */
  method UploadOneReport(file: ReportFile) returns (ok: bool)
    ensures ok == FileSucceeds(file)
  {
    if IsZapJsonReport(file.path) {
      var posted;
      ok, posted := ProcessZapDastReport(file.zapReport, file.postSucceeded);
    } else {
      ok := UploadReport(file).0;
    }
  }

  /**
   * `upload_all_reports`: without a truthy product id and engagement id
   * it fails before touching any file; otherwise every file is counted
   * once, as a success or a failure, and the batch succeeds when at least
   * one file did.
   */
  method UploadAllReports(productId: Option<int>, engagementId: Option<int>, files: seq<ReportFile>)
    returns (success: bool, successful: nat, failed: nat)
    ensures !TruthyId(productId) || !TruthyId(engagementId) ==> !success && successful == 0 && failed == 0
    ensures TruthyId(productId) && TruthyId(engagementId) ==>
      && successful + failed == |files|
      && successful == SuccessCount(files)
      && success == (successful > 0)
  {
    if !TruthyId(productId) {
      return false, 0, 0;
    }
    if !TruthyId(engagementId) {
      return false, 0, 0;
    }
    ghost var outcomes := Outcomes(files);
    successful, failed := 0, 0;
    for i := 0 to |files|
      invariant successful + failed == i
      invariant successful == Count(outcomes[..i], true)
    {
      CountStep(outcomes, i, true);
      var ok := UploadOneReport(files[i]);
      if ok {
        successful := successful + 1;
      } else {
        failed := failed + 1;
      }
    }
    assert outcomes[..|files|] == outcomes;
    success := successful > 0;
  }

  // ---------------------------------------------------------------------
  // Engagement reuse
  // ---------------------------------------------------------------------

  /** An engagement from the search results: its id and its `target_start`. */
  datatype Engagement = Engagement(id: int, targetStart: string)

  /**
   * The scan loop of `create_engagement_if_not_exists`: the first
   * engagement, in result order, whose `target_start` begins with today's
   * date; None when none does.
   */
  method FindTodaysEngagement(engagements: seq<Engagement>, today: string) returns (found: Option<int>)
    ensures found.None? <==> forall i :: 0 <= i < |engagements| ==> !StartsWith(engagements[i].targetStart, today)
    ensures found.Some? ==>
      exists i :: 0 <= i < |engagements|
        && StartsWith(engagements[i].targetStart, today)
        && found.value == engagements[i].id
        && forall k :: 0 <= k < i ==> !StartsWith(engagements[k].targetStart, today)
  {
    for i := 0 to |engagements|
      invariant forall k :: 0 <= k < i ==> !StartsWith(engagements[k].targetStart, today)
    {
      if StartsWith(engagements[i].targetStart, today) {
        return Some(engagements[i].id);
      }
    }
    return None;
  }

  /**
   * `create_engagement_if_not_exists`: when the search answered (status
   * 200) and lists an engagement started today, the first such is reused;
   * otherwise the id the creation returned, None when it failed.
   */
  method CreateEngagementIfNotExists(searchOk: bool, engagements: seq<Engagement>, today: string, created: Option<int>)
    returns (engagementId: Option<int>, reused: bool)
    ensures reused <==> searchOk && exists i :: 0 <= i < |engagements| && StartsWith(engagements[i].targetStart, today)
    ensures !reused ==> engagementId == created
    ensures reused ==> engagementId.Some?
    ensures reused ==>
      exists i :: 0 <= i < |engagements|
        && StartsWith(engagements[i].targetStart, today)
        && engagementId.value == engagements[i].id
        && forall k :: 0 <= k < i ==> !StartsWith(engagements[k].targetStart, today)
  {
    if searchOk {
      var found := FindTodaysEngagement(engagements, today);
      if found.Some? {
        return found, true;
      }
    }
    return created, false;
  }
}
