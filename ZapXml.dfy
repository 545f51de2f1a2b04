/**
 * The ZAP XML uploader: an `alertitem` element becomes a DefectDojo
 * finding through a numeric risk code, a numeric confidence and an
 * alert-name lookup in an OWASP Top 10 2021 table; the findings of every
 * site are collected, tallied, and uploaded when there are any.
 *
 * The XML tree is not modelled: an alert is the record of the texts its
 * child elements hold (None when the element is missing or has no text).
 * What is modelled of the element API is whether the text reader can run
 * on it at all (see `ElementApi`).
 */
module ZapXml {
  import opened Common

  // ---------------------------------------------------------------------
  // Alert records
  // ---------------------------------------------------------------------

  /** The texts under the first `instance` element of an alert. */
  datatype XmlInstance = XmlInstance(
    uri: Option<string>,
    httpMethod: Option<string>,
    param: Option<string>,
    attack: Option<string>,
    evidence: Option<string>)

  /** The texts under one `alertitem` element, and its first instance if any. */
  datatype XmlAlert = XmlAlert(
    pluginid: Option<string>,
    name: Option<string>,
    riskcode: Option<string>,
    confidence: Option<string>,
    desc: Option<string>,
    solution: Option<string>,
    reference: Option<string>,
    cweid: Option<string>,
    wascid: Option<string>,
    instance: Option<XmlInstance>)

  /** A `site` element: its `name` attribute and its alert items, in document order. */
  datatype XmlSite = XmlSite(name: Option<string>, alerts: seq<XmlAlert>)

  /** `_get_xml_text` once the element is found: its text when non-empty, else the default. */
  function TextOr(text: Option<string>, default: string): (r: string)
    ensures Truthy(text) ==> r == text.value
    ensures !Truthy(text) ==> r == default
  {
    if Truthy(text) then text.value else default
  }

  // ---------------------------------------------------------------------
  // Classification tables
  // ---------------------------------------------------------------------

  /**
   * `_map_risk_code_to_level`: an integer code of 4 or more is High, 3 is
   * Medium, 2 is Low, any other integer is Informational, and a text that
   * is not an integer is Low.
   */
  function MapRiskCodeToLevel(riskCode: string): (level: string)
    ensures ParseInt(riskCode).None? ==> level == "Low"
    ensures ParseInt(riskCode).Some? ==>
      ZapRiskRank(level) == Some(ClampRank(ParseInt(riskCode).value - 1))
  {
    match ParseInt(riskCode)
    case None => "Low"
    case Some(code) =>
      if code >= 4 then "High"
      else if code == 3 then "Medium"
      else if code == 2 then "Low"
      else "Informational"
  }

  /** A rank pushed into ZAP's range 0..3. */
  function ClampRank(n: int): nat {
    if n < 0 then 0 else if n > 3 then 3 else n
  }

  /** `_map_confidence_to_level`: 4 or more is High, 3 is Medium, everything else Low. */
  function MapConfidenceToLevel(confidence: string): (c: Confidence)
    ensures c == ConfidenceHigh <==> ParseInt(confidence).Some? && ParseInt(confidence).value >= 4
    ensures c == ConfidenceMedium <==> ParseInt(confidence) == Some(3)
    ensures c == ConfidenceLow <==> ParseInt(confidence).None? || ParseInt(confidence).value < 3
  {
    match ParseInt(confidence)
    case None => ConfidenceLow
    case Some(conf) =>
      if conf >= 4 then ConfidenceHigh
      else if conf == 3 then ConfidenceMedium
      else ConfidenceLow
  }

  /**
   * The level of every integer code: ZAP's rank of the level is the code
   * minus one, held within 0..3. ZAP itself writes risk codes 0 to 3, so
   * its High (3) reads here as Medium and its Informational (0) and Low (1)
   * both read as Informational.
   */
  lemma RiskLevelOfCode(code: int)
    ensures ZapRiskRank(MapRiskCodeToLevel(IntText(code))) == Some(ClampRank(code - 1))
    ensures MapRiskCodeToLevel(IntText(code)) == "High" <==> code >= 4
  {
    ParseIntOfIntText(code);
  }

  /** The confidence of every integer code: only 4 and above is High, only 3 is Medium. */
  lemma ConfidenceOfCode(code: int)
    ensures MapConfidenceToLevel(IntText(code)) ==
      (if code >= 4 then ConfidenceHigh else if code == 3 then ConfidenceMedium else ConfidenceLow)
  {
    ParseIntOfIntText(code);
  }

  /** The uploader's `severity_mapping`: ZAP risk level to DefectDojo severity. */
  const SeverityMapping: map<string, Severity> := map[
    "High" := High,
    "Critical" := Critical,
    "Medium" := Medium,
    "Low" := Low,
    "Informational" := Info]

  /** `severity_mapping.get(level, 'Low')`. */
  function XmlSeverity(level: string): (sev: Severity)
    ensures level in SeverityMapping ==> sev == SeverityMapping[level]
    ensures level !in SeverityMapping ==> sev == Low
    ensures sev == Critical <==> level == "Critical"
  {
    if level in SeverityMapping then SeverityMapping[level] else Low
  }

  const BrokenAccessControl: string := "A01:2021-Broken Access Control"
  const Injection: string := "A03:2021-Injection"
  const InsecureDesign: string := "A04:2021-Insecure Design"
  const SecurityMisconfiguration: string := "A05:2021-Security Misconfiguration"
  const OutdatedComponents: string := "A06:2021-Vulnerable and Outdated Components"
  const AuthenticationFailures: string := "A07:2021-Identification and Authentication Failures"
  const IntegrityFailures: string := "A08:2021-Software and Data Integrity Failures"
  const LoggingFailures: string := "A09:2021-Security Logging and Monitoring Failures"
  const RequestForgery: string := "A10:2021-Server-Side Request Forgery"

  /** The OWASP Top 10 2021 categories the table can produce. */
  const OwaspCategories: set<string> := {
    BrokenAccessControl, Injection, InsecureDesign, SecurityMisconfiguration,
    OutdatedComponents, AuthenticationFailures, IntegrityFailures, LoggingFailures,
    RequestForgery}

  /** The uploader's `owasp_mapping`, keyed by the exact ZAP alert name. */
  const OwaspMapping: map<string, string> := map[
    "Cross Site Scripting" := BrokenAccessControl,
    "Cross Domain Script Inclusion" := BrokenAccessControl,
    "Absence of Anti-CSRF Tokens" := BrokenAccessControl,
    "CSP Scanner: Content Security Policy Not Implemented" := BrokenAccessControl,
    "Cookie without SameSite Attribute" := BrokenAccessControl,
    "SQL Injection" := Injection,
    "Command Injection" := Injection,
    "LDAP Injection" := Injection,
    "XPath Injection" := Injection,
    "Server Side Include" := Injection,
    "Insecure Design" := InsecureDesign,
    "X-Content-Type-Options header missing" := SecurityMisconfiguration,
    "X-Frame-Options header not set" := SecurityMisconfiguration,
    "Content Type Missing" := SecurityMisconfiguration,
    "Cookie without Secure Flag" := SecurityMisconfiguration,
    "Reverse Tabnabbing" := SecurityMisconfiguration,
    "Cookie without HttpOnly Flag" := SecurityMisconfiguration,
    "Outdated Component" := OutdatedComponents,
    "Vulnerable Component" := OutdatedComponents,
    "Authentication Bypass" := AuthenticationFailures,
    "Weak Authentication" := AuthenticationFailures,
    "Session Fixation" := AuthenticationFailures,
    "Software and Data Integrity Failures" := IntegrityFailures,
    "Insecure Deserialization" := IntegrityFailures,
    "Security Logging and Monitoring Failures" := LoggingFailures,
    "Server Side Request Forgery" := RequestForgery]

  /** `owasp_mapping.get(alert_name)`: an exact-match lookup, None when absent. */
  function OwaspTop10(alertName: string): (cat: Option<string>)
    ensures cat.Some? <==> alertName in OwaspMapping
    ensures cat.Some? ==> cat.value == OwaspMapping[alertName] && cat.value in OwaspCategories
  {
    if alertName in OwaspMapping then Some(OwaspMapping[alertName]) else None
  }

  // ---------------------------------------------------------------------
  // Findings
  // ---------------------------------------------------------------------

  /** `plugin_id`: an integer when the text is all digits, the text otherwise. */
  datatype PluginId = NumericId(n: nat) | TextId(text: string)

  /** The instance keys a finding carries only when the alert has an instance. */
  datatype Location = Location(param: string, attack: string, evidence: string, httpMethod: string)

  /** The fields of the finding dict that depend on the alert (the rest are constants). */
  datatype XmlFinding = XmlFinding(
    title: string,
    description: string,
    severity: Severity,
    cwe: Option<nat>,
    references: string,
    solution: string,
    impact: string,
    confidence: Confidence,
    owaspTop10: Option<string>,
    url: string,
    location: Option<Location>,
    pluginId: PluginId,
    wascId: Option<nat>)

  /** `int(x) if x and x.isdigit() else None`. */
  function DigitsOrNone(text: string): (r: Option<nat>)
    ensures r.Some? <==> IsDigits(text)
    ensures r.Some? ==> ParseInt(text) == Some(r.value as int)
  {
    if IsDigits(text) then Some(DigitsValue(text)) else None
  }

  /** `int(plugin_id) if plugin_id.isdigit() else plugin_id`. */
  function PluginIdOf(text: string): (id: PluginId)
    ensures id.NumericId? <==> IsDigits(text)
    ensures id.NumericId? ==> ParseInt(text) == Some(id.n as int)
    ensures id.TextId? ==> id.text == text
  {
    if IsDigits(text) then NumericId(DigitsValue(text)) else TextId(text)
  }

  /**
   * `_extract_finding_from_alert` with a working text reader: None unless
   * the alert has both a name and a plugin id; the url is the first
   * instance's uri, or the site name when there is no instance or no uri.
   */
  function ExtractXmlFinding(alert: XmlAlert, siteName: string): (r: Option<XmlFinding>)
    ensures r.None? <==> !Truthy(alert.name) || !Truthy(alert.pluginid)
    ensures r.Some? ==> var f := r.value;
      && f.title == alert.name.value
      && f.description != ""
      && (Truthy(alert.desc) ==> f.description == alert.desc.value)
      && (!Truthy(alert.desc) ==> f.description == alert.name.value)
      && f.severity == XmlSeverity(MapRiskCodeToLevel(TextOr(alert.riskcode, "")))
      && f.severity != Critical
      && f.impact == MapRiskCodeToLevel(TextOr(alert.riskcode, ""))
      && f.confidence == MapConfidenceToLevel(TextOr(alert.confidence, ""))
      && f.references == TextOr(alert.reference, "")
      && f.solution == TextOr(alert.solution, "")
      && f.owaspTop10 == OwaspTop10(alert.name.value)
      && f.pluginId == PluginIdOf(alert.pluginid.value)
      && f.cwe == DigitsOrNone(TextOr(alert.cweid, ""))
      && (f.cwe.Some? <==> Truthy(alert.cweid) && IsDigits(alert.cweid.value))
      && f.wascId == DigitsOrNone(TextOr(alert.wascid, ""))
      && (f.wascId.Some? <==> Truthy(alert.wascid) && IsDigits(alert.wascid.value))
      && (f.pluginId.NumericId? <==> IsDigits(alert.pluginid.value))
      && (f.owaspTop10.Some? <==> alert.name.value in OwaspMapping)
      && (f.location.Some? <==> alert.instance.Some?)
      && (alert.instance.None? ==> f.url == siteName)
      && (alert.instance.Some? && Truthy(alert.instance.value.uri) ==> f.url == alert.instance.value.uri.value)
      && (alert.instance.Some? && !Truthy(alert.instance.value.uri) ==> f.url == siteName)
      && (alert.instance.Some? ==> var i := alert.instance.value;
            f.location == Some(Location(TextOr(i.param, ""), TextOr(i.attack, ""),
                                        TextOr(i.evidence, ""), TextOr(i.httpMethod, ""))))
  {
    var pluginId := TextOr(alert.pluginid, "");
    var alertName := TextOr(alert.name, "");
    if alertName == "" || pluginId == "" then None
    else
      var riskLevel := MapRiskCodeToLevel(TextOr(alert.riskcode, ""));
      var description := TextOr(alert.desc, "");
      XmlSeverityNotCritical(TextOr(alert.riskcode, ""));
      Some(XmlFinding(
        title := alertName,
        description := if description != "" then description else alertName,
        severity := XmlSeverity(riskLevel),
        cwe := DigitsOrNone(TextOr(alert.cweid, "")),
        references := TextOr(alert.reference, ""),
        solution := TextOr(alert.solution, ""),
        impact := riskLevel,
        confidence := MapConfidenceToLevel(TextOr(alert.confidence, "")),
        owaspTop10 := OwaspTop10(alertName),
        url := match alert.instance
               case None => siteName
               case Some(instance) => TextOr(instance.uri, siteName),
        location := match alert.instance
                    case None => None
                    case Some(instance) =>
                      Some(Location(TextOr(instance.param, ""), TextOr(instance.attack, ""),
                                    TextOr(instance.evidence, ""), TextOr(instance.httpMethod, ""))),
        pluginId := PluginIdOf(pluginId),
        wascId := DigitsOrNone(TextOr(alert.wascid, ""))))
  }

  /** A risk level from a code is never Critical, and it keeps ZAP's rank (no shift up). */
  lemma XmlSeverityNotCritical(riskCode: string)
    ensures XmlSeverity(MapRiskCodeToLevel(riskCode)) != Critical
    ensures ZapRiskRank(MapRiskCodeToLevel(riskCode)) == Some(SeverityRank(XmlSeverity(MapRiskCodeToLevel(riskCode))))
  {
    var level := MapRiskCodeToLevel(riskCode);
    assert level in {"High", "Medium", "Low", "Informational"};
  }

  // ---------------------------------------------------------------------
  // The element API
  // ---------------------------------------------------------------------

  /**
   * The element objects the text reader receives. `_get_xml_text` reads
   * `element.nsmap`, which lxml elements have and the standard library's
   * `xml.etree.ElementTree` elements do not.
   */
  datatype ElementApi = StdlibElementTree | Lxml

  /** The uploader imports `xml.etree.ElementTree`. */
  const ImportedApi: ElementApi := StdlibElementTree

  /** Whether `_get_xml_text` raises `AttributeError` on every element. */
  predicate TextReaderRaises(api: ElementApi) {
    api.StdlibElementTree?
  }

  /**
   * `_extract_finding_from_alert` as it runs against an element API: when
   * the text reader raises, the handler turns the error into None.
   */
  function ExtractFinding(api: ElementApi, alert: XmlAlert, siteName: string): (r: Option<XmlFinding>)
    ensures TextReaderRaises(api) ==> r.None?
    ensures !TextReaderRaises(api) ==> r == ExtractXmlFinding(alert, siteName)
  {
    if TextReaderRaises(api) then None else ExtractXmlFinding(alert, siteName)
  }

  // ---------------------------------------------------------------------
  // Report parsing
  // ---------------------------------------------------------------------

  /** The findings of one site, in alert order, dropped alerts left out. */
  function SiteFindings(api: ElementApi, site: XmlSite): seq<XmlFinding> {
    FilterMap(site.alerts, (a: XmlAlert) => ExtractFinding(api, a, site.name.GetOr("")))
  }

  /** The findings of all sites, site after site. */
  function XmlFindings(api: ElementApi, sites: seq<XmlSite>): seq<XmlFinding> {
    if sites == [] then []
    else XmlFindings(api, sites[..|sites| - 1]) + SiteFindings(api, sites[|sites| - 1])
  }

  /** The inner loop of `parse_zap_xml_report`: the alerts of one site, in order. */
  method ExtractSiteFindings(api: ElementApi, site: XmlSite) returns (found: seq<XmlFinding>)
    ensures found == SiteFindings(api, site)
  {
    var siteName := site.name.GetOr("");
    var convert := (a: XmlAlert) => ExtractFinding(api, a, siteName);
    found := [];
    for j := 0 to |site.alerts|
      invariant found == FilterMap(site.alerts[..j], convert)
    {
      FilterMapStep(site.alerts, j, convert);
      var finding := ExtractFinding(api, site.alerts[j], siteName);
      if finding.Some? {
        found := found + [finding.value];
      }
    }
    assert site.alerts[..|site.alerts|] == site.alerts;
  }

  /**
   * `parse_zap_xml_report` after the tree is read: None when the file could
   * not be parsed (modelled as `parsed == None`), otherwise the findings of
   * every site, collected site by site.
   */
  method ParseZapXmlReport(api: ElementApi, parsed: Option<seq<XmlSite>>) returns (findings: Option<seq<XmlFinding>>)
    ensures findings.None? <==> parsed.None?
    ensures parsed.Some? ==> findings.value == XmlFindings(api, parsed.value)
  {
    if parsed.None? {
      return None;
    }
    var sites := parsed.value;
    var found: seq<XmlFinding> := [];
    for i := 0 to |sites|
      invariant found == XmlFindings(api, sites[..i])
    {
      var siteFindings := ExtractSiteFindings(api, sites[i]);
      found := found + siteFindings;
      assert sites[..i + 1][..i] == sites[..i];
    }
    assert sites[..|sites|] == sites;
    return Some(found);
  }

  /** Every finding has a title and a description, and its severity is never Critical. */
  lemma {:induction false} XmlFindingsWellFormed(api: ElementApi, sites: seq<XmlSite>)
    ensures forall f :: f in XmlFindings(api, sites) ==>
      f.title != "" && f.description != "" && f.severity != Critical
  {
    if sites != [] {
      var init := sites[..|sites| - 1];
      var site := sites[|sites| - 1];
      XmlFindingsWellFormed(api, init);
      var convert := (a: XmlAlert) => ExtractFinding(api, a, site.name.GetOr(""));
      forall f | f in SiteFindings(api, site)
        ensures f.title != "" && f.description != "" && f.severity != Critical
      {
        FilterMapSound(site.alerts, convert, f);
      }
    }
  }

  /**
   * With the element API the uploader imports, every alert is dropped:
   * whatever the report holds, the parse yields no finding at all.
   */
  lemma {:induction false} ImportedApiFindsNothing(sites: seq<XmlSite>)
    ensures XmlFindings(ImportedApi, sites) == []
  {
    if sites != [] {
      ImportedApiFindsNothing(sites[..|sites| - 1]);
      var site := sites[|sites| - 1];
      FilterMapEmpty(site.alerts, (a: XmlAlert) => ExtractFinding(ImportedApi, a, site.name.GetOr("")));
    }
  }

  /**
   * A concrete alert: a named SQL injection alert with a plugin id. The
   * uploader as imported drops it; a working text reader converts it.
   */
  lemma ImportedApiDropsNamedAlert()
    ensures var alert := XmlAlert(Some("40018"), Some("SQL Injection"), Some("3"), Some("2"), None, None, None,
                                  Some("89"), Some("19"), None);
      && ExtractFinding(ImportedApi, alert, "http://example") == None
      && ExtractXmlFinding(alert, "http://example").Some?
      && ExtractXmlFinding(alert, "http://example").value.title == "SQL Injection"
  {
  }

  /**
   * With a working text reader, a site whose alerts all have a name and a
   * plugin id yields one finding per alert, each the conversion of the
   * alert at the same position.
   */
  lemma SiteFindingsComplete(site: XmlSite)
    requires forall i :: 0 <= i < |site.alerts| ==> Truthy(site.alerts[i].name) && Truthy(site.alerts[i].pluginid)
    ensures |SiteFindings(Lxml, site)| == |site.alerts|
    ensures forall i :: 0 <= i < |site.alerts| ==>
      Some(SiteFindings(Lxml, site)[i]) == ExtractXmlFinding(site.alerts[i], site.name.GetOr(""))
  {
    FilterMapComplete(site.alerts, (a: XmlAlert) => ExtractFinding(Lxml, a, site.name.GetOr("")));
  }

  // ---------------------------------------------------------------------
  // Upload workflow
  // ---------------------------------------------------------------------

  /**
   * What `process_zap_xml_upload` did: its return value, whether it asked
   * the server for a product at all, whether it posted the findings, and
   * whether it wrote the upload summary.
   */
  datatype XmlRun = XmlRun(success: bool, serverContacted: bool, uploadPosted: bool, summaryWritten: bool)

  /**
   * `process_zap_xml_upload`, with the file checks, the product and
   * engagement lookups and the upload result as inputs: a missing or
   * empty file fails; no findings succeeds without contacting the server;
   * a falsy product or engagement id aborts; otherwise the upload result
   * is returned and a summary follows a successful upload.
   */
  function ProcessZapXmlUpload(fileExists: bool, fileSize: nat, findings: Option<seq<XmlFinding>>,
                               productId: Option<int>, engagementId: Option<int>, uploadSucceeded: bool): (run: XmlRun)
    ensures !fileExists || fileSize == 0 ==> !run.success && !run.serverContacted
    ensures run.serverContacted <==> fileExists && fileSize > 0 && findings.Some? && findings.value != []
    ensures run.uploadPosted <==> run.serverContacted && TruthyId(productId) && TruthyId(engagementId)
    ensures run.success <==>
      fileExists && fileSize > 0 && (!run.serverContacted || (run.uploadPosted && uploadSucceeded))
    ensures run.summaryWritten <==> run.uploadPosted && uploadSucceeded
  {
    if !fileExists || fileSize == 0 then XmlRun(false, false, false, false)
    else if findings.None? || findings.value == [] then XmlRun(true, false, false, false)
    else if !TruthyId(productId) || !TruthyId(engagementId) then XmlRun(false, true, false, false)
    else XmlRun(uploadSucceeded, true, true, uploadSucceeded)
  }

  /**
   * The consequence for the uploader as imported: a non-empty report that
   * parses is reported as a success, yet the server is never contacted
   * and nothing is uploaded.
   */
  lemma ImportedApiUploadsNothing(fileSize: nat, sites: seq<XmlSite>,
                                  productId: Option<int>, engagementId: Option<int>, uploadSucceeded: bool)
    requires fileSize > 0
    ensures var run := ProcessZapXmlUpload(true, fileSize, Some(XmlFindings(ImportedApi, sites)),
                                           productId, engagementId, uploadSucceeded);
      run.success && !run.serverContacted && !run.uploadPosted
  {
    ImportedApiFindsNothing(sites);
  }

  // ---------------------------------------------------------------------
  // Upload summary
  // ---------------------------------------------------------------------

  /** The severity of each finding, in order: what the severity counter counts. */
  function XmlSeverities(findings: seq<XmlFinding>): seq<Severity> {
    MapSeq(findings, (f: XmlFinding) => f.severity)
  }

  /** A finding's OWASP category when it has a non-empty one. */
  function CategoryOf(f: XmlFinding): (cat: Option<string>)
    ensures cat.Some? <==> Truthy(f.owaspTop10)
    ensures cat.Some? ==> cat == f.owaspTop10
  {
    if Truthy(f.owaspTop10) then f.owaspTop10 else None
  }

  /** The categories the summary counts: findings without one are skipped. */
  function PresentCategories(findings: seq<XmlFinding>): seq<string> {
    FilterMap(findings, CategoryOf)
  }

  /** The OWASP step of the counting loop: only a finding with a category is counted. */
  lemma OwaspTallyStep(m: map<string, nat>, findings: seq<XmlFinding>, i: nat)
    requires i < |findings| && TallyOf(m, PresentCategories(findings[..i]), {})
    ensures var cat := findings[i].owaspTop10;
      TallyOf(if Truthy(cat) then Bump(m, cat.value) else m, PresentCategories(findings[..i + 1]), {})
  {
    FilterMapStep(findings, i, CategoryOf);
    var cat := findings[i].owaspTop10;
    if Truthy(cat) {
      assert CategoryOf(findings[i]) == Some(cat.value);
      assert PresentCategories(findings[..i + 1]) == PresentCategories(findings[..i]) + [cat.value];
      BumpKeepsTally(m, PresentCategories(findings[..i]), {}, cat.value);
    } else {
      assert PresentCategories(findings[..i + 1]) == PresentCategories(findings[..i]);
    }
  }

  /**
   * The counters of `_generate_upload_summary` (the printing and the
   * summary file are left out): a tally per severity over all five, and a
   * tally per OWASP category over the findings that have one.
   */
  method GenerateUploadSummary(findings: seq<XmlFinding>)
    returns (severityCounts: map<Severity, nat>, owaspCounts: map<string, nat>)
    ensures severityCounts.Keys == AllSeverities
    ensures forall s :: s in severityCounts ==> severityCounts[s] == Count(XmlSeverities(findings), s)
    ensures severityCounts[Critical] + severityCounts[High] + severityCounts[Medium]
            + severityCounts[Low] + severityCounts[Info] == |findings|
    ensures forall k :: k in owaspCounts <==> k in PresentCategories(findings)
    ensures forall k :: k in owaspCounts ==> owaspCounts[k] == Count(PresentCategories(findings), k)
  {
    var sevs := XmlSeverities(findings);
    severityCounts := map[Critical := 0, High := 0, Medium := 0, Low := 0, Info := 0];
    owaspCounts := map[];
    ZerosAreTally(severityCounts, AllSeverities);
    ZerosAreTally(owaspCounts, {});
    for i := 0 to |findings|
      invariant TallyOf(severityCounts, sevs[..i], AllSeverities)
      invariant TallyOf(owaspCounts, PresentCategories(findings[..i]), {})
    {
      TallyStep(severityCounts, sevs, i, AllSeverities);
      severityCounts := Bump(severityCounts, findings[i].severity);
      var owaspCat := findings[i].owaspTop10;
      OwaspTallyStep(owaspCounts, findings, i);
      if Truthy(owaspCat) {
        owaspCounts := Bump(owaspCounts, owaspCat.value);
      }
    }
    assert sevs[..|findings|] == sevs;
    assert findings[..|findings|] == findings;
    SeverityTallyTotals(severityCounts, sevs);
  }
}
