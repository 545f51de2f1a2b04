/**
 * The findings layer of the DAST-specific DefectDojo uploader
 * (scripts/dast-defectdojo-enhanced.py): it turns every alert of the first
 * site of a ZAP JSON report into one enriched DefectDojo finding that keeps
 * all of the alert's instances, and tallies the findings it uploaded.
 */
module DastEnhanced {
  import opened Common
  import opened ZapJson

  // ---------------------------------------------------------------------
  // Classification
  // ---------------------------------------------------------------------

  /** This uploader moves every ZAP risk one level up. */
  const RiskMapping: map<string, Severity> :=
    map["High" := Critical, "Medium" := High, "Low" := Medium, "Informational" := Low]

  /** ZAP risk to DefectDojo severity; an unknown risk becomes Info. */
  function MapZapRiskToSeverity(zapRisk: string): (sev: Severity)
    ensures ZapRiskRank(zapRisk).Some? ==> SeverityRank(sev) == ZapRiskRank(zapRisk).value + 1
    ensures ZapRiskRank(zapRisk).None? ==> sev == Info
  {
    if zapRisk in RiskMapping then RiskMapping[zapRisk] else Info
  }

  /** WASC identifiers this uploader names. */
  const WascCategories: map<string, string> := map[
    "WASC-1" := "Path Traversal",
    "WASC-2" := "SQL Injection",
    "WASC-3" := "XSS",
    "WASC-4" := "Cross-Site Request Forgery",
    "WASC-5" := "Server-Side Include",
    "WASC-6" := "Session Hijacking",
    "WASC-7" := "Buffer Overflow",
    "WASC-8" := "Weak Authentication",
    "WASC-9" := "Transport Layer Security",
    "WASC-10" := "Insecure Cryptographic Storage",
    "WASC-11" := "Insufficient Authorization",
    "WASC-12" := "Denial of Service",
    "WASC-13" := "Improper Input Validation",
    "WASC-14" := "Information Leakage",
    "WASC-15" := "Broken Authentication",
    "WASC-16" := "Broken Access Control",
    "WASC-17" := "Server-Side Request Forgery",
    "WASC-18" := "XML External Entity",
    "WASC-19" := "Insecure Deserialization",
    "WASC-20" := "Security Misconfiguration"]

  /**
   * OWASP category of a reference: "Unknown" when it is empty, the table
   * name for a listed WASC identifier, and the reference itself otherwise
   * (the "Other" fallback of the source can never be chosen).
   */
  function ExtractOwaspCategory(reference: string): (cat: string)
    ensures cat != ""
    ensures cat == "Other" ==> reference == "Other"
    ensures cat == "Unknown" <==> reference == "" || reference == "Unknown"
    ensures reference != "" && reference !in WascCategories ==> cat == reference
    ensures reference in WascCategories ==> cat == WascCategories[reference] && cat != reference
  {
    if reference == "" then "Unknown"
    else if reference in WascCategories then WascCategories[reference]
    else reference
  }

  /**
   * Confidence inferred from the alert: the risk decides for High and
   * Medium alerts; otherwise having a plugin id gives Medium, else Low.
   */
  function DetermineConfidence(alert: Alert): (c: Confidence)
    ensures c == ConfidenceHigh <==> alert.risk == Some("High")
    ensures c == ConfidenceLow <==>
      alert.risk != Some("High") && alert.risk != Some("Medium") && !Truthy(alert.pluginid)
  {
    var risk := alert.risk.GetOr("Low");
    var pluginId := alert.pluginid.GetOr("");
    if risk == "High" then ConfidenceHigh
    else if risk == "Medium" then ConfidenceMedium
    else if pluginId != "" then ConfidenceMedium
    else ConfidenceLow
  }

  /** The sentence added to the impact of each known ZAP risk. */
  const ImpactTexts: map<string, string> := map[
    "High" := "This vulnerability poses a significant security risk and could lead to complete system compromise, data breach, or unauthorized access to sensitive information.",
    "Medium" := "This vulnerability could lead to unauthorized access to data or functionality, potentially compromising user privacy or system integrity.",
    "Low" := "This vulnerability represents a minor security issue that may provide limited information or access but poses minimal risk.",
    "Informational" := "This finding provides information about the application but does not represent an immediate security risk."]

  /**
   * The impact statement: the alert's riskdesc, followed, for each of the
   * four ZAP risks, by a blank line and the sentence for that risk. A
   * missing risk counts as Low.
   */
  function ImpactStatement(alert: Alert): (impact: string)
    ensures var base := alert.riskdesc.GetOr("");
      |base| <= |impact| && impact[..|base|] == base
    ensures var risk := alert.risk.GetOr("Low");
      ZapRiskRank(risk).Some? ==> impact == alert.riskdesc.GetOr("") + "\n\n" + ImpactTexts[risk]
    ensures impact == alert.riskdesc.GetOr("") <==> ZapRiskRank(alert.risk.GetOr("Low")).None?
  {
    var risk := alert.risk.GetOr("Low");
    var baseImpact := alert.riskdesc.GetOr("");
    var specific := if risk in ImpactTexts then ImpactTexts[risk] else "";
    if specific != "" then baseImpact + "\n\n" + specific else baseImpact
  }

  // ---------------------------------------------------------------------
  // Tags
  // ---------------------------------------------------------------------

  const FixedTags: seq<string> := ["dast", "zap", "automated", "dynamic-analysis"]

  function OwaspTag(category: string): string {
    "owasp-" + SpacesToHyphens(LowerAscii(category))
  }

  function RiskTag(risk: string): string {
    "risk-" + LowerAscii(risk)
  }

  function PluginTag(pluginId: string): string {
    "plugin-" + pluginId
  }

  predicate HasOwaspTag(category: string) {
    category != "" && category != "Unknown"
  }

  function Flag(b: bool): nat {
    if b then 1 else 0
  }

  function OptionalTag(present: bool, tag: string): seq<string> {
    if present then [tag] else []
  }

  /**
   * The finding's tags: the four fixed tags, then the OWASP tag when the
   * category is known, the risk tag when a risk is given and the plugin tag
   * when a plugin id is given, in that order.
   */
  function FindingTags(alert: Alert, category: string): (tags: seq<string>)
    ensures |tags| == 4 + Flag(HasOwaspTag(category)) + Flag(Truthy(alert.risk)) + Flag(Truthy(alert.pluginid))
    ensures 4 <= |tags| <= 7
    ensures tags[..4] == FixedTags
    ensures HasOwaspTag(category) ==> tags[4] == OwaspTag(category)
    ensures Truthy(alert.risk) ==> tags[4 + Flag(HasOwaspTag(category))] == RiskTag(alert.risk.value)
    ensures Truthy(alert.pluginid) ==> tags[|tags| - 1] == PluginTag(alert.pluginid.value)
  {
    var risk := alert.risk.GetOr("");
    var pluginId := alert.pluginid.GetOr("");
    FixedTags
      + OptionalTag(HasOwaspTag(category), OwaspTag(category))
      + OptionalTag(risk != "", RiskTag(risk))
      + OptionalTag(pluginId != "", PluginTag(pluginId))
  }

  /** Some tag of the list starts with the prefix. */
  predicate HasTagWithPrefix(tags: seq<string>, prefix: string) {
    exists i :: 0 <= i < |tags| && StartsWith(tags[i], prefix)
  }

  lemma HasTagWithPrefixAppend(a: seq<string>, b: seq<string>, prefix: string)
    ensures HasTagWithPrefix(a + b, prefix) <==> HasTagWithPrefix(a, prefix) || HasTagWithPrefix(b, prefix)
  {
    if HasTagWithPrefix(a + b, prefix) {
      var i :| 0 <= i < |a + b| && StartsWith((a + b)[i], prefix);
      if i >= |a| {
        assert b[i - |a|] == (a + b)[i];
      }
    }
    if HasTagWithPrefix(a, prefix) {
      var i :| 0 <= i < |a| && StartsWith(a[i], prefix);
      assert (a + b)[i] == a[i];
      assert StartsWith((a + b)[i], prefix);
    }
    if HasTagWithPrefix(b, prefix) {
      var i :| 0 <= i < |b| && StartsWith(b[i], prefix);
      assert (a + b)[|a| + i] == b[i];
      assert StartsWith((a + b)[|a| + i], prefix);
    }
  }

  /** An optional tag contributes the prefix exactly when it is present and carries it. */
  lemma OptionalTagPrefix(present: bool, tag: string, prefix: string)
    ensures HasTagWithPrefix(OptionalTag(present, tag), prefix) <==> present && StartsWith(tag, prefix)
  {
    if present {
      assert OptionalTag(present, tag)[0] == tag;
    }
  }

  /** A string cannot start with a prefix whose first character differs from its own. */
  lemma DifferentHead(t: string, prefix: string)
    requires prefix != [] && t != [] && t[0] != prefix[0]
    ensures !StartsWith(t, prefix)
  {
    if |prefix| <= |t| {
      assert t[..|prefix|][0] == t[0];
    }
  }

  /** For a prefix no fixed tag can start with, only the optional tags matter. */
  lemma TagsWithPrefix(alert: Alert, category: string, prefix: string)
    requires prefix != [] && prefix[0] !in "dza"
    ensures HasTagWithPrefix(FindingTags(alert, category), prefix) <==>
      || (HasOwaspTag(category) && StartsWith(OwaspTag(category), prefix))
      || (Truthy(alert.risk) && StartsWith(RiskTag(alert.risk.value), prefix))
      || (Truthy(alert.pluginid) && StartsWith(PluginTag(alert.pluginid.value), prefix))
  {
    var risk := alert.risk.GetOr("");
    var pluginId := alert.pluginid.GetOr("");
    var t1 := OptionalTag(HasOwaspTag(category), OwaspTag(category));
    var t2 := OptionalTag(risk != "", RiskTag(risk));
    var t3 := OptionalTag(pluginId != "", PluginTag(pluginId));
    forall i | 0 <= i < 4 ensures !StartsWith(FixedTags[i], prefix) {
      assert FixedTags[i] != [] && FixedTags[i][0] in "dza";
      DifferentHead(FixedTags[i], prefix);
    }
    HasTagWithPrefixAppend(FixedTags, t1, prefix);
    HasTagWithPrefixAppend(FixedTags + t1, t2, prefix);
    HasTagWithPrefixAppend(FixedTags + t1 + t2, t3, prefix);
    OptionalTagPrefix(HasOwaspTag(category), OwaspTag(category), prefix);
    OptionalTagPrefix(risk != "", RiskTag(risk), prefix);
    OptionalTagPrefix(pluginId != "", PluginTag(pluginId), prefix);
  }

  /** Each optional tag is present exactly when its condition holds. */
  lemma TagsPresence(alert: Alert, category: string)
    ensures HasTagWithPrefix(FindingTags(alert, category), "owasp-") <==> HasOwaspTag(category)
    ensures HasTagWithPrefix(FindingTags(alert, category), "risk-") <==> Truthy(alert.risk)
    ensures HasTagWithPrefix(FindingTags(alert, category), "plugin-") <==> Truthy(alert.pluginid)
  {
    var owasp := OwaspTag(category);
    var risk := RiskTag(alert.risk.GetOr(""));
    var plugin := PluginTag(alert.pluginid.GetOr(""));
    assert owasp[..6] == "owasp-" && risk[..5] == "risk-" && plugin[..7] == "plugin-";
    assert owasp[0] == 'o' && risk[0] == 'r' && plugin[0] == 'p';
    var prefixes := ["owasp-", "risk-", "plugin-"];
    forall j, t | 0 <= j < 3 && t in [owasp, risk, plugin] && t[0] != prefixes[j][0]
      ensures !StartsWith(t, prefixes[j])
    {
      DifferentHead(t, prefixes[j]);
    }
    assert prefixes[0] == "owasp-" && prefixes[1] == "risk-" && prefixes[2] == "plugin-";
    TagsWithPrefix(alert, category, "owasp-");
    TagsWithPrefix(alert, category, "risk-");
    TagsWithPrefix(alert, category, "plugin-");
  }

  /** The source's `_generate_finding_tags`: appends to a list. */
  method GenerateFindingTags(alert: Alert, category: string) returns (tags: seq<string>)
    ensures tags == FindingTags(alert, category)
  {
    tags := ["dast", "zap", "automated", "dynamic-analysis"];
    if category != "" && category != "Unknown" {
      tags := tags + ["owasp-" + SpacesToHyphens(LowerAscii(category))];
    }
    var risk := LowerAscii(alert.risk.GetOr(""));
    if risk != "" {
      tags := tags + ["risk-" + risk];
    }
    var pluginId := alert.pluginid.GetOr("");
    if pluginId != "" {
      tags := tags + ["plugin-" + pluginId];
    }
  }

  // ---------------------------------------------------------------------
  // Description
  // ---------------------------------------------------------------------

  const TechHeader: string := "\n\n**Technical Details:**\n"
  const ReferenceLabel: string := "\n\n**Reference:** "

  function Line(caption: string, field: Option<string>): seq<string> {
    if Truthy(field) then [caption + field.value] else []
  }

  /** The technical detail lines of an instance, in their fixed order. */
  function TechDetails(instance: Instance): (details: seq<string>)
    ensures |details| == Flag(Truthy(instance.httpMethod)) + Flag(Truthy(instance.param))
                         + Flag(Truthy(instance.attack)) + Flag(Truthy(instance.evidence))
    ensures Truthy(instance.httpMethod) ==> details[0] == "HTTP Method: " + instance.httpMethod.value
    ensures Truthy(instance.param) ==>
      details[Flag(Truthy(instance.httpMethod))] == "Parameter: " + instance.param.value
    ensures Truthy(instance.attack) ==>
      details[Flag(Truthy(instance.httpMethod)) + Flag(Truthy(instance.param))] == "Attack Pattern: " + instance.attack.value
    ensures Truthy(instance.evidence) ==> details[|details| - 1] == "Evidence: " + instance.evidence.value
  {
    Line("HTTP Method: ", instance.httpMethod) + Line("Parameter: ", instance.param)
      + Line("Attack Pattern: ", instance.attack) + Line("Evidence: ", instance.evidence)
  }

  /** One markdown bullet per detail line. */
  function Bullets(details: seq<string>): string {
    if details == [] then ""
    else Bullets(details[..|details| - 1]) + "- " + details[|details| - 1] + "\n"
  }

  /** The technical-details block: present only when there is some detail. */
  function TechBlock(instance: Instance): (block: string)
    ensures block == "" <==>
      !Truthy(instance.httpMethod) && !Truthy(instance.param) && !Truthy(instance.attack) && !Truthy(instance.evidence)
    ensures block != "" ==> |TechHeader| <= |block| && block[..|TechHeader|] == TechHeader
  {
    var details := TechDetails(instance);
    if details == [] then "" else TechHeader + Bullets(details)
  }

  /** The reference line: present only when the alert has a reference. */
  function ReferenceSuffix(alert: Alert): (suffix: string)
    ensures suffix == "" <==> !Truthy(alert.reference)
    ensures Truthy(alert.reference) ==> suffix == ReferenceLabel + alert.reference.value
  {
    if Truthy(alert.reference) then ReferenceLabel + alert.reference.value else ""
  }

  /** Where the three parts of a concatenation sit in it. */
  lemma ConcatParts<T>(a: seq<T>, b: seq<T>, c: seq<T>, k: nat)
    requires k <= |b|
    ensures (a + b + c)[..|a|] == a
    ensures (a + b + c)[|a|..|a| + k] == b[..k]
    ensures (a + b + c)[|a + b + c| - |c|..] == c
  {
  }

  /**
   * The enhanced description: the alert's desc, then the technical details
   * of the primary instance, then the reference.
   */
  function EnhancedDescription(alert: Alert, instance: Instance): (description: string)
    ensures description == alert.desc.GetOr("") + TechBlock(instance) + ReferenceSuffix(alert)
    ensures var base := alert.desc.GetOr("");
      |base| <= |description| && description[..|base|] == base
    ensures var base := alert.desc.GetOr(""); var block := TechBlock(instance);
      block != "" ==> |base| + |TechHeader| <= |description|
                      && description[|base|..|base| + |TechHeader|] == TechHeader
    ensures !Truthy(alert.reference) ==> description == alert.desc.GetOr("") + TechBlock(instance)
    ensures Truthy(alert.reference) ==>
      var suffix := ReferenceLabel + alert.reference.value;
      |suffix| <= |description| && description[|description| - |suffix|..] == suffix
  {
    var base := alert.desc.GetOr("");
    var block := TechBlock(instance);
    var suffix := ReferenceSuffix(alert);
    ConcatParts(base, block, suffix, if block == "" then 0 else |TechHeader|);
    base + block + suffix
  }


  /** The detail list of `_build_enhanced_description`, built by appending. */
  method CollectTechDetails(instance: Instance) returns (techDetails: seq<string>)
    ensures techDetails == TechDetails(instance)
  {
    techDetails := [];
    if Truthy(instance.httpMethod) {
      techDetails := techDetails + ["HTTP Method: " + instance.httpMethod.value];
    }
    if Truthy(instance.param) {
      techDetails := techDetails + ["Parameter: " + instance.param.value];
    }
    if Truthy(instance.attack) {
      techDetails := techDetails + ["Attack Pattern: " + instance.attack.value];
    }
    if Truthy(instance.evidence) {
      techDetails := techDetails + ["Evidence: " + instance.evidence.value];
    }
  }

  /** The loop of `_build_enhanced_description`: one `+=` per detail line. */
  method AppendDetailLines(start: string, techDetails: seq<string>) returns (description: string)
    ensures description == start + Bullets(techDetails)
  {
    description := start;
    for i := 0 to |techDetails|
      invariant description == start + Bullets(techDetails[..i])
    {
      assert techDetails[..i + 1][..i] == techDetails[..i];
      description := description + "- " + techDetails[i] + "\n";
    }
    assert techDetails[..|techDetails|] == techDetails;
  }

  /** The source's `_build_enhanced_description`. */
  method BuildEnhancedDescription(alert: Alert, instance: Instance) returns (description: string)
    ensures description == EnhancedDescription(alert, instance)
  {
    var baseDescription := alert.desc.GetOr("");
    var techDetails := CollectTechDetails(instance);
    description := baseDescription;
    if techDetails != [] {
      description := AppendDetailLines(description + TechHeader, techDetails);
    }
    assert description == baseDescription + TechBlock(instance);
    if Truthy(alert.reference) {
      description := description + ReferenceLabel + alert.reference.value;
    }
  }

  // ---------------------------------------------------------------------
  // URL details
  // ---------------------------------------------------------------------

  datatype UrlDetail = UrlDetail(url: string, httpMethod: string, parameter: string, attack: string, evidence: string)

  function UrlDetailOf(instance: Instance): UrlDetail {
    UrlDetail(instance.uri.GetOr(""), instance.httpMethod.GetOr(""), instance.param.GetOr(""),
              instance.attack.GetOr(""), instance.evidence.GetOr(""))
  }

  /** One URL detail per instance, in instance order; missing fields read as "". */
  function UrlDetails(instances: seq<Instance>): (urls: seq<UrlDetail>)
    ensures |urls| == |instances|
    ensures forall i :: 0 <= i < |instances| ==> urls[i] == UrlDetailOf(instances[i])
  {
    if instances == [] then []
    else UrlDetails(instances[..|instances| - 1]) + [UrlDetailOf(instances[|instances| - 1])]
  }

  /** The source's `_extract_url_details`: appends in a loop. */
  method ExtractUrlDetails(instances: seq<Instance>) returns (urls: seq<UrlDetail>)
    ensures urls == UrlDetails(instances)
  {
    urls := [];
    for i := 0 to |instances|
      invariant |urls| == i
      invariant forall k :: 0 <= k < i ==> urls[k] == UrlDetailOf(instances[k])
    {
      urls := urls + [UrlDetailOf(instances[i])];
    }
  }

  // ---------------------------------------------------------------------
  // Findings
  // ---------------------------------------------------------------------

  /** The fields of the finding dict that depend on the alert. */
  datatype DastFinding = DastFinding(
    title: string,
    description: string,
    severity: Severity,
    cwe: int,
    owasp: string,
    references: string,
    solution: string,
    impact: string,
    mitigationSteps: string,
    impactDetails: string,
    confidence: Confidence,
    mitigated: Option<bool>,   // the later duplicate key `'mitigated': None` wins
    urlsDetailed: seq<UrlDetail>,
    tags: seq<string>,
    date: string)

  /**
   * One finding per alert; None when the alert has no instance, or when its
   * cweid is given but not an integer (the handler swallows the error).
   * `date` is the wall-clock date the source stamps on every finding.
   */
  function CreateFinding(alert: Alert, date: string): (r: Option<DastFinding>)
    ensures r.None? <==> alert.instances == [] || CweUnparsable(alert)
    ensures r.Some? ==> var f := r.value;
      && (!Truthy(alert.cweid) ==> f.cwe == 0)
      && (Truthy(alert.cweid) ==> Some(f.cwe) == ParseInt(alert.cweid.value))
      && f.title == alert.name.GetOr("Unknown ZAP Finding")
      && f.severity == MapZapRiskToSeverity(alert.risk.GetOr("Low"))
      && f.description == EnhancedDescription(alert, alert.instances[0])
      && f.owasp == ExtractOwaspCategory(alert.reference.GetOr(""))
      && f.references == alert.reference.GetOr("")
      && f.solution == alert.solution.GetOr("") && f.mitigationSteps == f.solution
      && f.impact == ImpactStatement(alert)
      && f.impactDetails == alert.riskdesc.GetOr("")
      && f.confidence == DetermineConfidence(alert)
      && f.urlsDetailed == UrlDetails(alert.instances)
      && f.tags == FindingTags(alert, f.owasp)
      && f.mitigated == None
      && f.date == date
  {
    if alert.instances == [] then None
    else
      var primary := alert.instances[0];
      var category := ExtractOwaspCategory(alert.reference.GetOr(""));
      var cwe := if Truthy(alert.cweid) then ParseInt(alert.cweid.value) else Some(0);
      if cwe.None? then None
      else
        Some(DastFinding(
          title := alert.name.GetOr("Unknown ZAP Finding"),
          description := EnhancedDescription(alert, primary),
          severity := MapZapRiskToSeverity(alert.risk.GetOr("Low")),
          cwe := cwe.value,
          owasp := category,
          references := alert.reference.GetOr(""),
          solution := alert.solution.GetOr(""),
          impact := ImpactStatement(alert),
          mitigationSteps := alert.solution.GetOr(""),
          impactDetails := alert.riskdesc.GetOr(""),
          confidence := DetermineConfidence(alert),
          mitigated := None,
          urlsDetailed := UrlDetails(alert.instances),
          tags := FindingTags(alert, category),
          date := date))
  }

  /** A missing risk is read as Low, which moves up to Medium. */
  lemma MissingRiskGivesMedium(alert: Alert, date: string)
    requires alert.risk.None? && alert.instances != [] && !CweUnparsable(alert)
    ensures CreateFinding(alert, date).Some?
    ensures CreateFinding(alert, date).value.severity == Medium
  {
    assert ZapRiskRank("Low") == Some(1);
  }

  /** The findings of a list of alerts, in alert order, dropped alerts left out. */
  function DastFindings(alerts: seq<Alert>, date: string): seq<DastFinding> {
    FilterMap(alerts, (a: Alert) => CreateFinding(a, date))
  }

  /**
   * The source's `process_zap_dast_report`: None when the report could not
   * be read (modelled as `loaded == None`), otherwise the findings of the
   * first site's alerts, collected in a loop.
   */
  method ProcessZapDastReport(loaded: Option<Report>, date: string) returns (findings: Option<seq<DastFinding>>)
    ensures loaded.None? <==> findings.None?
    ensures loaded.Some? ==> findings.value == DastFindings(FirstSiteAlerts(loaded.value), date)
    ensures loaded.Some? ==> |findings.value| <= |FirstSiteAlerts(loaded.value)|
  {
    if loaded.None? {
      return None;
    }
    var alerts := FirstSiteAlerts(loaded.value);
    var convert := (a: Alert) => CreateFinding(a, date);
    var found: seq<DastFinding> := [];
    for i := 0 to |alerts|
      invariant found == FilterMap(alerts[..i], convert)
    {
      FilterMapStep(alerts, i, convert);
      var finding := CreateFinding(alerts[i], date);
      if finding.Some? {
        found := found + [finding.value];
      }
    }
    assert alerts[..|alerts|] == alerts;
    return Some(found);
  }

  // ---------------------------------------------------------------------
  // Upload summary
  // ---------------------------------------------------------------------

  /** The severity of each finding, in order: what the severity counter counts. */
  function Severities(findings: seq<DastFinding>): seq<Severity> {
    MapSeq(findings, (f: DastFinding) => f.severity)
  }

  /** The OWASP category of each finding, in order: what the category counter counts. */
  function Categories(findings: seq<DastFinding>): seq<string> {
    MapSeq(findings, (f: DastFinding) => f.owasp)
  }

  /**
   * The counters of `_display_upload_summary` (the logging is left out):
   * a tally per severity, all five present from the start, and a tally per
   * OWASP category seen; the severity tallies add up to the number of findings.
   */
  method DisplayUploadSummary(findings: seq<DastFinding>)
    returns (severityCount: map<Severity, nat>, owaspCount: map<string, nat>)
    ensures severityCount.Keys == AllSeverities
    ensures forall s :: s in severityCount ==> severityCount[s] == Count(Severities(findings), s)
    ensures severityCount[Critical] + severityCount[High] + severityCount[Medium]
            + severityCount[Low] + severityCount[Info] == |findings|
    ensures forall k :: k in owaspCount <==> k in Categories(findings)
    ensures forall k :: k in owaspCount ==> owaspCount[k] == Count(Categories(findings), k)
  {
    var sevs := Severities(findings);
    var cats := Categories(findings);
    severityCount := map[Critical := 0, High := 0, Medium := 0, Low := 0, Info := 0];
    owaspCount := map[];
    ZerosAreTally(severityCount, AllSeverities);
    ZerosAreTally(owaspCount, {});
    for i := 0 to |findings|
      invariant TallyOf(severityCount, sevs[..i], AllSeverities)
      invariant TallyOf(owaspCount, cats[..i], {})
    {
      TallyStep(severityCount, sevs, i, AllSeverities);
      severityCount := Bump(severityCount, findings[i].severity);
      TallyStep(owaspCount, cats, i, {});
      owaspCount := Bump(owaspCount, findings[i].owasp);
    }
    assert sevs[..|findings|] == sevs;
    assert cats[..|findings|] == cats;
    SeverityTallyTotals(severityCount, sevs);
  }
}
