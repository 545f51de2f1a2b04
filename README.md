# DefectDojo uploaders: findings normalisation and classification

Three Python scripts take the report an OWASP ZAP scan produces and send
its alerts to DefectDojo as findings. This project models, in Dafny, the
part of those scripts that decides what a finding is:

- **`dast-defectdojo-enhanced.py`** (module `DastEnhanced`) reads the ZAP JSON
  report. It turns every alert of the first site into one finding, except
  an alert with no instances and an alert whose cweid is given but is not
  an integer; those two are dropped. The finding has:
  - a severity one level above ZAP's risk;
  - an OWASP category taken from the WASC reference;
  - an enhanced description (the alert text, a technical-details block and
    the reference);
  - an impact statement;
  - an inferred confidence;
  - one URL record per instance;
  - a tag list.

  The upload summary counts findings per severity and per category.
- **`zap-xml-defectdojo-uploader.py`** (module `ZapXml`) reads the ZAP XML
  report. An alert item becomes a finding through a numeric risk code, a
  numeric confidence and an OWASP Top 10 2021 table keyed by alert name. The
  findings of every site are collected, tallied and uploaded when there are
  any.
- **`upload-reports-enhanced.py`** (module `UploadReports`) posts a batch of
  report files under the scan type their file name selects. The ZAP JSON
  report is first converted to findings, built from each alert's first
  instance. The batch needs a product and an engagement, and reuses an
  engagement started today.

Shared vocabulary lives in `Common`:
- optional values, for a key `dict.get` may not find;
- Python truthiness;
- the five DefectDojo severities;
- `int()`, `str.isdigit()`, `str.strip()`, `str.lower()` (ASCII only) and
  `os.path.basename`;
- counting, and filtered conversion in input order.

`ZapJson` holds the JSON report's records.

The code that changes things step by step is written as Dafny methods with
loops, each proved equal to a specification function. These are:
- the alert loops;
- the append loops that build descriptions, tags and URL lists;
- the tally loops;
- the batch counters;
- the engagement scan.

Lemmas then state what the sources promise about those functions.

HTTP responses, file-system answers, the clock and the environment are
parameters. Examples:
- "was the post answered with 201";
- the list the engagement search returned;
- the report as loaded, or None when loading failed;
- today's date.

Two facts the proofs bring out about the sources:
- Of the three risk-to-severity maps, two agree and one does not.
  - The XML uploader's map agrees with the batch uploader's on every string
    (`UploadReports.XmlSeverityMapAgrees`).
  - The enhanced DAST uploader raises every ZAP risk one level above the
    other two, and maps an unknown risk to Info where they give Low
    (`UploadReports.SeverityMapsDisagree`).
- The two alert-name to OWASP Top 10 tables disagree on four names. The
  batch uploader files cross-site scripting under Injection. It files the
  SameSite cookie, CSP and cross-domain script alerts under Security
  Misconfiguration. The XML uploader files all four under Broken Access
  Control (`UploadReports.OwaspMappingsDisagree`).
- The XML uploader treats a risk code of 4 or more as High and 3 as Medium
  (`ZapXml.RiskLevelOfCode`). ZAP itself writes codes 0 to 3, so a ZAP High
  alert arrives there as Medium. The model keeps the code's behaviour.

## Model

| member | source | states |
|---|---|---|
| DastEnhanced.MapZapRiskToSeverity | scripts/dast-defectdojo-enhanced.py:153-161 | a known ZAP risk moves up exactly one severity rank (High to Critical … Informational to Low); any other string gives Info |
| DastEnhanced.ExtractOwaspCategory | scripts/dast-defectdojo-enhanced.py:163-192 | an empty reference gives "Unknown"; WASC-1…WASC-20 give their table name; any other reference comes back unchanged; the result is never empty, and "Other" comes back only for the reference "Other" |
| DastEnhanced.DetermineConfidence | scripts/dast-defectdojo-enhanced.py:406-419 | High exactly when the risk is High; Low exactly when the risk is neither High nor Medium and there is no plugin id; Medium otherwise |
| DastEnhanced.ImpactStatement | scripts/dast-defectdojo-enhanced.py:370-388 | the statement starts with riskdesc; for the four known risks (a missing risk counts as Low) it is riskdesc, a blank line and that risk's sentence; it equals riskdesc exactly when the risk is unknown |
| DastEnhanced.FindingTags | scripts/dast-defectdojo-enhanced.py:421-439 | the four fixed tags come first; the OWASP, risk and plugin tags follow in that order; the length is 4 plus one per optional tag, so between 4 and 7 |
| DastEnhanced.TagsPresence | scripts/dast-defectdojo-enhanced.py:425-437 | an owasp- tag is present iff the category is non-empty and not "Unknown"; a risk- tag iff a non-empty risk is given; a plugin- tag iff a non-empty plugin id is given |
| DastEnhanced.TagsWithPrefix | scripts/dast-defectdojo-enhanced.py:423-437 | for a prefix no fixed tag can start with, a tag with that prefix exists iff one of the three optional tags is present and starts with it |
| DastEnhanced.GenerateFindingTags | scripts/dast-defectdojo-enhanced.py:421-439 | the appending method builds exactly FindingTags |
| DastEnhanced.TechDetails | scripts/dast-defectdojo-enhanced.py:342-354 | one line per non-empty method, param, attack or evidence, in that order: each present line sits at the position given by how many of the earlier fields are present |
| DastEnhanced.TechBlock | scripts/dast-defectdojo-enhanced.py:359-362 | the Technical Details block is empty iff method, param, attack and evidence are all empty; otherwise it starts with its header |
| DastEnhanced.ReferenceSuffix | scripts/dast-defectdojo-enhanced.py:365-366 | the Reference suffix is present iff the reference is non-empty, and then carries the reference |
| DastEnhanced.EnhancedDescription | scripts/dast-defectdojo-enhanced.py:337-368 | the description is desc, then the Technical Details block (present iff some detail is non-empty), then the Reference suffix (present iff the reference is non-empty) |
| DastEnhanced.CollectTechDetails | scripts/dast-defectdojo-enhanced.py:342-354 | the appending code builds exactly TechDetails |
| DastEnhanced.AppendDetailLines | scripts/dast-defectdojo-enhanced.py:359-362 | the `+=` loop appends one "- " bullet line per detail, in order |
| DastEnhanced.BuildEnhancedDescription | scripts/dast-defectdojo-enhanced.py:337-368 | the imperative builder yields exactly EnhancedDescription |
| DastEnhanced.UrlDetails | scripts/dast-defectdojo-enhanced.py:390-404 | exactly one URL record per instance, in instance order, with absent fields read as "" |
| DastEnhanced.ExtractUrlDetails | scripts/dast-defectdojo-enhanced.py:390-404 | the append loop builds exactly UrlDetails |
| DastEnhanced.CreateFinding | scripts/dast-defectdojo-enhanced.py:270-335 | no finding iff the alert has no instances or a given cweid is not an integer; a missing cweid gives cwe 0; the severity is the mapped risk, read as Low when missing; the description comes from the first instance; the category, impact, confidence, tags and URL records are those of the functions above; `mitigated` is None (the later duplicate key) |
| DastEnhanced.MissingRiskGivesMedium | scripts/dast-defectdojo-enhanced.py:298 | an alert without a risk, with instances and a parsable cweid, yields a finding of severity Medium (the Low default moved up one level) |
| DastEnhanced.ProcessZapDastReport | scripts/dast-defectdojo-enhanced.py:194-239 | None iff the report could not be loaded; otherwise the findings of the first site's alerts, in alert order, at most one per alert |
| DastEnhanced.DisplayUploadSummary | scripts/dast-defectdojo-enhanced.py:491-508 | the severity counter has exactly the five severities, each counting its findings, and they add up to the number of findings; the category counter has one key per category seen, each counting its findings |
| ZapXml.MapRiskCodeToLevel | scripts/zap-xml-defectdojo-uploader.py:245-258 | a text that is not an integer gives Low; an integer code gives the level whose ZAP rank is the code minus one, held within 0..3 |
| ZapXml.RiskLevelOfCode | scripts/zap-xml-defectdojo-uploader.py:245-258 | for every integer code: the level's rank is code minus one clamped to 0..3, and the level is High iff the code is at least 4 |
| ZapXml.MapConfidenceToLevel | scripts/zap-xml-defectdojo-uploader.py:260-273 | High iff an integer of at least 4; Medium iff exactly 3; Low iff not an integer or below 3 |
| ZapXml.ConfidenceOfCode | scripts/zap-xml-defectdojo-uploader.py:260-273 | for every integer code: 4 and above High, 3 Medium, everything else (2, 1, negatives) Low |
| ZapXml.XmlSeverity | scripts/zap-xml-defectdojo-uploader.py:85-91 | the table's severity for a listed level, Low otherwise; Critical only for the level "Critical" |
| ZapXml.XmlSeverityNotCritical | scripts/zap-xml-defectdojo-uploader.py:160-161 | the severity of any risk code is never Critical, and has the same rank as the ZAP level (no shift) |
| ZapXml.OwaspTop10 | scripts/zap-xml-defectdojo-uploader.py:38-82 | an exact-match lookup on the alert name, None when absent; every value is an OWASP Top 10 2021 category |
| ZapXml.DigitsOrNone | scripts/zap-xml-defectdojo-uploader.py:171 | an integer iff the text is all digits, and then the value `int()` reads |
| ZapXml.PluginIdOf | scripts/zap-xml-defectdojo-uploader.py:192 | an integer iff the text is all digits, and then the value `int()` reads; otherwise the text itself |
| ZapXml.ExtractXmlFinding | scripts/zap-xml-defectdojo-uploader.py:142-234 | no finding iff the name or the plugin id is empty; description is desc, or the name when desc is empty; severity is the table's entry for the mapped risk level, so never Critical; impact is that level and confidence the mapped confidence; cwe and WASC id only when all digits; the OWASP category iff the name is in the table; instance keys iff there is an instance; the url is the site name without an instance, otherwise the uri, or the site name when the uri is empty |
| ZapXml.ExtractFinding | scripts/zap-xml-defectdojo-uploader.py:236-243 | against an element API without `nsmap`, every alert yields None (the error is swallowed); otherwise the finding is ExtractXmlFinding |
| ZapXml.ExtractSiteFindings | scripts/zap-xml-defectdojo-uploader.py:124-130 | the inner loop collects the findings of one site's alerts, in order, dropped alerts left out |
| ZapXml.ParseZapXmlReport | scripts/zap-xml-defectdojo-uploader.py:98-140 | None iff the file could not be parsed; otherwise the findings of every site, site after site |
| ZapXml.XmlFindingsWellFormed | scripts/zap-xml-defectdojo-uploader.py:156-169 | every finding of a report has a non-empty title and description and a severity other than Critical |
| ZapXml.SiteFindingsComplete | scripts/zap-xml-defectdojo-uploader.py:127-130 | with a working text reader, a site whose alerts all have a name and a plugin id yields one finding per alert, in order |
| ZapXml.ImportedApiFindsNothing | scripts/zap-xml-defectdojo-uploader.py:242 | with the ElementTree elements the script imports, every report parses to no finding |
| ZapXml.ImportedApiDropsNamedAlert | scripts/zap-xml-defectdojo-uploader.py:236-242 | a named alert with a plugin id is dropped by the script as written, yet converted by a working text reader |
| ZapXml.ProcessZapXmlUpload | scripts/zap-xml-defectdojo-uploader.py:394-441 | a missing or empty file fails without contacting the server; no findings succeeds without contacting the server; the upload is posted iff there are findings and truthy product and engagement ids; success otherwise is the upload's result; the summary is written iff the upload succeeded |
| ZapXml.ImportedApiUploadsNothing | scripts/zap-xml-defectdojo-uploader.py:410-414 | for the script as written, any non-empty report that parses is reported as a success while the server is never contacted |
| ZapXml.OwaspTallyStep | scripts/zap-xml-defectdojo-uploader.py:454-456 | one loop step keeps the category counter exact: only findings with a category are counted |
| ZapXml.GenerateUploadSummary | scripts/zap-xml-defectdojo-uploader.py:443-456 | the severity counter has exactly the five severities, each counting its findings, and they add up to the number of findings; the category counter counts exactly the findings with a category |
| UploadReports.GetScanType | scripts/upload-reports-enhanced.py:90-106 | a listed file name gives its table entry; "Generic Findings Import" is returned iff the name is not among the 12 listed |
| UploadReports.MapZapRiskToSeverity | scripts/upload-reports-enhanced.py:180-189 | the four ZAP risks keep their rank (Informational to Info); Critical iff the risk is "Critical"; anything else is Low |
| UploadReports.GetOwaspMapping | scripts/upload-reports-enhanced.py:191-205 | an exact-match lookup over the 10-entry table, None when absent; every category it gives is A01, A03 or A05 of 2021 |
| UploadReports.OwaspMappingsDisagree | scripts/upload-reports-enhanced.py:191-205 | every name this table lists is in the XML uploader's table; the two agree on all of them except cross-site scripting, the SameSite cookie, the CSP and the cross-domain script alerts, which the XML table files under Broken Access Control |
| UploadReports.SeverityMapsDisagree | scripts/upload-reports-enhanced.py:180-189 | for every ZAP risk, the enhanced DAST uploader's severity is one rank higher than this one's; an unknown risk is Info there and Low here |
| UploadReports.XmlSeverityMapAgrees | scripts/upload-reports-enhanced.py:180-189 | the XML uploader's severity lookup equals this uploader's on every string |
| UploadReports.ConvertAlert | scripts/upload-reports-enhanced.py:124-163 | skipped iff the alert has no instances; raises iff it has instances and a given cweid is not an integer; otherwise the severity is the mapped risk (Low when missing), the impact the risk itself, the OWASP category the name's table entry, cwe is `int(cweid)` or None, `mitigated` is False, the url is the site name; title, description, references and solution come from the alert, and param, attack, evidence, request and response from its first instance |
| UploadReports.ConvertZapReport | scripts/upload-reports-enhanced.py:117-165 | the loop, which stops at the first alert that raises, yields None iff some alert raises, otherwise the findings of the first site's alerts with instances, in order |
| UploadReports.OneFindingPerAlert | scripts/upload-reports-enhanced.py:124-165 | when every alert has instances and parses, there is exactly one finding per alert, each converted from the alert at the same position |
| UploadReports.AlertsWithoutInstancesYieldNothing | scripts/upload-reports-enhanced.py:126-127 | alerts without instances produce no finding |
| UploadReports.ProcessZapDastReport | scripts/upload-reports-enhanced.py:108-178 | fails when the report cannot be loaded or an alert raises; succeeds without an upload when there are no findings; otherwise posts exactly the converted findings and returns the upload's result |
| UploadReports.UploadReport | scripts/upload-reports-enhanced.py:247-293 | a missing or empty file fails without a post; otherwise it is posted under the scan type of its base name, and succeeds iff the post does |
| UploadReports.UploadOneReport | scripts/upload-reports-enhanced.py:317-330 | only the exact base name gl-dast-report.json takes the ZAP handler; every other file takes the plain upload |
| UploadReports.SuccessCountPositive | scripts/upload-reports-enhanced.py:337 | the success count is positive iff some file succeeds |
| UploadReports.UploadAllReports | scripts/upload-reports-enhanced.py:295-337 | without a truthy product or engagement id, it fails with no file touched; otherwise successes plus failures equal the number of files, successes count the files that succeed, and the batch succeeds iff one did |
| UploadReports.FindTodaysEngagement | scripts/upload-reports-enhanced.py:59-65 | the id of the first engagement, in result order, whose target_start starts with today's date; None iff none does |
| UploadReports.CreateEngagementIfNotExists | scripts/upload-reports-enhanced.py:52-88 | reuse happens iff the search answered and some engagement started today, and then the first such is chosen; otherwise the created id (None when creation failed) |

## Left out

- HTTP traffic is not modelled. This covers:
  - the product searches and creations in all three scripts;
  - the engagement searches and creations, apart from the reuse rule;
  - `upload_findings`, `upload_zap_xml_findings`, `upload_zap_findings` and
    the post in `upload_report`;
  - the DAST test-type lookup.

  Only their outcomes enter the model: ids, 201 or not, and search result
  lists.
- File I/O is not modelled: `open`/`json.load`, `os.path.exists`/`getsize`,
  and the summary JSON file the XML uploader writes. A report that failed to
  load is None; existence and size are inputs.
  - In `process_zap_xml_upload`, `getsize` runs before the existence check.
    For a missing file this raises, the error is caught, and the result is
    False. That is the same outcome the model gives.
- XML tree traversal is not modelled: `ET.parse`, `findall`, the namespace
  taken from the root tag, and which descendant `.//` finds. An alert item is
  the record of the texts its lookups return. Only the presence of
  `element.nsmap` on the element API is kept, because it decides every
  lookup.
- Wall clock and environment are parameters: `datetime.now()`, `os.getenv`,
  and engagement and product names. The finding `date` and today's date are
  inputs.
- The JSON uploader's `_extract_scan_metadata` and the upload envelope are
  not modelled: scan type, scan date, flags and `scan_metadata`.
  - `DastEnhanced.ProcessZapDastReport` returns only the findings list of
    the upload data it builds.
- Finding-dict fields that are constants are not modelled. Examples are
  `false_positive`, `finding_type`, `active`, the fixed tag lists of the XML
  and batch uploaders, and `found_by`.
- Logging, `print` and emoji output are not modelled, nor are the sorted
  top-5 category listing and `main`/argv handling.
- `scripts/upload-reports.py` is not modelled. Its four-way file-name chain
  is a subset of `GetScanType`.
- The scan orchestration (engine lifecycle, phase polling, policy
  thresholds) is not part of this model.
- `str.lower`, `str.strip` and `str.isdigit` are restricted to ASCII.
  - `int()` is modelled on ASCII digits with an optional sign and
    surrounding ASCII whitespace. Underscore separators and non-ASCII digits
    are not modelled.
- JSON `null` values, a non-list `site` value, and JSON numbers where ZAP
  writes strings (a numeric `cweid`) are not modelled. An absent key is None.

## Findings

| source | as written | input that shows it | evidently intended | confidence | as-written member | corrected member |
|---|---|---|---|---|---|---|
| scripts/zap-xml-defectdojo-uploader.py:242 | `_get_xml_text` reads `element.nsmap`, an attribute only lxml elements have, while the script parses with the standard library's `xml.etree.ElementTree` (line 20). The `AttributeError` is caught at line 236, so every alert yields None, and `process_zap_xml_upload` returns True without uploading anything | a report with one site holding one alert item with name "SQL Injection" and plugin id "40018" | each alert item with a name and a plugin id becomes a finding and the findings are uploaded | high (not executed) | ZapXml.ImportedApiFindsNothing | ZapXml.ExtractXmlFinding |
