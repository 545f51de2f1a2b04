/**
 * The ZAP JSON report as the two JSON uploaders read it: a list of sites,
 * each with a list of alerts, each alert with a list of instances. Every
 * string field is optional because the uploaders read it with `dict.get`
 * and supply their own default when the key is missing.
 */
module ZapJson {
  import opened Common

  /** One place where ZAP observed an alert. */
  datatype Instance = Instance(
    uri: Option<string>,
    httpMethod: Option<string>,
    param: Option<string>,
    attack: Option<string>,
    evidence: Option<string>,
    request: Option<string>,
    response: Option<string>)

  /** One ZAP alert; a missing `instances` key reads as the empty list. */
  datatype Alert = Alert(
    name: Option<string>,
    risk: Option<string>,
    desc: Option<string>,
    reference: Option<string>,
    cweid: Option<string>,
    solution: Option<string>,
    riskdesc: Option<string>,
    pluginid: Option<string>,
    instances: seq<Instance>)

  /** A scanned site; `name` is the `@name` attribute. */
  datatype Site = Site(name: Option<string>, alerts: seq<Alert>)

  /** The whole report; a missing `site` key reads as the empty list. */
  datatype Report = Report(sites: seq<Site>)

  /** Both JSON uploaders look at the first site only. */
  function FirstSiteAlerts(report: Report): seq<Alert> {
    if report.sites == [] then [] else report.sites[0].alerts
  }

  /** `alert.get('cweid')` is truthy but `int()` rejects it: the conversion raises. */
  predicate CweUnparsable(alert: Alert) {
    Truthy(alert.cweid) && ParseInt(alert.cweid.value).None?
  }
}
