/** The URL analysis component: submit the URL, then fetch the analysis once
    by the id the submission returned. There is no polling. */
module UrlAnalysis {
  import opened Js
  import opened Http
  import opened Palette
  import VtUrlRoute
  import VtAnalysisRoute

  const AnalyzeFailedMessage := "Failed to analyze URL"

  /** The part of a URL analysis the component shows. */
  datatype UrlReport = UrlReport(url: string, status: string, date: int, malicious: int, suspicious: int)

  datatype View = View(url: string, loading: bool, result: Option<UrlReport>, error: Option<string>)

  /** The state after `analyzeUrl`, and the ids the analysis was fetched by. */
  datatype Analysis = Analysis(view: View, fetched: seq<string>)

  /** `analyzeUrl`: clear the error (but not the previous result), submit, then
      fetch once with the returned id. A failure of either call records the
      error and keeps the previous result. Loading ends either way. */
  function AnalyzeUrl(v: View, submit: Settled<string>, fetch: Settled<UrlReport>): (a: Analysis)
    ensures !a.view.loading && a.view.url == v.url
    ensures |a.fetched| <= 1
    ensures a.fetched == (if submit.Resolved? then [submit.value] else [])
    ensures submit.Resolved? && fetch.Resolved? ==> a.view.result == Some(fetch.value) && a.view.error.None?
    ensures !(submit.Resolved? && fetch.Resolved?) ==> a.view.result == v.result && a.view.error == Some(AnalyzeFailedMessage)
  {
    var started := v.(loading := true, error := None);
    match submit
    case Rejected(_) => Analysis(started.(error := Some(AnalyzeFailedMessage), loading := false), [])
    case Resolved(id) =>
      match fetch
      case Resolved(report) => Analysis(started.(result := Some(report), loading := false), [id])
      case Rejected(_) => Analysis(started.(error := Some(AnalyzeFailedMessage), loading := false), [id])
  }

  /** `getCategoryColor`: the badge colour of a verdict card. */
  function CategoryColor(category: string): (cls: string)
    ensures cls == BadgeClass(VerdictHue(category))
  {
    match category
    case "malicious" => "bg-red-100 text-red-800"
    case "harmless" => "bg-green-100 text-green-800"
    case "suspicious" => "bg-yellow-100 text-yellow-800"
    case _ => "bg-gray-100 text-gray-800"
  }

  /** Two different coloured verdicts never share a badge colour, and every
      other category shares the gray one. */
  lemma VerdictBadgesDiffer(c1: string, c2: string)
    requires c1 in ColouredVerdicts && c1 != c2
    ensures CategoryColor(c1) != CategoryColor(c2)
  {
    ClassesDistinguishHues(VerdictHue(c1), VerdictHue(c2));
  }

  /** One verdict card: its key, the provider's count and its colour. */
  datatype Card = Card(key: string, count: int, colour: string)

  /** The two cards shown, malicious then suspicious, with the provider's counts. */
  function Cards(r: UrlReport): (cards: seq<Card>)
    ensures |cards| == 2
    ensures cards[0] == Card("malicious", r.malicious, BadgeClass(Red))
    ensures cards[1] == Card("suspicious", r.suspicious, BadgeClass(Yellow))
  {
    [Card("malicious", r.malicious, CategoryColor("malicious")),
     Card("suspicious", r.suspicious, CategoryColor("suspicious"))]
  }

  /** An analysis through both routes. The submission's acknowledgement is
      reduced to the id it carries. A provider failure at either step ends in
      the error with the earlier result kept; otherwise the report is the
      provider's own, fetched once by the id the provider returned. */
  lemma AnalysisThroughRoutes(v: View, ack: Upstream<string>, report: Upstream<UrlReport>)
    requires v.url != ""
    ensures var submit := Receive(VtUrlRoute.Post(VtUrlRoute.Object(Some(Str(v.url))), ack).response);
      var fetch := if submit.Resolved? then Receive(VtAnalysisRoute.Get(submit.value, report).response) else Rejected(None);
      var a := AnalyzeUrl(v, submit, fetch);
      && (Axios(ack).Resolved? && Axios(report).Resolved? ==> a.view.result == Some(report.body) && a.fetched == [ack.body])
      && (Axios(ack).Rejected? ==> a.fetched == [] && a.view.result == v.result && a.view.error == Some(AnalyzeFailedMessage))
      && (Axios(report).Rejected? ==> a.view.result == v.result && a.view.error == Some(AnalyzeFailedMessage))
  {
  }
}
