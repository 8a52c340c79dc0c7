/** The IP panel: on mount it looks up the visitor's own address, then asks
    the reputation route about that address, and renders the first of
    loading, error, missing information or the details. */
module IpAddressDisplay {
  import opened Js
  import opened Http
  import opened Palette
  import AbuseIpdbRoute

  const IpFailedMessage := "Failed to fetch IP information"
  const AbuseFailedMessage := "Failed to fetch abuse information"

  /** The geolocation lookup's answer; `ip` may be missing from it. */
  datatype IpInfo = IpInfo(ip: Option<string>, city: string, countryName: string)

  /** The part of the reputation report the panel reads. */
  datatype AbuseReport = AbuseReport(abuseConfidenceScore: int, totalReports: int, numDistinctUsers: int)

  datatype View = View(ipInfo: Option<IpInfo>, abuseInfo: Option<AbuseReport>, loading: bool, error: Option<string>)

  /** The state the panel mounts with: loading, nothing known. */
  const Initial := View(None, None, true, None)

  /** The state after `fetchAllInfo`, and the address sent to the reputation
      route, if it was called. */
  datatype Lookup = Lookup(view: View, abuseQuery: Option<string>)

  /** `fetchAllInfo`: both lookups catch their own failures, so loading always
      ends; the reputation lookup runs only when the first lookup produced a
      truthy `ip`, and is sent exactly that address. */
  function FetchAllInfo(v: View, ipReply: Settled<IpInfo>, abuseReply: Settled<AbuseReport>): (l: Lookup)
    ensures !l.view.loading
    ensures l.abuseQuery.Some? <==> ipReply.Resolved? && Given(ipReply.value.ip)
    ensures l.abuseQuery.Some? ==> l.abuseQuery == ipReply.value.ip
    ensures l.view.ipInfo == if ipReply.Resolved? then Some(ipReply.value) else v.ipInfo
    ensures l.view.abuseInfo == if l.abuseQuery.Some? && abuseReply.Resolved? then Some(abuseReply.value) else v.abuseInfo
    ensures ipReply.Rejected? ==> l.view.error == Some(IpFailedMessage)
    ensures l.abuseQuery.Some? && abuseReply.Rejected? ==> l.view.error == Some(AbuseFailedMessage)
    ensures (ipReply.Resolved? && !(l.abuseQuery.Some? && abuseReply.Rejected?)) ==> l.view.error == v.error
  {
    var started := v.(loading := true);
    match ipReply
    case Rejected(_) => Lookup(started.(error := Some(IpFailedMessage), loading := false), None)
    case Resolved(info) =>
      var located := started.(ipInfo := Some(info));
      if info.ip.None? || info.ip.value == "" then Lookup(located.(loading := false), None)
      else
        match abuseReply
        case Resolved(report) => Lookup(located.(abuseInfo := Some(report), loading := false), info.ip)
        case Rejected(_) => Lookup(located.(error := Some(AbuseFailedMessage), loading := false), info.ip)
  }

  /** Reference banding of the abuse confidence score, each band written with
      both of its bounds. */
  function ScoreBand(score: int): (h: Hue)
    ensures h == Red <==> 75 <= score
    ensures h == Orange <==> 50 <= score < 75
    ensures h == Yellow <==> 25 <= score < 50
    ensures h == Green <==> score < 25
  {
    if 75 <= score then Red
    else if 50 <= score then Orange
    else if 25 <= score then Yellow
    else Green
  }

  /** Severity of a score colour, green lowest. Gray is never a score band;
      it is ranked with green only so that the function is total. */
  function Severity(h: Hue): nat
  {
    match h
    case Green => 0
    case Yellow => 1
    case Orange => 2
    case Red => 3
    case Gray => 0
  }

  /** `getAbuseScoreColor`. */
  function AbuseScoreColor(score: int): (cls: string)
    ensures cls == TextClass(ScoreBand(score))
  {
    if score >= 75 then "text-red-600"
    else if score >= 50 then "text-orange-600"
    else if score >= 25 then "text-yellow-600"
    else "text-green-600"
  }

  /** A higher score never gets a less severe colour. */
  lemma ScoreColourMonotone(a: int, b: int)
    requires a <= b
    ensures Severity(ScoreBand(a)) <= Severity(ScoreBand(b))
  {
  }

  /** What the panel renders. `Details` carries the abuse score's colour when a
      report is present. */
  datatype Screen = LoadingScreen | ErrorScreen(message: string) | NotLoaded
                  | Details(info: IpInfo, scoreColour: Option<string>)

  /** The render checks, in order: loading, then error, then missing IP information. */
  function Render(v: View): (s: Screen)
    ensures s.LoadingScreen? <==> v.loading
    ensures s.ErrorScreen? <==> !v.loading && Given(v.error)
    ensures s.ErrorScreen? ==> s.message == v.error.value
    ensures s.NotLoaded? <==> !v.loading && !Given(v.error) && v.ipInfo.None?
    ensures s.Details? ==> s.info == v.ipInfo.value && (s.scoreColour.Some? <==> v.abuseInfo.Some?)
    ensures s.Details? && v.abuseInfo.Some? ==> s.scoreColour == Some(AbuseScoreColor(v.abuseInfo.value.abuseConfidenceScore))
  {
    if v.loading then LoadingScreen
    else if v.error.Some? && v.error.value != "" then ErrorScreen(v.error.value)
    else if v.ipInfo.None? then NotLoaded
    else
      var colour := match v.abuseInfo
        case None => None
        case Some(report) => Some(AbuseScoreColor(report.abuseConfidenceScore));
      Details(v.ipInfo.value, colour)
  }

  /** After mounting, the panel never stays on the loading screen. */
  lemma LoadingAlwaysEnds(ipReply: Settled<IpInfo>, abuseReply: Settled<AbuseReport>)
    ensures !Render(FetchAllInfo(Initial, ipReply, abuseReply).view).LoadingScreen?
  {
  }

  /** A failed reputation lookup hides an IP address that was already
      obtained: the error check comes before the details. */
  lemma AbuseErrorHidesIp(info: IpInfo, failure: Option<int>)
    requires Given(info.ip)
    ensures var v := FetchAllInfo(Initial, Resolved(info), Rejected(failure)).view;
      v.ipInfo == Some(info) && Render(v) == ErrorScreen(AbuseFailedMessage)
  {
  }

  /** When both lookups succeed, the details show the address with its score colour. */
  lemma BothLookupsShowDetails(info: IpInfo, report: AbuseReport)
    requires Given(info.ip)
    ensures Render(FetchAllInfo(Initial, Resolved(info), Resolved(report)).view)
      == Details(info, Some(AbuseScoreColor(report.abuseConfidenceScore)))
  {
  }

  /** The panel calls the reputation route with `ip` only, so the provider is
      asked about that address over the default 30-day window, and the
      provider's report reaches the panel unchanged. */
  lemma ReputationThroughRoute(ip: string, upstream: Upstream<Option<AbuseReport>>)
    requires ip != ""
    ensures var h := AbuseIpdbRoute.Get(Some(ip), None, upstream);
      && h.request == Some(AbuseIpdbRoute.Query(ip, "30"))
      && (upstream.Answered? && IsSuccess(upstream.status) && upstream.body.Some? ==> Receive(h.response) == Resolved(upstream.body.value))
      && (!(upstream.Answered? && IsSuccess(upstream.status) && upstream.body.Some?) ==> Receive(h.response).Rejected?)
  {
  }
}
