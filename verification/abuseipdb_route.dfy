/** The IP-reputation route: `GET ?ip=&days=` asks the reputation provider
    about one address over a reporting window. It uses `fetch`, which settles
    on any answer; the route itself rejects a non-2xx status. */
module AbuseIpdbRoute {
  import opened Js
  import opened Http

  const IpRequiredMessage := "IP address is required"
  const CheckFailedMessage := "Failed to check IP address"
  /** The reporting window used when `days` is missing or empty. */
  const DefaultDays := "30"

  /** The two query parameters sent to the provider, verbatim. */
  datatype Query = Query(ipAddress: string, maxAgeInDays: string)

  /** `GET`: the provider's answer is `Answered(status, body)` where `body` is
      `None` when `response.json()` cannot parse it. */
  function Get<B>(ip: Option<string>, days: Option<string>, upstream: Upstream<Option<B>>): (h: Handled<Query, B>)
    ensures h.request.Some? <==> Given(ip)
    ensures h.request.Some? ==> h.request.value.ipAddress == ip.value
    ensures h.request.Some? && Given(days) ==> h.request.value.maxAgeInDays == days.value
    ensures h.request.Some? && !Given(days) ==> h.request.value.maxAgeInDays == DefaultDays
    ensures !Given(ip) ==> h.response == Response(StatusBadRequest, ErrorMessage(IpRequiredMessage))
    ensures Given(ip) && upstream.Answered? && IsSuccess(upstream.status) && upstream.body.Some?
      ==> h.response == Response(StatusOk, Payload(upstream.body.value))
    ensures h.response.status == StatusInternalServerError <==>
      Given(ip) && !(upstream.Answered? && IsSuccess(upstream.status) && upstream.body.Some?)
    ensures h.response.status == StatusInternalServerError ==> h.response.body == ErrorMessage(CheckFailedMessage)
  {
    var window := OrElse(days, DefaultDays);
    if !Given(ip) then Handled(Response(StatusBadRequest, ErrorMessage(IpRequiredMessage)), None)
    else
      var query := Some(Query(ip.value, window));
      match upstream
      case Unreachable => Handled(Response(StatusInternalServerError, ErrorMessage(CheckFailedMessage)), query)
      case Answered(status, body) =>
        if !(200 <= status < 300) || body.None? then
          Handled(Response(StatusInternalServerError, ErrorMessage(CheckFailedMessage)), query)
        else Handled(Response(StatusOk, Payload(body.value)), query)
  }
}
