/** The breach-lookup route: `GET ?email=` asks the breach database for the
    breaches of one account. Every answer has the body `{ data: list }`; it is
    modelled as `Payload(list)`, and no answer carries an error message. */
module HibpRoute {
  import opened Js
  import opened Http

  /** One breach as the provider lists it; only its name is shown. */
  datatype Breach = Breach(name: string)

  /** The provider answers 404 for an account found in no breach. */
  predicate NotInAnyBreach(upstream: Upstream<seq<Breach>>)
  {
    upstream.Answered? && upstream.status == StatusNotFound
  }

  /** `GET`: a missing email is 400 with no breaches; otherwise the provider's
      list is relayed, its 404 ("account not in any breach") becomes an empty
      list with 200, and any other failure an empty list with 500. */
  function Get(email: Option<string>, upstream: Upstream<seq<Breach>>): (h: Handled<string, seq<Breach>>)
    ensures h.response.body.Payload?
    ensures h.request.Some? <==> Given(email)
    ensures h.request.Some? ==> h.request.value == email.value
    ensures !Given(email) ==> h.response == Response(StatusBadRequest, Payload([]))
    ensures Given(email) && Axios(upstream).Resolved? ==> h.response == Response(StatusOk, Payload(upstream.body))
    ensures Given(email) && NotInAnyBreach(upstream) ==> h.response == Response(StatusOk, Payload([]))
    ensures Given(email) && Axios(upstream).Rejected? && !NotInAnyBreach(upstream)
      ==> h.response == Response(StatusInternalServerError, Payload([]))
  {
    if !Given(email) then Handled(Response(StatusBadRequest, Payload([])), None)
    else
      match Axios(upstream)
      case Resolved(breaches) => Handled(Response(StatusOk, Payload(breaches)), Some(email.value))
      case Rejected(status) =>
        if status == Some(404) then Handled(Response(StatusOk, Payload([])), Some(email.value))
        else Handled(Response(StatusInternalServerError, Payload([])), Some(email.value))
  }

  /** A 200 from this route lists breaches only if the provider listed them:
      the list is either the provider's own or empty. */
  lemma ListsOnlyProviderBreaches(email: Option<string>, upstream: Upstream<seq<Breach>>)
    ensures var r := Get(email, upstream).response;
      r.body.value == [] || (upstream.Answered? && IsSuccess(upstream.status) && r.body.value == upstream.body)
  {
  }
}
