/** The email breach search: each search resets the result, asks the breach
    route, and either lists the breaches (flagging the address safe when there
    are none) or shows an error. */
module EmailBreachSearch {
  import opened Js
  import opened Http
  import HibpRoute

  const SearchFailedMessage := "Failed to search for breaches. Please try again later."

  datatype View = View(email: string, breaches: seq<HibpRoute.Breach>, loading: bool,
                       error: Option<string>, isSafe: Option<bool>)

  /** `searchBreaches`: error, breaches and the safe flag are reset first; a
      successful reply stores the list and sets the flag to whether it is
      empty; a failure leaves them reset and records the error. Loading ends
      either way. */
  function SearchBreaches(v: View, reply: Settled<seq<HibpRoute.Breach>>): (v': View)
    ensures !v'.loading && v'.email == v.email
    ensures v'.isSafe == Some(true) <==> reply.Resolved? && |reply.value| == 0
    ensures v'.isSafe == Some(false) <==> reply.Resolved? && |reply.value| > 0
    ensures reply.Resolved? ==> v'.breaches == reply.value && v'.error.None?
    ensures reply.Rejected? ==> v'.error == Some(SearchFailedMessage) && v'.isSafe.None? && v'.breaches == []
  {
    var reset := v.(loading := true, error := None, breaches := [], isSafe := None);
    match reply
    case Resolved(list) => reset.(breaches := list, isSafe := Some(|list| == 0), loading := false)
    case Rejected(_) => reset.(error := Some(SearchFailedMessage), loading := false)
  }

  /** The "Safe!" banner and the breach list are never shown together. */
  lemma SafeExcludesBreaches(v: View, reply: Settled<seq<HibpRoute.Breach>>)
    ensures var v' := SearchBreaches(v, reply); v'.isSafe == Some(true) ==> |v'.breaches| == 0
  {
  }

  /** A search through the breach route: the provider's "not found" counts as
      safe, a provider list is shown as it is, and any other provider failure
      ends in the error with no verdict. */
  lemma SearchThroughRoute(v: View, upstream: Upstream<seq<HibpRoute.Breach>>)
    requires v.email != ""
    ensures var v' := SearchBreaches(v, Receive(HibpRoute.Get(Some(v.email), upstream).response));
      && (HibpRoute.NotInAnyBreach(upstream) ==> v'.isSafe == Some(true) && v'.error.None? && v'.breaches == [])
      && (Axios(upstream).Resolved? ==> v'.breaches == upstream.body && v'.isSafe == Some(|upstream.body| == 0))
      && (Axios(upstream).Rejected? && !HibpRoute.NotInAnyBreach(upstream) ==>
            v'.error == Some(SearchFailedMessage) && v'.isSafe.None?)
  {
  }

  /** An empty address is refused by the route with 400, which the component
      reports as a failed search. */
  lemma EmptyEmailFails(v: View, upstream: Upstream<seq<HibpRoute.Breach>>)
    requires v.email == ""
    ensures SearchBreaches(v, Receive(HibpRoute.Get(Some(v.email), upstream).response)).error == Some(SearchFailedMessage)
  {
  }
}
