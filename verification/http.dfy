/** HTTP vocabulary shared by the route handlers and the components: status
    codes, what an outbound request can come back with, how axios and fetch
    settle on it, and the JSON response a route handler produces. */
module Http {
  import opened Js

  /** 200 OK, section 15.3.1 of RFC 9110 (the default of `NextResponse.json`). */
  const StatusOk := 200
  /** 400 Bad Request, section 15.5.1 of RFC 9110. */
  const StatusBadRequest := 400
  /** 404 Not Found, section 15.5.5 of RFC 9110. */
  const StatusNotFound := 404
  /** 500 Internal Server Error, section 15.6.1 of RFC 9110. */
  const StatusInternalServerError := 500

  /** The 2xx class: what axios's default `validateStatus` accepts and what
      `fetch` reports as `response.ok`. */
  predicate IsSuccess(status: int)
  {
    200 <= status < 300
  }

  /** What one outbound request comes back with: a response with a status and a
      body, or nothing at all (the host was unreachable, the connection failed). */
  datatype Upstream<B> = Answered(status: int, body: B) | Unreachable

  /** How an awaited call settles: with a value, or by throwing. A rejection
      remembers the response status when there was a response
      (`error.response?.status`). */
  datatype Settled<T> = Resolved(value: T) | Rejected(responseStatus: Option<int>)

  /** `await axios.get/post(...)` with the default `validateStatus`: only a 2xx
      answer resolves, with the response body; any other answer rejects
      carrying its status, and an unreachable host rejects without one. */
  function Axios<B>(u: Upstream<B>): (s: Settled<B>)
    ensures s.Resolved? <==> u.Answered? && IsSuccess(u.status)
    ensures s.Resolved? ==> s.value == u.body
    ensures s.Rejected? ==> (s.responseStatus.Some? <==> u.Answered?)
    ensures s.Rejected? && u.Answered? ==> s.responseStatus.value == u.status
  {
    match u
    case Unreachable => Rejected(None)
    case Answered(status, body) =>
      if 200 <= status < 300 then Resolved(body) else Rejected(Some(status))
  }

  /** The JSON body of a route response: a payload, or `{ error: message }`. */
  datatype Body<B> = Payload(value: B) | ErrorMessage(error: string)

  datatype Response<B> = Response(status: int, body: Body<B>)

  /** A route's answer together with the request it sent upstream, if any;
      `request == None` means the provider was never called. */
  datatype Handled<Q, B> = Handled(response: Response<B>, request: Option<Q>)

  /** The component's own `axios` call on one of the routes: a 2xx answer
      resolves with the payload, anything else rejects. The routes never pair a
      2xx status with an error body; were one to, reading the missing payload
      would throw into the same `catch`. */
  function Receive<B>(r: Response<B>): (s: Settled<B>)
    ensures s.Resolved? <==> IsSuccess(r.status) && r.body.Payload?
    ensures s.Resolved? ==> s.value == r.body.value
  {
    if 200 <= r.status < 300 && r.body.Payload? then Resolved(r.body.value)
    else Rejected(Some(r.status))
  }
}
