/** The file route of the scanning provider: `POST` uploads a file for
    analysis, `GET` fetches an analysis by its id. The provider's documents
    are opaque (`B`): the route forwards them without looking inside. */
module VtFileRoute {
  import opened Js
  import opened Http

  /** The upload limit, 32 MiB; a file of exactly this size is accepted. */
  const MaxUploadBytes := 32 * 1024 * 1024

  const NoFileMessage := "No file provided"
  const TooLargeMessage := "File size exceeds 32MB limit"
  const AnalyzeFailedMessage := "Failed to analyze file"
  const IdRequiredMessage := "Analysis ID is required"
  const FetchFailedMessage := "Failed to fetch file analysis"

  /** What `formData.get('file')` returns: nothing, an uploaded file (only its
      size matters here), or a plain text field of that name. */
  datatype FormField = Absent | FileField(size: nat) | TextField(text: string)

  /** The request body: multipart form data, or a body `request.formData()`
      cannot parse (which throws inside the handler's `try`). */
  datatype Form = Parsed(file: FormField) | Unparsable

  /** `!file`: a missing field and an empty text field are falsy; every
      uploaded file object is truthy, even an empty one. */
  predicate Supplied(f: FormField)
  {
    match f
    case Absent => false
    case FileField(_) => true
    case TextField(text) => text != ""
  }

  /** `file.size > 32 * 1024 * 1024`: a text field has no `size`, and
      `undefined > n` is false, so only an uploaded file can be too large. */
  predicate Oversized(f: FormField)
  {
    f.FileField? && f.size > MaxUploadBytes
  }

  /** `POST`: validate the form, then forward the field to the provider and
      relay its answer. */
  function Post<B>(form: Form, upstream: Upstream<B>): (h: Handled<FormField, B>)
    // the provider is called exactly when the form parsed, names a file and the file is within the limit
    ensures h.request.Some? <==> form.Parsed? && Supplied(form.file) && !Oversized(form.file)
    ensures h.request.Some? ==> h.request.value == form.file
    // validation failures are 400 and precede any upstream call
    ensures form.Parsed? && !Supplied(form.file) ==> h.response == Response(StatusBadRequest, ErrorMessage(NoFileMessage))
    ensures form.Parsed? && Oversized(form.file) ==> h.response == Response(StatusBadRequest, ErrorMessage(TooLargeMessage))
    ensures h.response.status == StatusBadRequest <==> form.Parsed? && (!Supplied(form.file) || Oversized(form.file))
    // a provider success is relayed unchanged with 200
    ensures h.request.Some? && Axios(upstream).Resolved? ==> h.response == Response(StatusOk, Payload(Axios(upstream).value))
    // every throw inside the handler becomes 500
    ensures h.response.status == StatusInternalServerError <==> form.Unparsable? || (h.request.Some? && Axios(upstream).Rejected?)
    ensures h.response.status == StatusInternalServerError ==> h.response.body == ErrorMessage(AnalyzeFailedMessage)
  {
    match form
    case Unparsable => Handled(Response(StatusInternalServerError, ErrorMessage(AnalyzeFailedMessage)), None)
    case Parsed(file) =>
      if !Supplied(file) then Handled(Response(StatusBadRequest, ErrorMessage(NoFileMessage)), None)
      else if file.FileField? && file.size > 32 * 1024 * 1024 then
        Handled(Response(StatusBadRequest, ErrorMessage(TooLargeMessage)), None)
      else
        match Axios(upstream)
        case Resolved(doc) => Handled(Response(StatusOk, Payload(doc)), Some(file))
        case Rejected(_) => Handled(Response(StatusInternalServerError, ErrorMessage(AnalyzeFailedMessage)), Some(file))
  }

  /** `GET ?id=`: require an id, then fetch that analysis from the provider. */
  function Get<B>(id: Option<string>, upstream: Upstream<B>): (h: Handled<string, B>)
    ensures h.request.Some? <==> Given(id)
    ensures h.request.Some? ==> h.request.value == id.value
    ensures !Given(id) ==> h.response == Response(StatusBadRequest, ErrorMessage(IdRequiredMessage))
    ensures Given(id) && Axios(upstream).Resolved? ==> h.response == Response(StatusOk, Payload(Axios(upstream).value))
    ensures Given(id) && Axios(upstream).Rejected? ==> h.response == Response(StatusInternalServerError, ErrorMessage(FetchFailedMessage))
  {
    if !Given(id) then Handled(Response(StatusBadRequest, ErrorMessage(IdRequiredMessage)), None)
    else
      match Axios(upstream)
      case Resolved(doc) => Handled(Response(StatusOk, Payload(doc)), Some(id.value))
      case Rejected(_) => Handled(Response(StatusInternalServerError, ErrorMessage(FetchFailedMessage)), Some(id.value))
  }

  /** The size comparison is strict: a file of exactly 32 MiB is sent on, one
      byte more is refused before the provider is called. */
  lemma SizeLimitIsInclusive<B>(upstream: Upstream<B>)
    ensures MaxUploadBytes == 33554432
    ensures Post(Parsed(FileField(33554432)), upstream).request == Some(FileField(33554432))
    ensures Post(Parsed(FileField(33554433)), upstream) == Handled(Response(StatusBadRequest, ErrorMessage(TooLargeMessage)), None)
  {
  }

  /** Every answer of either handler is a 200 carrying the provider's own
      document, or an error message with 400 or 500. */
  lemma ResponseShapes<B>(form: Form, id: Option<string>, upstream: Upstream<B>)
    ensures var r := Post(form, upstream).response;
      (r.status == StatusOk && r.body.Payload? && r.body == Payload(upstream.body))
      || (r.body.ErrorMessage? && (r.status == StatusBadRequest || r.status == StatusInternalServerError))
    ensures var r := Get(id, upstream).response;
      (r.status == StatusOk && r.body == Payload(upstream.body))
      || (r.body.ErrorMessage? && (r.status == StatusBadRequest || r.status == StatusInternalServerError))
  {
  }
}
