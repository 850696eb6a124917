/** The major-recommendation collaborator: an HTTP POST whose reply is either
    a result vector or a failure, and the error it throws on failure. The
    transport itself is a parameter of the model. */
module Collaborators {
  import opened JsValues
  import opened Envelope

  /** What the POST gives: the response body, or a failure carrying the
      upstream's `data.error` field when there was a response that had one.
      The field is taken to be a string; a non-string value, which
      `new Error` would convert to text, is not modelled. */
  datatype HttpReply = Data(body: seq<real>) | HttpFailure(upstreamError: Option<string>)

  const RecommendFallback: string := "Terjadi kesalahan saat memproses rekomendasi jurusan"

  /** `recommendMajor`: return the response body, or throw an error whose
      message is the upstream's error when it is a non-empty string and the
      fixed fallback otherwise. */
  function RecommendMajor(reply: HttpReply): (o: Outcome)
    ensures o.Returned? <==> reply.Data?
    ensures reply.Data? ==> o.result == reply.body
    ensures o.Threw? ==> o.message != ""
    ensures reply.HttpFailure? && reply.upstreamError.Some? && reply.upstreamError.value != "" ==>
              o.message == reply.upstreamError.value
    ensures reply.HttpFailure? && (reply.upstreamError.None? || reply.upstreamError.value == "") ==>
              o.message == RecommendFallback
  {
    match reply
    case Data(body) => Returned(body)
    case HttpFailure(upstream) =>
      if upstream.Some? && upstream.value != "" then Threw(upstream.value) else Threw(RecommendFallback)
  }

  /** The collaborator bound to an HTTP transport. */
  function RecommendOver(http: seq<JsValue> -> HttpReply): seq<JsValue> -> Outcome {
    input => RecommendMajor(http(input))
  }

  /** The TypeError raised by calling an imported name that is undefined. */
  const NotAFunction: string := "recommendMajor is not a function"

  /** The collaborator as the handler module imports it: the module it names
      exports nothing, so `recommendMajor` is undefined and every call throws. */
  function RecommendAsImported(input: seq<JsValue>): (o: Outcome)
    ensures o.Threw? && o.message == NotAFunction
  {
    Threw(NotAFunction)
  }
}
