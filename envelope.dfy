/** The response envelope both route handlers return, the outcome of the
    prediction collaborator they await, and the two ways a handler ends:
    rejecting the request before any call, or relaying the collaborator's
    outcome. */
module Envelope {
  import opened JsValues
  import opened Argmax

  /** The JSON body: `{ error: true, message }` or
      `{ error: false, prediction, topPredictionIndex }`. */
  datatype Body =
    | Failure(message: string)
    | Prediction(prediction: seq<real>, topPredictionIndex: int)
  {
    /** The `error` field of the body. */
    predicate Error() {
      Failure?
    }
  }

  datatype Response = Response(status: int, body: Body)

  /** What awaiting the collaborator gives: the result vector, or a thrown
      error whose `message` the handler relays. */
  datatype Outcome = Returned(result: seq<real>) | Threw(message: string)

  /** One request's handling: the input the collaborator was called with, if
      it was called, and the response. */
  datatype Exchange = Exchange(call: Option<seq<JsValue>>, response: Response)

  /** A validation failure: 400 with the message, and no collaborator call. */
  function Reject(message: string): (x: Exchange)
    ensures x.call.None?
    ensures x.response.status == 400 && x.response.body.Error()
    ensures x.response.body.message == message
  {
    Exchange(None, Response(400, Failure(message)))
  }

  /** A thrown error caught by the handler's `catch`: 500 with its message. */
  function ServerError(call: Option<seq<JsValue>>, message: string): (x: Exchange)
    ensures x.call == call
    ensures x.response.status == 500 && x.response.body.Error()
    ensures x.response.body.message == message
  {
    Exchange(call, Response(500, Failure(message)))
  }

  /** The handler's last step after a call with `input`: success reports the
      raw vector and the lowest index of its maximum; a thrown error is 500. */
  function Relay(input: seq<JsValue>, outcome: Outcome): (x: Exchange)
    ensures x.call == Some(input)
    ensures x.response.status == 200 <==> outcome.Returned?
    ensures x.response.status == 200 ==> !x.response.body.Error()
    ensures outcome.Returned? ==> x.response.body.Prediction? && x.response.body.prediction == outcome.result
    ensures outcome.Returned? && |outcome.result| == 0 ==> x.response.body.topPredictionIndex == -1
    ensures outcome.Returned? && |outcome.result| > 0 ==>
              IsFirstMax(outcome.result, x.response.body.topPredictionIndex)
    ensures outcome.Threw? ==> x.response == Response(500, Failure(outcome.message))
  {
    match outcome
    case Returned(result) => Exchange(Some(input), Response(200, Prediction(result, TopPredictionIndex(result))))
    case Threw(message) => ServerError(Some(input), message)
  }

  /** Every envelope carries `error: true` exactly when its status is not 200. */
  lemma ErrorFlagMatchesStatus(input: seq<JsValue>, outcome: Outcome, message: string)
    ensures Relay(input, outcome).response.body.Error() <==> Relay(input, outcome).response.status != 200
    ensures Reject(message).response.body.Error() && Reject(message).response.status != 200
  {
  }
}
