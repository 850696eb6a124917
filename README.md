# hapi-backend route handlers, modelled in Dafny

`hapi-backend` is a thin HTTP gateway. Callers send it UTBK test scores (for a
major recommendation) or 16 profile features (for a career prediction). Its
two route handlers validate the JSON payload, pass a valid one to a remote
prediction service, and wrap the resulting score vector in a response
envelope. This project models those two handlers:

- `prediksiJurusanHandler` (`POST /api/prediksi-jurusan`) takes a `{ scores, test_type }`
  payload. It runs five checks in a fixed order, and the first failure decides the 400
  message:
  1. `test_type` is the string `"science"` or `"humanities"`;
  2. `scores` is an object;
  3. `scores` has every field of the variant's key list (8 for science, 9 for humanities);
  4. every value is a number and not NaN;
  5. every value lies in the inclusive range 0 to 1000.

  The values are then sent to the collaborator in key-list order.
- `prediksiCareerHandler` (`POST /api/prediksi`) takes an `{ input }` payload. It requires
  an array of exactly 16 numbers that are not NaN, with no range check.

On success, both handlers answer 200 with
`{ error: false, prediction, topPredictionIndex }`, where the index is the
lowest position of the vector's maximum. A collaborator error gives 500 with
`{ error: true, message }`.

Modules, one per concern:

- `JsValues` (`jsvalues.dfy`): JavaScript values as a datatype. Numbers are
  exact reals, with NaN and the two infinities as their own constructors. The
  module also holds the operators the handlers use: truthiness, `typeof`,
  `isNaN`, the `in` operator, property access, and `>=`/`<=`.
- `Argmax` (`argmax.dfy`): `result.indexOf(Math.max(...result))`.
- `Envelope` (`envelope.dfy`): the response body and status. It also defines
  the collaborator's outcome (a vector or a thrown error), and an `Exchange`
  that records whether the collaborator was called and with what.
- `Collaborators` (`collaborators.dfy`): the error rule of `recommendMajor.js`,
  and the collaborator as `handler.js` actually imports it.
- `Handler` (`handler.dfy`): the key lists, the messages and the two handlers.
- `HandlerProperties` (`properties.dfy`): the lemmas about the handlers.

Each handler is a function of the payload and the collaborator. The
collaborator is a function from the input it gets to its outcome. The network
call, its `await` and the transport all sit behind that parameter.

Three points where a reader might expect something else, and where the model
follows the code:

- One might expect the missing-fields message to name only the missing
  fields. The code lists the whole expected key list, whichever fields are
  missing (`src/handler.js:60-62`).
- One might expect an array to be refused as `scores`. The code's
  `typeof scores === 'object'` check lets arrays through. An array never has
  the `score_` fields, so it is rejected at the presence check instead.
- One might expect a label/confidence success envelope, or a 17-field object
  variant for careers. The code has neither. It always answers `prediction`
  and `topPredictionIndex`, and its career handler takes only the 16-element
  array.

## Model

| member | source | states |
|---|---|---|
| JsValues.Get | src/handler.js:6 | reading a property an object or array lacks gives undefined; reading an object's own key gives its value |
| JsValues.ArrayLacksLetterKey | src/handler.js:55 | `key in array` is false for every key that does not start with a digit, apart from "length" |
| JsValues.ObjectShapeAdmits | src/handler.js:20 | the shape check (falsy, or a `typeof` other than 'object') passes exactly objects and arrays; null fails as falsy |
| JsValues.ValidNumberCases | src/handler.js:71-73 | `typeof v === 'number' && !isNaN(v)` holds exactly for finite numbers and both infinities |
| Argmax.Max | src/handler.js:98 | `Math.max` of a non-empty vector is one of its elements and no element exceeds it |
| Argmax.IndexOf | src/handler.js:98 | `indexOf` gives -1 exactly when the value is absent, and otherwise the first position holding it |
| Argmax.TopPredictionIndex | src/handler.js:98 | the reported index is -1 for an empty vector and otherwise the lowest position of a maximum |
| Argmax.FirstMaxUnique | src/handler.js:98 | at most one position is the lowest position of a maximum |
| Argmax.TopPredictionIndexCharacterised | src/handler.js:146 | the reported index equals k exactly when k is the lowest position of a maximum (or -1 for an empty vector) |
| Argmax.StubVectorTopIndex | src/handler.js:146 | a collaborator returning [0.1, 0.7, 0.2] always yields index 1 |
| Argmax.TiesGoToFirst | src/handler.js:98 | among equal maxima the earliest position is reported |
| Envelope.Relay | src/handler.js:95-115 | the status is 200 exactly when the collaborator returns; a 200 body carries the raw vector and the lowest index of its maximum; a thrown error gives 500 with its message |
| Envelope.ErrorFlagMatchesStatus | src/handler.js:100-114 | `error` is true exactly when the status is not 200 |
| Collaborators.RecommendMajor | src/recommendMajor.js:5-18 | the body is returned on success; a failure throws the upstream's non-empty error string, or else the fixed fallback; with a string (or absent) error field the thrown message is never empty |
| Handler.SelectTestType | src/handler.js:9-17 | science is selected exactly for the string "science" and humanities exactly for "humanities"; anything else selects nothing |
| Handler.PrediksiJurusan | src/handler.js:4-116 | the status is 200, 400 or 500; 400 means no collaborator call; a call carries 8 or 9 finite numbers in [0, 1000], and the response is that call's relayed outcome |
| Handler.PrediksiCareer | src/handler.js:118-164 | the status is 200, 400 or 500; 400 means no collaborator call; a call carries 16 non-NaN numbers, and the response is that call's relayed outcome |
| HandlerProperties.KeyLists | src/handler.js:30-52 | science has 8 keys and humanities 9; both start with score_kpu, score_kua, score_ppu, score_kmb, score_mat_tka; every key is a `score_` name; no key repeats |
| HandlerProperties.JoinUnfold | src/handler.js:60-62 | one step of `join(', ')`: the first field, the separator, then the join of the rest |
| HandlerProperties.ScienceKeysJoined | src/handler.js:60-62 | the science missing-fields message lists all 8 fields in order, separated by ", " |
| HandlerProperties.HumanitiesKeysJoined | src/handler.js:60-62 | the humanities missing-fields message lists all 9 fields in order, separated by ", " |
| HandlerProperties.MessageMarks | src/handler.js:9-92 | the five major-handler messages differ at position 26 and the two career messages differ in length, so each handler's 400 messages are pairwise distinct (each handler returns only its own) |
| HandlerProperties.JurusanUndestructurable | src/handler.js:6 | a null or undefined payload gives 500 with the destructuring TypeError and no call |
| HandlerProperties.JurusanTestTypeCheck | src/handler.js:9-17 | the test_type rejection comes exactly when `test_type` is not the string "science" or "humanities", whatever else the payload holds |
| HandlerProperties.JurusanShapeCheck | src/handler.js:20-27 | once test_type has passed, the scores rejection comes exactly when `scores` is neither an object nor an array |
| HandlerProperties.JurusanPresenceCheck | src/handler.js:54-65 | a missing expected key gives 400 with the prefix and the whole expected list joined by ", ", whichever key is missing |
| HandlerProperties.JurusanArrayScores | src/handler.js:20-65 | an array `scores` passes the shape check and always fails the presence check |
| HandlerProperties.JurusanNumberCheck | src/handler.js:67-81 | with every key present, one value that is not a number or is NaN gives the number message |
| HandlerProperties.JurusanRangeCheck | src/handler.js:83-92 | with every value a number, one that is an infinity or outside [0, 1000] gives the range message |
| HandlerProperties.ValidatedInput | src/handler.js:68 | an accepted payload's input has 8 or 9 entries |
| HandlerProperties.JurusanAcceptedIsSent | src/handler.js:66-106 | a payload JurusanAccepts describes is sent with its values in key-list order, and the collaborator's outcome is relayed |
| HandlerProperties.JurusanSentIsAccepted | src/handler.js:9-95 | only a payload JurusanAccepts describes reaches the collaborator |
| HandlerProperties.JurusanAcceptance | src/handler.js:54-106 | the collaborator is called exactly when `test_type` is known and `scores` is an object holding every expected field with a value in [0, 1000]; it is then called with those values in key-list order, and its outcome is relayed |
| HandlerProperties.AllFiveHundredScience | src/handler.js:66-95 | a science payload with all 8 fields set to 500 sends eight 500s |
| HandlerProperties.BoundsInclusive | src/handler.js:84 | 0 and 1000 pass; a field holding 0 counts as present |
| HandlerProperties.JustOutOfRange | src/handler.js:84-92 | 1000.0001 and -0.0001 give the range message |
| HandlerProperties.UndefinedFieldIsPresent | src/handler.js:55-81 | a key holding undefined passes presence and fails the number check |
| HandlerProperties.InfinityFailsAtRange | src/handler.js:70-92 | Infinity and -Infinity pass the number check and fail the range check |
| HandlerProperties.CareerUndestructurable | src/handler.js:120 | a null or undefined payload gives 500 with the destructuring TypeError and no call |
| HandlerProperties.CareerShapeCheck | src/handler.js:123-130 | the length message comes exactly when `input` is not an array of 16 elements, whatever its contents |
| HandlerProperties.CareerAcceptance | src/handler.js:132-144 | an array of 16 is sent exactly when every element is a finite number or an infinity; there is no range check; otherwise the element message |
| HandlerProperties.CareerUpstreamFailure | src/handler.js:155-163 | a collaborator error gives 500 with its message |
| HandlerProperties.SuccessEnvelope | src/handler.js:98-106 | on success the body is `error: false` with the raw vector and the lowest index of its maximum, or -1 for an empty vector |
| HandlerProperties.RecommendFailureMessage | src/recommendMajor.js:12-17 | with recommendMajor.js wired in, an upstream failure whose error field is a string or absent gives 500 with a non-empty message |
| HandlerProperties.JurusanAsImportedNeverSucceeds | src/handler.js:2 | as imported, the major handler never answers 200; every accepted payload gives 500 "recommendMajor is not a function" |
| HandlerProperties.JurusanWiredRelaysUpstream | src/recommendMajor.js:5-11 | with recommendMajor.js wired in, an accepted payload whose upstream replies gets 200 with that vector and its top index |

## Findings

| source | as written | input that shows it | evidently intended | confidence | as-written member | corrected member |
|---|---|---|---|---|---|---|
| src/handler.js:2 | `recommendMajor` is imported from `./predictJurusanService`. That file is an Express server with no `module.exports`, so the name is undefined, and every validated major request is answered 500 "recommendMajor is not a function" | `{ test_type: "science", scores: { score_kpu: 500, …, score_bio: 500 } }` | import it from `./recommendMajor`, which defines and exports it. Loading the wrong module also starts its Express server on port 5000 unless PORT is set, which clashes with the Hapi server's port (see "Left out") | high; not executed | HandlerProperties.JurusanAsImportedNeverSucceeds | HandlerProperties.JurusanWiredRelaysUpstream |

## Left out

- src/server.js and src/routes.js: Hapi bootstrap, CORS settings and the route table. The root route returns a fixed string. The 404 fallback is a constant response.
- src/predictJurusanService.js: a second, Express-based server that forwards the body unchanged. Loading it from `handler.js` runs its top level, so it starts listening on `process.env.PORT` or 5000 (src/predictJurusanService.js:39-42), the same port the Hapi server is given (src/server.js:8). With PORT unset, Hapi's `server.start()` would most likely fail to bind, and the unhandled rejection ends the process (src/server.js:28-31). Process start-up is not modelled: the handlers are modelled as if the Hapi server were up, which needs PORT set to another port.
- src/predictService.js: a career wrapper that `handler.js` does not import. The career collaborator `./predictCareerService` is not part of this model. It stays an opaque parameter whose thrown message is relayed as is.
- src/utils.js (bcrypt and jwt helpers), src/test.js (a TensorFlow.js loading check), app/app/app.py (a Streamlit UI over a Keras model) and eslint.config.mjs: none of them is reached from the routes.
- The network call, its `await` and axios's JSON serialisation: the collaborator is a function parameter.
- The `console.error` logging in both `catch` blocks: it is I/O.
- Floating point: scores are exact reals. Negative zero is the same as zero, which is harmless: it is falsy and in range either way.
- Collaborator results that are not arrays of finite numbers: `Math.max` on strings, NaN or a non-iterable value is not modelled. The result vector is a `seq<real>`.
- A `RangeError` from spreading a huge result array into `Math.max`.
- Keys inherited from `Object.prototype` or `Array.prototype`, and array holes. None of the handlers' keys is inherited, and a JSON body has no holes.
- Hapi's payload parsing: the payload is any JavaScript value. Null and undefined stand for a request without a body.
- The text of the destructuring TypeError: the model uses V8's wording.
- Collaborators.RecommendMajor: the upstream `data.error` field is taken to be a string or absent. A non-string truthy value (a number, an array, an object) is converted to text by `new Error`, so the message could then be empty (for `[]`) or a number's decimal form; that conversion is not modelled, and "never empty" is promised only for a string or absent field.
