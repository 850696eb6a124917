/** The two route handlers: `prediksiJurusanHandler` validates a
    `{ scores, test_type }` payload of UTBK scores, and `prediksiCareerHandler`
    validates an `{ input }` payload of 16 profile features. Each check fails
    fast with its own 400 message; a payload that passes is sent to the
    prediction collaborator, whose outcome is relayed. The collaborator is a
    parameter: a function from the input it is called with to its outcome. */
module Handler {
  import opened JsValues
  import opened Envelope

  datatype TestType = Science | Humanities

  /** The score fields a science payload must have, in the order the
      collaborator expects them. */
  const ScienceKeys: seq<string> := [
    "score_kpu", "score_kua", "score_ppu", "score_kmb", "score_mat_tka",
    "score_fis", "score_kim", "score_bio"
  ]

  /** The score fields a humanities payload must have, in order. */
  const HumanitiesKeys: seq<string> := [
    "score_kpu", "score_kua", "score_ppu", "score_kmb", "score_mat_tka",
    "score_geo", "score_sej", "score_sos", "score_eko"
  ]

  function ExpectedKeys(t: TestType): seq<string> {
    match t
    case Science => ScienceKeys
    case Humanities => HumanitiesKeys
  }

  /** The inclusive score domain. */
  const MinScore: real := 0.0
  const MaxScore: real := 1000.0

  /** The number of features the career collaborator takes. */
  const CareerFeatureCount: nat := 16

  const TestTypeMessage: string := "test_type harus diisi dan bernilai \"science\" atau \"humanities\""
  const ScoresShapeMessage: string := "scores harus berupa objek dengan nilai skor"
  const MissingKeysPrefix: string := "scores harus mengandung semua fitur berikut: "
  const ScoreNotNumberMessage: string := "Semua nilai skor harus berupa angka yang valid"
  const ScoreRangeMessage: string := "Semua nilai skor harus berada di antara 0 dan 1000"
  const CareerShapeMessage: string := "Input harus berupa array dengan 16 angka sesuai fitur"
  const CareerNotNumberMessage: string := "Semua elemen input harus berupa angka"

  /** `Array.prototype.join` over strings. */
  function Join(parts: seq<string>, sep: string): string
    decreases |parts|
  {
    if |parts| == 0 then ""
    else if |parts| == 1 then parts[0]
    else parts[0] + sep + Join(parts[1..], sep)
  }

  /** The missing-fields message: the prefix and the whole expected list. */
  function MissingKeysMessage(keys: seq<string>): string {
    MissingKeysPrefix + Join(keys, ", ")
  }

  /** The TypeError that destructuring a null or undefined `request.payload`
      raises, in the wording of the V8 engine. */
  function DestructureMessage(property: string, payload: JsValue): string
    requires payload.Null? || payload.Undefined?
  {
    "Cannot destructure property '" + property + "' of 'request.payload' as it is "
    + (if payload.Null? then "null" else "undefined") + "."
  }

  /** The discriminator check and the key-list choice: a falsy `test_type`, or
      one strictly unequal to both names, selects nothing. */
  function SelectTestType(v: JsValue): (t: Option<TestType>)
    ensures t == Some(Science) <==> v == Str("science")
    ensures t == Some(Humanities) <==> v == Str("humanities")
  {
    if !Truthy(v) || (v != Str("science") && v != Str("humanities")) then None
    else if v == Str("science") then Some(Science)
    else Some(Humanities)
  }

  /** `!scores || typeof scores !== 'object'` is false. */
  predicate IsObjectShaped(scores: JsValue) {
    Truthy(scores) && TypeOf(scores) == "object"
  }

  /** `keys.every((key) => key in scores)`. */
  predicate HasAllKeys(scores: JsValue, keys: seq<string>)
    requires scores.Obj? || scores.Arr?
  {
    forall i :: 0 <= i < |keys| ==> HasProperty(scores, keys[i])
  }

  /** `keys.map((key) => scores[key])`. */
  function Project(scores: JsValue, keys: seq<string>): (input: seq<JsValue>)
    ensures |input| == |keys|
    ensures forall i :: 0 <= i < |keys| ==> input[i] == Get(scores, keys[i])
  {
    seq(|keys|, i requires 0 <= i < |keys| => Get(scores, keys[i]))
  }

  /** `input.every((val) => typeof val === 'number' && !isNaN(val))`. */
  predicate AllValidNumbers(input: seq<JsValue>) {
    forall i :: 0 <= i < |input| ==> IsValidNumber(input[i])
  }

  /** `input.every((val) => val >= 0 && val <= 1000)`, once every value is a
      number. */
  predicate AllInRange(input: seq<JsValue>)
    requires AllValidNumbers(input)
  {
    forall i :: 0 <= i < |input| ==> AtLeast(input[i], MinScore) && AtMost(input[i], MaxScore)
  }

  /** `prediksiJurusanHandler`, with `recommendMajor` as the collaborator. */
  function PrediksiJurusan(payload: JsValue, recommendMajor: seq<JsValue> -> Outcome): (x: Exchange)
    ensures x.response.status == 200 || x.response.status == 400 || x.response.status == 500
    ensures x.response.status == 400 <==> x.call.None? && !payload.Null? && !payload.Undefined?
    ensures x.call.None? ==> x.response.body.Error()
    ensures x.call.Some? ==>
              && (|x.call.value| == |ScienceKeys| || |x.call.value| == |HumanitiesKeys|)
              && (forall i :: 0 <= i < |x.call.value| ==>
                    x.call.value[i].Num? && MinScore <= x.call.value[i].n <= MaxScore)
              && x.response == Relay(x.call.value, recommendMajor(x.call.value)).response
  {
    if payload.Null? || payload.Undefined? then
      ServerError(None, DestructureMessage("scores", payload))
    else
      var scores := Get(payload, "scores");
      var testType := Get(payload, "test_type");
      match SelectTestType(testType)
      case None => Reject(TestTypeMessage)
      case Some(t) =>
        if !IsObjectShaped(scores) then Reject(ScoresShapeMessage)
        else
          var keys := ExpectedKeys(t);
          if !HasAllKeys(scores, keys) then Reject(MissingKeysMessage(keys))
          else
            var input := Project(scores, keys);
            if !AllValidNumbers(input) then Reject(ScoreNotNumberMessage)
            else if !AllInRange(input) then Reject(ScoreRangeMessage)
            else Relay(input, recommendMajor(input))
  }

  /** `prediksiCareerHandler`, with `predict` as the collaborator. */
  function PrediksiCareer(payload: JsValue, predict: seq<JsValue> -> Outcome): (x: Exchange)
    ensures x.response.status == 200 || x.response.status == 400 || x.response.status == 500
    ensures x.response.status == 400 <==> x.call.None? && !payload.Null? && !payload.Undefined?
    ensures x.call.None? ==> x.response.body.Error()
    ensures x.call.Some? ==>
              && |x.call.value| == CareerFeatureCount
              && AllValidNumbers(x.call.value)
              && x.response == Relay(x.call.value, predict(x.call.value)).response
  {
    if payload.Null? || payload.Undefined? then
      ServerError(None, DestructureMessage("input", payload))
    else
      var input := Get(payload, "input");
      if !Truthy(input) || !input.Arr? || |input.elems| != CareerFeatureCount then Reject(CareerShapeMessage)
      else if !AllValidNumbers(input.elems) then Reject(CareerNotNumberMessage)
      else Relay(input.elems, predict(input.elems))
  }
}
