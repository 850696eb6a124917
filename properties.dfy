/** What the two handlers promise their callers: the order of the checks and
    the message each failure produces, that a rejected request never reaches
    the collaborator, and what an accepted request sends and returns. */
module HandlerProperties {
  import opened JsValues
  import opened Argmax
  import opened Envelope
  import opened Collaborators
  import opened Handler

  // ---------------------------------------------------------------------
  // The schema registry

  /** Science has 8 fields and humanities 9; both open with the same five
      general fields, every field is a `score_` name, and no field repeats. */
  lemma KeyLists()
    ensures |ScienceKeys| == 8 && |HumanitiesKeys| == 9
    ensures ScienceKeys[..5] == HumanitiesKeys[..5]
            == ["score_kpu", "score_kua", "score_ppu", "score_kmb", "score_mat_tka"]
    ensures forall t: TestType, i :: 0 <= i < |ExpectedKeys(t)| ==>
              |ExpectedKeys(t)[i]| > 6 && ExpectedKeys(t)[i][..6] == "score_"
    ensures forall t: TestType, i, j :: 0 <= i < j < |ExpectedKeys(t)| ==>
              ExpectedKeys(t)[i] != ExpectedKeys(t)[j]
  {
  }

  /** One step of `join` on a suffix of the list. */
  lemma JoinUnfold(parts: seq<string>, k: nat, sep: string)
    requires k + 1 < |parts|
    ensures Join(parts[k..], sep) == parts[k] + sep + Join(parts[k + 1..], sep)
  {
    assert parts[k..][1..] == parts[k + 1..];
  }

  /** The list the science missing-fields message names after its prefix:
      every field in order, separated by ", ". */
  lemma ScienceKeysJoined()
    ensures Join(ScienceKeys, ", ")
            == "score_kpu" + ", " + ("score_kua" + ", " + ("score_ppu" + ", " + ("score_kmb" + ", "
               + ("score_mat_tka" + ", " + ("score_fis" + ", " + ("score_kim" + ", " + "score_bio"))))))
  {
    assert ScienceKeys[7..] == ["score_bio"];
    JoinUnfold(ScienceKeys, 6, ", ");
    JoinUnfold(ScienceKeys, 5, ", ");
    JoinUnfold(ScienceKeys, 4, ", ");
    JoinUnfold(ScienceKeys, 3, ", ");
    JoinUnfold(ScienceKeys, 2, ", ");
    JoinUnfold(ScienceKeys, 1, ", ");
    JoinUnfold(ScienceKeys, 0, ", ");
  }

  /** The list the humanities missing-fields message names. */
  lemma HumanitiesKeysJoined()
    ensures Join(HumanitiesKeys, ", ")
            == "score_kpu" + ", " + ("score_kua" + ", " + ("score_ppu" + ", " + ("score_kmb" + ", "
               + ("score_mat_tka" + ", " + ("score_geo" + ", " + ("score_sej" + ", " + ("score_sos" + ", "
               + "score_eko")))))))
  {
    assert HumanitiesKeys[8..] == ["score_eko"];
    JoinUnfold(HumanitiesKeys, 7, ", ");
    JoinUnfold(HumanitiesKeys, 6, ", ");
    JoinUnfold(HumanitiesKeys, 5, ", ");
    JoinUnfold(HumanitiesKeys, 4, ", ");
    JoinUnfold(HumanitiesKeys, 3, ", ");
    JoinUnfold(HumanitiesKeys, 2, ", ");
    JoinUnfold(HumanitiesKeys, 1, ", ");
    JoinUnfold(HumanitiesKeys, 0, ", ");
  }

  /** The character that tells the five score messages apart, at position
      26, and the lengths of the two career messages. So the seven 400
      messages are pairwise distinct and a caller can tell which check
      failed. */
  lemma MessageMarks()
    ensures TestTypeMessage[26] == 'b'
    ensures ScoresShapeMessage[26] == 'd'
    ensures forall keys :: |MissingKeysMessage(keys)| > 26 && MissingKeysMessage(keys)[26] == 'm'
    ensures ScoreNotNumberMessage[26] == 'u'
    ensures ScoreRangeMessage[26] == 'a'
    ensures |CareerShapeMessage| == 53 && |CareerNotNumberMessage| == 37
  {
    forall keys ensures |MissingKeysMessage(keys)| > 26 && MissingKeysMessage(keys)[26] == 'm' {
      var m := MissingKeysMessage(keys);
      assert m[..|MissingKeysPrefix|] == MissingKeysPrefix;
      assert m[26] == m[..|MissingKeysPrefix|][26];
    }
  }

  // ---------------------------------------------------------------------
  // The validation chain of prediksiJurusanHandler, check by check

  /** A null or undefined payload cannot be destructured: the TypeError is
      caught and answered with 500, before any check or call. */
  lemma JurusanUndestructurable(payload: JsValue, recommendMajor: seq<JsValue> -> Outcome)
    requires payload.Null? || payload.Undefined?
    ensures PrediksiJurusan(payload, recommendMajor)
            == ServerError(None, DestructureMessage("scores", payload))
  {
  }

  /** Check 1: the test_type rejection is the answer exactly when `test_type`
      is not the string "science" or "humanities" (missing and falsy values
      included); the collaborator is then not called. */
  lemma JurusanTestTypeCheck(payload: JsValue, recommendMajor: seq<JsValue> -> Outcome)
    requires !payload.Null? && !payload.Undefined?
    ensures PrediksiJurusan(payload, recommendMajor) == Reject(TestTypeMessage)
            <==> Get(payload, "test_type") !in {Str("science"), Str("humanities")}
  {
    var x := PrediksiJurusan(payload, recommendMajor);
    var testType := Get(payload, "test_type");
    if testType == Str("science") || testType == Str("humanities") {
      MessageMarks();
      assert SelectTestType(testType).Some?;
      assert x.call.None? ==> x.response.body.message[26] != 'b';
    }
  }

  /** Check 2, reached only once test_type has passed: `scores` must be an
      object or an array; anything falsy or of another `typeof` (null
      included) gets the scores message. */
  lemma JurusanShapeCheck(payload: JsValue, recommendMajor: seq<JsValue> -> Outcome)
    requires !payload.Null? && !payload.Undefined?
    requires Get(payload, "test_type") in {Str("science"), Str("humanities")}
    ensures var x := PrediksiJurusan(payload, recommendMajor);
            x == Reject(ScoresShapeMessage)
            <==> !(Get(payload, "scores").Obj? || Get(payload, "scores").Arr?)
  {
    MessageMarks();
    ObjectShapeAdmits(Get(payload, "scores"));
  }

  /** Check 3: when some expected field is not a key of `scores`, the answer
      is the missing-fields message listing the whole expected list, whichever
      fields are missing. Presence is key membership: the field's value plays
      no part. */
  lemma JurusanPresenceCheck(payload: JsValue, recommendMajor: seq<JsValue> -> Outcome, t: TestType, i: nat)
    requires !payload.Null? && !payload.Undefined?
    requires SelectTestType(Get(payload, "test_type")) == Some(t)
    requires Get(payload, "scores").Obj? || Get(payload, "scores").Arr?
    requires i < |ExpectedKeys(t)| && !HasProperty(Get(payload, "scores"), ExpectedKeys(t)[i])
    ensures PrediksiJurusan(payload, recommendMajor)
            == Reject(MissingKeysPrefix + Join(ExpectedKeys(t), ", "))
  {
    assert IsObjectShaped(Get(payload, "scores"));
    assert !HasAllKeys(Get(payload, "scores"), ExpectedKeys(t));
  }

  /** Arrays pass the shape check but have none of the expected fields, so
      they always get the missing-fields message. */
  lemma JurusanArrayScores(payload: JsValue, recommendMajor: seq<JsValue> -> Outcome, t: TestType)
    requires !payload.Null? && !payload.Undefined?
    requires SelectTestType(Get(payload, "test_type")) == Some(t)
    requires Get(payload, "scores").Arr?
    ensures PrediksiJurusan(payload, recommendMajor) == Reject(MissingKeysMessage(ExpectedKeys(t)))
  {
    ArrayLacksLetterKey(Get(payload, "scores").elems, ExpectedKeys(t)[0]);
    JurusanPresenceCheck(payload, recommendMajor, t, 0);
  }

  /** Check 4: with every field present, a value that is not a number, or is
      NaN, gets the number message (a present field holding undefined too). */
  lemma JurusanNumberCheck(payload: JsValue, recommendMajor: seq<JsValue> -> Outcome, t: TestType, i: nat)
    requires !payload.Null? && !payload.Undefined?
    requires SelectTestType(Get(payload, "test_type")) == Some(t)
    requires Get(payload, "scores").Obj?
    requires forall k :: k in ExpectedKeys(t) ==> k in Get(payload, "scores").fields
    requires i < |ExpectedKeys(t)| && !IsValidNumber(Get(payload, "scores").fields[ExpectedKeys(t)[i]])
    ensures PrediksiJurusan(payload, recommendMajor) == Reject(ScoreNotNumberMessage)
  {
    var scores, keys := Get(payload, "scores"), ExpectedKeys(t);
    assert HasAllKeys(scores, keys) by {
      forall j | 0 <= j < |keys| ensures HasProperty(scores, keys[j]) {
        assert keys[j] in keys;
      }
    }
    assert !IsValidNumber(Project(scores, keys)[i]);
  }

  /** Check 5: with every value a number, one outside [0, 1000] gets the range
      message; both infinities fail here and not at check 4. */
  lemma JurusanRangeCheck(payload: JsValue, recommendMajor: seq<JsValue> -> Outcome, t: TestType, i: nat)
    requires !payload.Null? && !payload.Undefined?
    requires SelectTestType(Get(payload, "test_type")) == Some(t)
    requires Get(payload, "scores").Obj?
    requires forall k :: k in ExpectedKeys(t) ==> k in Get(payload, "scores").fields
    requires forall k :: k in ExpectedKeys(t) ==> IsValidNumber(Get(payload, "scores").fields[k])
    requires i < |ExpectedKeys(t)|
    requires var v := Get(payload, "scores").fields[ExpectedKeys(t)[i]];
             v.PosInf? || v.NegInf? || (v.Num? && (v.n < MinScore || v.n > MaxScore))
    ensures PrediksiJurusan(payload, recommendMajor) == Reject(ScoreRangeMessage)
  {
    var scores, keys := Get(payload, "scores"), ExpectedKeys(t);
    assert HasAllKeys(scores, keys) by {
      forall j | 0 <= j < |keys| ensures HasProperty(scores, keys[j]) {
        assert keys[j] in keys;
      }
    }
    var input := Project(scores, keys);
    assert AllValidNumbers(input) by {
      forall j | 0 <= j < |input| ensures IsValidNumber(input[j]) {
        assert keys[j] in keys;
      }
    }
    assert !(AtLeast(input[i], MinScore) && AtMost(input[i], MaxScore));
  }

  // ---------------------------------------------------------------------
  // Acceptance

  /** The key list a known `test_type` selects. */
  function KeysFor(testType: JsValue): (keys: seq<string>)
    ensures testType == Str("science") ==> keys == ExpectedKeys(Science)
    ensures testType == Str("humanities") ==> keys == ExpectedKeys(Humanities)
  {
    if testType == Str("science") then ScienceKeys else HumanitiesKeys
  }

  /** A score value the handler sends on: a finite number in [0, 1000]. */
  predicate InScoreDomain(v: JsValue) {
    v.Num? && 0.0 <= v.n <= 1000.0
  }

  /** `scores` is an object that holds every key of the list, each with a
      value in the score domain. */
  predicate ScoresComplete(scores: JsValue, keys: seq<string>) {
    && scores.Obj?
    && forall i :: 0 <= i < |keys| ==> keys[i] in scores.fields && InScoreDomain(scores.fields[keys[i]])
  }

  /** Declaratively, independent of the order of the checks: the payload
      names a known test type, and `scores` is an object holding every field
      of that type's list, each a number in [0, 1000]. */
  predicate JurusanAccepts(payload: JsValue) {
    && !payload.Null? && !payload.Undefined?
    && Get(payload, "test_type") in {Str("science"), Str("humanities")}
    && ScoresComplete(Get(payload, "scores"), KeysFor(Get(payload, "test_type")))
  }

  /** The input an accepted payload sends: the score values in key-list order. */
  function ValidatedInput(payload: JsValue): (input: seq<JsValue>)
    requires JurusanAccepts(payload)
    ensures |input| == 8 || |input| == 9
  {
    var scores, keys := Get(payload, "scores"), KeysFor(Get(payload, "test_type"));
    assert ScoresComplete(scores, keys);
    seq(|keys|, i requires 0 <= i < |keys| => scores.fields[keys[i]])
  }

  /** An accepted payload is sent on, as ValidatedInput. */
  lemma JurusanAcceptedIsSent(payload: JsValue, recommendMajor: seq<JsValue> -> Outcome)
    requires JurusanAccepts(payload)
    ensures var input := ValidatedInput(payload);
            PrediksiJurusan(payload, recommendMajor) == Relay(input, recommendMajor(input))
  {
    var t := SelectTestType(Get(payload, "test_type")).value;
    var scores, keys := Get(payload, "scores"), ExpectedKeys(t);
    assert keys == KeysFor(Get(payload, "test_type"));
    assert ScoresComplete(scores, keys);
    assert HasAllKeys(scores, keys);
    var input := Project(scores, keys);
    assert AllValidNumbers(input);
    assert input == ValidatedInput(payload);
  }

  /** Only an accepted payload is sent on. */
  lemma JurusanSentIsAccepted(payload: JsValue, recommendMajor: seq<JsValue> -> Outcome)
    requires PrediksiJurusan(payload, recommendMajor).call.Some?
    ensures JurusanAccepts(payload)
  {
    var x := PrediksiJurusan(payload, recommendMajor);
    var t := SelectTestType(Get(payload, "test_type")).value;
    var scores, keys := Get(payload, "scores"), ExpectedKeys(t);
    assert keys == KeysFor(Get(payload, "test_type"));
    if scores.Arr? {
      JurusanArrayScores(payload, recommendMajor, t);
    }
    assert HasAllKeys(scores, keys);
    forall i | 0 <= i < |keys|
      ensures keys[i] in scores.fields && InScoreDomain(scores.fields[keys[i]])
    {
      assert x.call.value[i] == scores.fields[keys[i]];
    }
  }

  /** The collaborator is called exactly for the payloads JurusanAccepts
      describes, with the values in expected-key order, and the response is
      the relayed outcome of that call. */
  lemma JurusanAcceptance(payload: JsValue, recommendMajor: seq<JsValue> -> Outcome)
    ensures PrediksiJurusan(payload, recommendMajor).call.Some? <==> JurusanAccepts(payload)
    ensures JurusanAccepts(payload) ==>
              var input := ValidatedInput(payload);
              PrediksiJurusan(payload, recommendMajor) == Relay(input, recommendMajor(input))
  {
    if JurusanAccepts(payload) {
      JurusanAcceptedIsSent(payload, recommendMajor);
    }
    if PrediksiJurusan(payload, recommendMajor).call.Some? {
      JurusanSentIsAccepted(payload, recommendMajor);
    }
  }

  /** Concretely: a science payload whose eight fields are all 500 is sent
      on as eight 500s. */
  lemma AllFiveHundredScience(recommendMajor: seq<JsValue> -> Outcome)
    ensures var scores := map k | k in ScienceKeys :: Num(500.0);
            var payload := Obj(map["scores" := Obj(scores), "test_type" := Str("science")]);
            PrediksiJurusan(payload, recommendMajor).call == Some(seq(8, _ => Num(500.0)))
  {
    var scores := map k | k in ScienceKeys :: Num(500.0);
    var payload := Obj(map["scores" := Obj(scores), "test_type" := Str("science")]);
    assert JurusanAccepts(payload);
    JurusanAcceptance(payload, recommendMajor);
    assert ValidatedInput(payload) == seq(8, _ => Num(500.0));
  }

  /** The bounds are inclusive: scores of 0 and 1000 pass every check, and a
      field holding 0 is present although 0 is falsy. */
  lemma BoundsInclusive(recommendMajor: seq<JsValue> -> Outcome)
    ensures var scores := map k | k in ScienceKeys :: if k == "score_kpu" then Num(0.0) else Num(1000.0);
            var payload := Obj(map["scores" := Obj(scores), "test_type" := Str("science")]);
            PrediksiJurusan(payload, recommendMajor).call.Some?
  {
    var scores := map k | k in ScienceKeys :: if k == "score_kpu" then Num(0.0) else Num(1000.0);
    var payload := Obj(map["scores" := Obj(scores), "test_type" := Str("science")]);
    assert JurusanAccepts(payload);
    JurusanAcceptance(payload, recommendMajor);
  }

  /** Just past either bound fails at the range check. */
  lemma JustOutOfRange(recommendMajor: seq<JsValue> -> Outcome, v: real)
    requires v == 1000.0001 || v == -0.0001
    ensures var scores := map k | k in HumanitiesKeys :: if k == "score_eko" then Num(v) else Num(1.0);
            var payload := Obj(map["scores" := Obj(scores), "test_type" := Str("humanities")]);
            PrediksiJurusan(payload, recommendMajor) == Reject(ScoreRangeMessage)
  {
    var scores := map k | k in HumanitiesKeys :: if k == "score_eko" then Num(v) else Num(1.0);
    var payload := Obj(map["scores" := Obj(scores), "test_type" := Str("humanities")]);
    JurusanRangeCheck(payload, recommendMajor, Humanities, 8);
  }

  /** A field that is present but holds undefined passes the presence check
      and fails the number check. */
  lemma UndefinedFieldIsPresent(recommendMajor: seq<JsValue> -> Outcome)
    ensures var scores := map k | k in ScienceKeys :: if k == "score_bio" then Undefined else Num(1.0);
            var payload := Obj(map["scores" := Obj(scores), "test_type" := Str("science")]);
            PrediksiJurusan(payload, recommendMajor) == Reject(ScoreNotNumberMessage)
  {
    var scores := map k | k in ScienceKeys :: if k == "score_bio" then Undefined else Num(1.0);
    var payload := Obj(map["scores" := Obj(scores), "test_type" := Str("science")]);
    JurusanNumberCheck(payload, recommendMajor, Science, 7);
  }

  /** Infinity and -Infinity are numbers: they pass the number check and fail
      only at the range check. */
  lemma InfinityFailsAtRange(recommendMajor: seq<JsValue> -> Outcome, inf: JsValue)
    requires inf == PosInf || inf == NegInf
    ensures var scores := map k | k in ScienceKeys :: if k == "score_kpu" then inf else Num(1.0);
            var payload := Obj(map["scores" := Obj(scores), "test_type" := Str("science")]);
            PrediksiJurusan(payload, recommendMajor) == Reject(ScoreRangeMessage)
  {
    var scores := map k | k in ScienceKeys :: if k == "score_kpu" then inf else Num(1.0);
    var payload := Obj(map["scores" := Obj(scores), "test_type" := Str("science")]);
    JurusanRangeCheck(payload, recommendMajor, Science, 0);
  }

  // ---------------------------------------------------------------------
  // prediksiCareerHandler

  lemma CareerUndestructurable(payload: JsValue, predict: seq<JsValue> -> Outcome)
    requires payload.Null? || payload.Undefined?
    ensures PrediksiCareer(payload, predict) == ServerError(None, DestructureMessage("input", payload))
  {
  }

  /** The length message is the answer exactly when `input` is not an array
      of 16 values, whatever those values are. */
  lemma CareerShapeCheck(payload: JsValue, predict: seq<JsValue> -> Outcome)
    requires !payload.Null? && !payload.Undefined?
    ensures PrediksiCareer(payload, predict) == Reject(CareerShapeMessage)
            <==> !(Get(payload, "input").Arr? && |Get(payload, "input").elems| == 16)
  {
    MessageMarks();
  }

  /** An array of 16 is sent on exactly when every element is a number other
      than NaN; there is no range check, so infinities and values outside
      [0, 1000] are sent too. */
  lemma CareerAcceptance(payload: JsValue, predict: seq<JsValue> -> Outcome)
    requires !payload.Null? && !payload.Undefined?
    requires Get(payload, "input").Arr? && |Get(payload, "input").elems| == 16
    ensures var s := Get(payload, "input").elems;
            PrediksiCareer(payload, predict)
            == if forall i :: 0 <= i < 16 ==> s[i].Num? || s[i].PosInf? || s[i].NegInf?
               then Relay(s, predict(s))
               else Reject(CareerNotNumberMessage)
  {
    var s := Get(payload, "input").elems;
    forall i | 0 <= i < 16 ensures IsValidNumber(s[i]) <==> (s[i].Num? || s[i].PosInf? || s[i].NegInf?) {
      ValidNumberCases(s[i]);
    }
  }

  /** A collaborator that cannot be reached answers 500 with its message. */
  lemma CareerUpstreamFailure(payload: JsValue, predict: seq<JsValue> -> Outcome)
    requires PrediksiCareer(payload, predict).call.Some?
    requires predict(PrediksiCareer(payload, predict).call.value).Threw?
    ensures var x := PrediksiCareer(payload, predict);
            x.response == Response(500, Failure(predict(x.call.value).message))
  {
  }

  // ---------------------------------------------------------------------
  // Relaying the collaborator's outcome

  /** On a non-empty result both handlers report it unchanged with the lowest
      index of its maximum; an empty one reports index -1. */
  lemma SuccessEnvelope(input: seq<JsValue>, result: seq<real>)
    ensures var b := Relay(input, Returned(result)).response.body;
            && b.Prediction? && !b.Error() && b.prediction == result
            && (|result| == 0 ==> b.topPredictionIndex == -1)
            && (|result| > 0 ==>
                  && 0 <= b.topPredictionIndex < |result|
                  && (forall j :: 0 <= j < |result| ==> result[j] <= result[b.topPredictionIndex])
                  && (forall j :: 0 <= j < b.topPredictionIndex ==> result[j] != result[b.topPredictionIndex]))
  {
  }

  /** With recommendMajor.js as the collaborator, an upstream failure is a
      500 whose message is never empty. */
  lemma RecommendFailureMessage(payload: JsValue, http: seq<JsValue> -> HttpReply)
    requires JurusanAccepts(payload)
    requires http(ValidatedInput(payload)).HttpFailure?
    ensures var x := PrediksiJurusan(payload, RecommendOver(http));
            x.response.status == 500 && x.response.body.message != ""
  {
    JurusanAcceptance(payload, RecommendOver(http));
  }

  // ---------------------------------------------------------------------
  // The collaborator as handler.js actually imports it

  /** As written, the handler imports `recommendMajor` from a module that
      exports nothing: every payload that passes validation is answered 500
      "recommendMajor is not a function", and no payload gets a 200. */
  lemma JurusanAsImportedNeverSucceeds(payload: JsValue)
    ensures PrediksiJurusan(payload, RecommendAsImported).response.status != 200
    ensures JurusanAccepts(payload) ==>
              PrediksiJurusan(payload, RecommendAsImported).response == Response(500, Failure(NotAFunction))
  {
    JurusanAcceptance(payload, RecommendAsImported);
  }

  /** Wired to recommendMajor.js instead, an accepted payload is answered
      with the upstream's result vector and its top index. */
  lemma JurusanWiredRelaysUpstream(payload: JsValue, http: seq<JsValue> -> HttpReply)
    requires JurusanAccepts(payload)
    requires http(ValidatedInput(payload)).Data?
    ensures var x := PrediksiJurusan(payload, RecommendOver(http));
            var r := http(ValidatedInput(payload)).body;
            x.response == Response(200, Prediction(r, TopPredictionIndex(r)))
  {
    JurusanAcceptance(payload, RecommendOver(http));
  }
}
