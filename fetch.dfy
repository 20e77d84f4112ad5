/** Turning the O*NET Interest Profiler API's payload into a validated
    question set, and choosing the API key the request is sent with. The
    HTTP request itself is a parameter: whatever the network client returns
    for the resolved key and the requested range. */
module Fetch {
  import opened Results
  import opened Errors
  import opened JsonValues
  import opened Schemas
  import Store

  /** The version tag every fetched set carries, whatever the API reports. */
  const DatasetId: string := "DATA-onet-ip60-v1"

  // ---- ASCII case mapping (str.capitalize restricted to ASCII) ----

  predicate IsUpper(c: char) { 'A' <= c <= 'Z' }
  predicate IsLower(c: char) { 'a' <= c <= 'z' }

  function ToUpper(c: char): char {
    if IsLower(c) then (c as int - 32) as char else c
  }

  function ToLower(c: char): char {
    if IsUpper(c) then (c as int + 32) as char else c
  }

  function LowerString(s: string): string {
    if s == [] then [] else [ToLower(s[0])] + LowerString(s[1..])
  }

  /** `s` and `t` differ at most in the case of their letters. */
  predicate CaseVariant(s: string, t: string) {
    LowerString(s) == LowerString(t)
  }

  lemma {:induction false} LowerStringIdempotent(s: string)
    ensures LowerString(LowerString(s)) == LowerString(s)
  {
    if s != [] {
      LowerStringIdempotent(s[1..]);
      assert LowerString(s)[1..] == LowerString(s[1..]);
    }
  }

  predicate NoUpper(s: string) {
    forall i :: 0 <= i < |s| ==> !IsUpper(s[i])
  }

  /** A word whose first character is not a lower-case letter and whose
      other characters are not upper-case letters. */
  predicate IsCapitalized(s: string) {
    |s| > 0 && !IsLower(s[0]) && forall i :: 1 <= i < |s| ==> !IsUpper(s[i])
  }

  /** `s.capitalize()`: the first character upper case, the rest lower case.
      The result differs from `s` only in the case of letters and is a
      capitalised word (or empty, for the empty string). */
  function Capitalize(s: string): (r: string)
    ensures |r| == |s|
    ensures CaseVariant(r, s)
    ensures s != [] ==> IsCapitalized(r)
  {
    if s == [] then []
    else
      LowerStringIdempotent(s[1..]);
      LowerStringNoUpper(s[1..]);
      var r := [ToUpper(s[0])] + LowerString(s[1..]);
      assert r[1..] == LowerString(s[1..]);
      r
  }

  lemma {:induction false} LowerStringNoUpper(s: string)
    ensures |LowerString(s)| == |s|
    ensures NoUpper(LowerString(s))
  {
    if s != [] {
      LowerStringNoUpper(s[1..]);
      assert LowerString(s)[1..] == LowerString(s[1..]);
    }
  }

  /** Capitalising looks only at the lower-case form: case variants
      capitalise alike. */
  lemma {:induction false} CapitalizeOfLower(s: string)
    ensures Capitalize(LowerString(s)) == Capitalize(s)
  {
    if s != [] {
      assert LowerString(s)[1..] == LowerString(s[1..]);
      LowerStringIdempotent(s[1..]);
    }
  }

  /** Capitalising twice is capitalising once. */
  lemma CapitalizeIdempotent(s: string)
    ensures Capitalize(Capitalize(s)) == Capitalize(s)
  {
    CapitalizeOfLower(Capitalize(s));
    CapitalizeOfLower(s);
  }

  lemma {:induction false} LowerStringFixes(s: string)
    requires NoUpper(s)
    ensures LowerString(s) == s
  {
    if s != [] { LowerStringFixes(s[1..]); }
  }

  /** A capitalised word is a fixed point of capitalisation. */
  lemma CapitalizeFixesCapitalized(s: string)
    requires IsCapitalized(s)
    ensures Capitalize(s) == s
  {
    assert NoUpper(s[1..]);
    LowerStringFixes(s[1..]);
  }

  /** Every canonical RIASEC name is left as it is. */
  lemma CapitalizeFixesArea(a: string)
    requires a in RiasecAreas
    ensures Capitalize(a) == a
  {
    assert forall k :: 0 <= k < |RiasecAreas| ==> IsCapitalized(RiasecAreas[k]);
    CapitalizeFixesCapitalized(a);
  }

  /** Capitalising yields a RIASEC name exactly when the input is a case
      variant of one, and then it yields that name. */
  lemma CapitalizeIntoAreas(s: string, a: string)
    requires a in RiasecAreas
    ensures Capitalize(s) == a <==> CaseVariant(s, a)
  {
    CapitalizeFixesArea(a);
    if CaseVariant(s, a) {
      CapitalizeOfLower(s);
      CapitalizeOfLower(a);
    }
  }

  // ---- Payload conversion ----

  /** `Question(index=q["index"], area=q["area"].capitalize(), text=q["text"])`. */
  function QuestionFromPayload(j: Json): (r: Result<Question, Error>)
    ensures r.Ok? <==> && IntField(j, "index").Ok? && StringField(j, "area").Ok?
                       && StringField(j, "text").Ok?
                       && Capitalize(StringField(j, "area").value) in RiasecAreas
    ensures r.Ok? ==> && ValidQuestion(r.value)
                      && IntField(j, "index") == Ok(r.value.index)
                      && StringField(j, "area").Ok?
                      && r.value.area == Capitalize(StringField(j, "area").value)
                      && StringField(j, "text") == Ok(r.value.text)
  {
    var index :- IntField(j, "index");
    var area :- StringField(j, "area");
    var text :- StringField(j, "text");
    NewQuestion(index, Capitalize(area), text)
  }

  /** The question set built from a successful API response: questions under
      `question`, answer options under `answer_option`, `total` copied and
      `dataset_id` set to the fixed constant. */
  function ConvertPayload(data: Json): (r: Result<QuestionSet, Error>)
    ensures r.Ok? <==>
      && ArrayField(data, "question").Ok?
      && (forall i :: 0 <= i < |ArrayField(data, "question").value| ==>
            QuestionFromPayload(ArrayField(data, "question").value[i]).Ok?)
      && ArrayField(data, "answer_option").Ok?
      && (forall i :: 0 <= i < |ArrayField(data, "answer_option").value| ==>
            Store.AnswerOptionFromJson(ArrayField(data, "answer_option").value[i]).Ok?)
      && IntField(data, "total").Ok?
    ensures r.Ok? ==> r.value.datasetId == DatasetId && ValidQuestionSet(r.value)
    ensures r.Ok? ==>
      && ArrayField(data, "question").Ok?
      && var items := ArrayField(data, "question").value;
         |items| == |r.value.questions|
         && forall i :: 0 <= i < |items| ==> QuestionFromPayload(items[i]) == Ok(r.value.questions[i])
    ensures r.Ok? ==>
      && ArrayField(data, "answer_option").Ok?
      && var items := ArrayField(data, "answer_option").value;
         |items| == |r.value.answerOptions|
         && forall i :: 0 <= i < |items| ==> Store.AnswerOptionFromJson(items[i]) == Ok(r.value.answerOptions[i])
    ensures r.Ok? ==> IntField(data, "total") == Ok(r.value.total)
  {
    var qs :- ArrayField(data, "question");
    var questions :- MapAll(qs, QuestionFromPayload);
    var os :- ArrayField(data, "answer_option");
    var options :- MapAll(os, Store.AnswerOptionFromJson);
    var total :- IntField(data, "total");
    Ok(QuestionSet(questions, options, total, DatasetId))
  }

  /** A payload question whose area is any case variant of a RIASEC name is
      accepted and stored under the canonical name, with its index and text
      unchanged. */
  lemma QuestionFromPayloadAcceptsCaseVariants(j: Json, a: string)
    requires IntField(j, "index").Ok? && StringField(j, "area").Ok? && StringField(j, "text").Ok?
    requires a in RiasecAreas && CaseVariant(StringField(j, "area").value, a)
    ensures QuestionFromPayload(j)
            == Ok(Question(IntField(j, "index").value, a, StringField(j, "text").value))
  {
    CapitalizeIntoAreas(StringField(j, "area").value, a);
  }

  /** A payload area that is no case variant of any RIASEC name is rejected
      with the `ValueError` for its capitalised form. */
  lemma QuestionFromPayloadRejectsOtherAreas(j: Json)
    requires IntField(j, "index").Ok? && StringField(j, "area").Ok? && StringField(j, "text").Ok?
    requires forall a :: a in RiasecAreas ==> !CaseVariant(StringField(j, "area").value, a)
    ensures QuestionFromPayload(j) == Err(InvalidArea(Capitalize(StringField(j, "area").value), RiasecAreas))
  {
    var area := StringField(j, "area").value;
    if Capitalize(area) in RiasecAreas {
      CapitalizeIntoAreas(area, Capitalize(area));
      assert false;
    }
  }

  /** One payload question that fits no area, or one answer option off the
      1..5 scale, makes the whole conversion fail. */
  lemma {:induction false} ConvertRejectsInvalidMember(data: Json)
    requires
      || (&& ArrayField(data, "question").Ok?
          && exists i :: 0 <= i < |ArrayField(data, "question").value|
               && QuestionFromPayload(ArrayField(data, "question").value[i]).Err?)
      || (&& ArrayField(data, "answer_option").Ok?
          && exists i :: 0 <= i < |ArrayField(data, "answer_option").value|
               && Store.AnswerOptionFromJson(ArrayField(data, "answer_option").value[i]).Err?)
    ensures ConvertPayload(data).Err?
  {
  }

  /** A fetched question set can be saved and loaded back unchanged. */
  lemma FetchedSetRoundTrips(data: Json)
    requires ConvertPayload(data).Ok?
    ensures Store.Decode(Store.Encode(ConvertPayload(data).value)) == ConvertPayload(data)
  {
    Store.RoundTrip(ConvertPayload(data).value);
  }

  // ---- API key resolution ----

  /** `_get_api_key`: the value of `ONET_API_KEY`, which must be set and non-empty. */
  function EnvApiKey(env: Option<string>): (r: Result<string, Error>)
    ensures r.Ok? <==> env.Some? && env.value != ""
    ensures r.Ok? ==> r.value == env.value
    ensures r.Err? ==> r.error == MissingApiKey
  {
    if env.None? || env.value == "" then Err(MissingApiKey) else Ok(env.value)
  }

  /** An explicit key is used whenever one is given, even the empty key;
      only in its absence is the environment consulted. */
  function ResolveApiKey(apiKey: Option<string>, env: Option<string>): (r: Result<string, Error>)
    ensures apiKey.Some? ==> r == Ok(apiKey.value)
    ensures apiKey.None? ==> r == EnvApiKey(env)
  {
    if apiKey.Some? then Ok(apiKey.value) else EnvApiKey(env)
  }

  /** `fetch_questions(api_key, start, end)`, with the network client as
      `get(key, start, end)`: the response body or the transport's error
      (`RequestFailed`, `ConnectionFailed`, `RequestTimedOut` or
      `ResponseNotJson`, which only `get` produces). A key that cannot be
      resolved fails before `get` is consulted. */
  function FetchQuestions(apiKey: Option<string>, env: Option<string>, start: int, end: int,
                          get: (string, int, int) -> Result<Json, Error>): (r: Result<QuestionSet, Error>)
    ensures ResolveApiKey(apiKey, env).Err? ==> r == Err(MissingApiKey)
    ensures ResolveApiKey(apiKey, env).Ok? ==>
      var key := ResolveApiKey(apiKey, env).value;
      && (get(key, start, end).Err? ==> r == Err(get(key, start, end).error))
      && (get(key, start, end).Ok? ==> r == ConvertPayload(get(key, start, end).value))
    ensures r.Ok? ==> r.value.datasetId == DatasetId && ValidQuestionSet(r.value)
  {
    var key :- ResolveApiKey(apiKey, env);
    var data :- get(key, start, end);
    ConvertPayload(data)
  }
}
