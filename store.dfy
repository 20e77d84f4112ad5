/** Persistence of a question set as a JSON document. Saving is `asdict`:
    every record becomes a flat object keyed by its field names. Loading
    sends every member back through the validating constructors, so a
    document that breaks an invariant is rejected as a whole. The file
    system and the JSON text format are outside the model; the document is
    the value tree `json.dump` writes and `json.load` returns. */
module Store {
  import opened Results
  import opened Errors
  import opened JsonValues
  import opened Schemas

  /** The keys of a saved document, named after the `QuestionSet` fields. */
  const DocumentKeys: set<string> := {"questions", "answer_options", "total", "dataset_id"}

  // ---- Saving (asdict) ----

  function QuestionToJson(q: Question): Json {
    JObject(map["index" := JInt(q.index), "area" := JString(q.area), "text" := JString(q.text)])
  }

  function AnswerOptionToJson(a: AnswerOption): Json {
    JObject(map["value" := JInt(a.value), "name" := JString(a.name)])
  }

  function QuestionsToJson(qs: seq<Question>): seq<Json> {
    seq(|qs|, i requires 0 <= i < |qs| => QuestionToJson(qs[i]))
  }

  function AnswerOptionsToJson(os: seq<AnswerOption>): seq<Json> {
    seq(|os|, i requires 0 <= i < |os| => AnswerOptionToJson(os[i]))
  }

  /** The document `save_questions` writes for a question set: exactly the
      four top-level keys, each record a flat object with exactly its own
      field names, the records in their original order. */
  function Encode(s: QuestionSet): (r: Json)
    ensures r.JObject? && r.fields.Keys == DocumentKeys
    ensures ArrayField(r, "questions").Ok?
    ensures var items := ArrayField(r, "questions").value;
      |items| == |s.questions|
      && forall i :: 0 <= i < |items| ==>
           && items[i].JObject? && items[i].fields.Keys == {"index", "area", "text"}
           && IntField(items[i], "index") == Ok(s.questions[i].index)
           && StringField(items[i], "area") == Ok(s.questions[i].area)
           && StringField(items[i], "text") == Ok(s.questions[i].text)
    ensures ArrayField(r, "answer_options").Ok?
    ensures var items := ArrayField(r, "answer_options").value;
      |items| == |s.answerOptions|
      && forall i :: 0 <= i < |items| ==>
           && items[i].JObject? && items[i].fields.Keys == {"value", "name"}
           && IntField(items[i], "value") == Ok(s.answerOptions[i].value)
           && StringField(items[i], "name") == Ok(s.answerOptions[i].name)
    ensures IntField(r, "total") == Ok(s.total)
    ensures StringField(r, "dataset_id") == Ok(s.datasetId)
  {
    JObject(map[
      "questions" := JArray(QuestionsToJson(s.questions)),
      "answer_options" := JArray(AnswerOptionsToJson(s.answerOptions)),
      "total" := JInt(s.total),
      "dataset_id" := JString(s.datasetId)])
  }

  // ---- Loading ----

  /** `Question(index=q["index"], area=q["area"], text=q["text"])`: the three
      subscripts are taken in order, then the constructor validates. */
  function QuestionFromJson(j: Json): (r: Result<Question, Error>)
    ensures r.Ok? <==> && IntField(j, "index").Ok? && StringField(j, "area").Ok?
                       && StringField(j, "text").Ok? && StringField(j, "area").value in RiasecAreas
    ensures r.Ok? ==> && ValidQuestion(r.value)
                      && IntField(j, "index") == Ok(r.value.index)
                      && StringField(j, "area") == Ok(r.value.area)
                      && StringField(j, "text") == Ok(r.value.text)
  {
    var index :- IntField(j, "index");
    var area :- StringField(j, "area");
    var text :- StringField(j, "text");
    NewQuestion(index, area, text)
  }

  /** `AnswerOption(value=opt["value"], name=opt["name"])`. */
  function AnswerOptionFromJson(j: Json): (r: Result<AnswerOption, Error>)
    ensures r.Ok? <==> && IntField(j, "value").Ok? && StringField(j, "name").Ok?
                       && 1 <= IntField(j, "value").value <= 5
    ensures r.Ok? ==> && ValidAnswerOption(r.value)
                      && IntField(j, "value") == Ok(r.value.value)
                      && StringField(j, "name") == Ok(r.value.name)
    ensures IntField(j, "value").Ok? && StringField(j, "name").Ok? && r.Err? ==>
              r.error == ValueOutOfRange(IntField(j, "value").value)
  {
    var value :- IntField(j, "value");
    var name :- StringField(j, "name");
    NewAnswerOption(value, name)
  }

  /** The question set `load_questions` rebuilds from a document: questions
      first, then answer options, then `total` and `dataset_id`, each taken
      verbatim; the first failure is the result. */
  function Decode(doc: Json): (r: Result<QuestionSet, Error>)
    ensures r.Ok? <==>
      && ArrayField(doc, "questions").Ok?
      && (forall i :: 0 <= i < |ArrayField(doc, "questions").value| ==>
            QuestionFromJson(ArrayField(doc, "questions").value[i]).Ok?)
      && ArrayField(doc, "answer_options").Ok?
      && (forall i :: 0 <= i < |ArrayField(doc, "answer_options").value| ==>
            AnswerOptionFromJson(ArrayField(doc, "answer_options").value[i]).Ok?)
      && IntField(doc, "total").Ok?
      && StringField(doc, "dataset_id").Ok?
    ensures r.Ok? ==> ValidQuestionSet(r.value)
    ensures r.Ok? ==>
      && ArrayField(doc, "questions").Ok?
      && var items := ArrayField(doc, "questions").value;
         |items| == |r.value.questions|
         && forall i :: 0 <= i < |items| ==> QuestionFromJson(items[i]) == Ok(r.value.questions[i])
    ensures r.Ok? ==>
      && ArrayField(doc, "answer_options").Ok?
      && var items := ArrayField(doc, "answer_options").value;
         |items| == |r.value.answerOptions|
         && forall i :: 0 <= i < |items| ==> AnswerOptionFromJson(items[i]) == Ok(r.value.answerOptions[i])
    ensures r.Ok? ==> IntField(doc, "total") == Ok(r.value.total)
    ensures r.Ok? ==> StringField(doc, "dataset_id") == Ok(r.value.datasetId)
  {
    var qs :- ArrayField(doc, "questions");
    var questions :- MapAll(qs, QuestionFromJson);
    var os :- ArrayField(doc, "answer_options");
    var options :- MapAll(os, AnswerOptionFromJson);
    var total :- IntField(doc, "total");
    var datasetId :- StringField(doc, "dataset_id");
    Ok(QuestionSet(questions, options, total, datasetId))
  }

  // ---- Properties ----

  /** Loading what was saved gives back the same question set, field for
      field and in order, for every valid set: empty lists and a `total`
      that differs from the number of questions included. */
  lemma {:induction false} RoundTrip(s: QuestionSet)
    requires ValidQuestionSet(s)
    ensures Decode(Encode(s)) == Ok(s)
  {
    var doc := Encode(s);
    var qs := QuestionsToJson(s.questions);
    var os := AnswerOptionsToJson(s.answerOptions);
    assert ArrayField(doc, "questions") == Ok(qs);
    assert ArrayField(doc, "answer_options") == Ok(os);
    forall i | 0 <= i < |qs| ensures QuestionFromJson(qs[i]) == Ok(s.questions[i]) {
      assert qs[i] == QuestionToJson(s.questions[i]);
    }
    MapAllPointwise(qs, QuestionFromJson, s.questions);
    forall i | 0 <= i < |os| ensures AnswerOptionFromJson(os[i]) == Ok(s.answerOptions[i]) {
      assert os[i] == AnswerOptionToJson(s.answerOptions[i]);
    }
    MapAllPointwise(os, AnswerOptionFromJson, s.answerOptions);
  }

  /** Whatever loads from a saved document is the set that was saved, so a
      set with an invalid member cannot be saved and loaded back. */
  lemma {:induction false} DecodeEncodeOnlyYieldsTheSavedSet(s: QuestionSet)
    ensures Decode(Encode(s)).Ok? ==> Decode(Encode(s)).value == s
    ensures Decode(Encode(s)).Ok? <==> ValidQuestionSet(s)
  {
    if ValidQuestionSet(s) { RoundTrip(s); }
  }

  /** Distinct valid question sets are saved as distinct documents. */
  lemma EncodeInjective(s: QuestionSet, t: QuestionSet)
    requires ValidQuestionSet(s) && ValidQuestionSet(t)
    ensures Encode(s) == Encode(t) ==> s == t
  {
    RoundTrip(s);
    RoundTrip(t);
  }

  /** A document listing an answer option whose value is off the 1..5 scale
      does not load, and no partial question set is produced. When the
      questions and the earlier answer options are well-formed, the error is
      the `ValueError` for that value. */
  lemma {:induction false} DecodeRejectsOutOfRangeValue(doc: Json, i: nat, v: int)
    requires ArrayField(doc, "answer_options").Ok?
    requires i < |ArrayField(doc, "answer_options").value|
    requires IntField(ArrayField(doc, "answer_options").value[i], "value") == Ok(v)
    requires !(1 <= v <= 5)
    ensures Decode(doc).Err?
    ensures && ArrayField(doc, "questions").Ok?
            && MapAll(ArrayField(doc, "questions").value, QuestionFromJson).Ok?
            && StringField(ArrayField(doc, "answer_options").value[i], "name").Ok?
            && (forall k :: 0 <= k < i ==>
                  AnswerOptionFromJson(ArrayField(doc, "answer_options").value[k]).Ok?)
            ==> Decode(doc) == Err(ValueOutOfRange(v))
  {

  }

  /** Loading does not normalise areas: a question whose area is not spelled
      exactly as a RIASEC category (such as "realistic") makes the document
      fail to load. When the earlier questions are well-formed and this one
      has an index and a text, the error is the `ValueError` for that area. */
  lemma {:induction false} DecodeRejectsNonCanonicalArea(doc: Json, i: nat, area: string)
    requires ArrayField(doc, "questions").Ok?
    requires i < |ArrayField(doc, "questions").value|
    requires StringField(ArrayField(doc, "questions").value[i], "area") == Ok(area)
    requires area !in RiasecAreas
    ensures Decode(doc).Err?
    ensures && IntField(ArrayField(doc, "questions").value[i], "index").Ok?
            && StringField(ArrayField(doc, "questions").value[i], "text").Ok?
            && (forall k :: 0 <= k < i ==>
                  QuestionFromJson(ArrayField(doc, "questions").value[k]).Ok?)
            ==> Decode(doc) == Err(InvalidArea(area, RiasecAreas))
  {

  }

  /** An instance of `DecodeRejectsNonCanonicalArea`: the first question of
      the test fixture, saved with its area in lower case, does not load back. */
  lemma DecodeRejectsLowerCaseArea()
    ensures Decode(Encode(QuestionSet([Question(1, "realistic", "Build kitchen cabinets")], [],
                                      1, "DATA-onet-ip60-v1"))).Err?
  {

  }

  /** A document that lacks one of the four top-level keys does not load. */
  lemma DecodeRequiresAllKeys(doc: Json, key: string)
    requires key in DocumentKeys
    requires Field(doc, key).Err?
    ensures Decode(doc).Err?
  {
  }
}
