/** The validated records of the O*NET Interest Profiler data: answer options
    on a 1..5 Likert scale, questions tagged with one of the six Holland
    (RIASEC) interest areas, and the question set that holds both. Each
    record is an immutable value; the validating constructors of the frozen
    dataclasses become functions returning a `Result`. */
module Schemas {
  import opened Results
  import opened Errors

  /** The six Holland codes, in their canonical spelling and order. */
  const RiasecAreas: seq<string> :=
    ["Realistic", "Investigative", "Artistic", "Social", "Enterprising", "Conventional"]

  datatype AnswerOption = AnswerOption(value: int, name: string)

  datatype Question = Question(index: int, area: string, text: string)

  /** A plain container: building one never fails and checks nothing, not
      even `total` against the number of questions. */
  datatype QuestionSet = QuestionSet(
    questions: seq<Question>,
    answerOptions: seq<AnswerOption>,
    total: int,
    datasetId: string)

  predicate ValidAnswerOption(a: AnswerOption) {
    1 <= a.value <= 5
  }

  predicate ValidQuestion(q: Question) {
    q.area in RiasecAreas
  }

  /** What a question set built from constructed members satisfies: every
      member passed its constructor's check. */
  predicate ValidQuestionSet(s: QuestionSet) {
    && (forall i :: 0 <= i < |s.questions| ==> ValidQuestion(s.questions[i]))
    && (forall i :: 0 <= i < |s.answerOptions| ==> ValidAnswerOption(s.answerOptions[i]))
  }

  /** The six areas are distinct and are exactly the Holland codes. */
  lemma RiasecAreasAreTheHollandCodes()
    ensures |RiasecAreas| == 6
    ensures forall i, j :: 0 <= i < j < |RiasecAreas| ==> RiasecAreas[i] != RiasecAreas[j]
    ensures (set a | a in RiasecAreas) ==
            {"Realistic", "Investigative", "Artistic", "Social", "Enterprising", "Conventional"}
  {
  }

  /** `AnswerOption(value, name)`: succeeds exactly on the Likert range and
      then holds the given value and name unchanged; otherwise raises with
      the offending value. */
  function NewAnswerOption(value: int, name: string): (r: Result<AnswerOption, Error>)
    ensures r.Ok? <==> 1 <= value <= 5
    ensures r.Ok? ==> r.value.value == value && r.value.name == name && ValidAnswerOption(r.value)
    ensures r.Err? ==> r.error == ValueOutOfRange(value)
  {
    if 1 <= value <= 5 then Ok(AnswerOption(value, name)) else Err(ValueOutOfRange(value))
  }

  /** `Question(index, area, text)`: succeeds exactly when the area is a
      RIASEC category, whatever the index and text, and then holds all three
      unchanged; otherwise raises with the offending area and the valid set. */
  function NewQuestion(index: int, area: string, text: string): (r: Result<Question, Error>)
    ensures r.Ok? <==> area in RiasecAreas
    ensures r.Ok? ==> r.value == Question(index, area, text) && ValidQuestion(r.value)
    ensures r.Err? ==> r.error == InvalidArea(area, RiasecAreas)
  {
    if area in RiasecAreas then Ok(Question(index, area, text))
    else Err(InvalidArea(area, RiasecAreas))
  }
}
