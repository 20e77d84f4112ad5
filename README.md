# O*NET Interest Profiler question data: records, persistence, payload conversion

A Dafny model of the data layer that fetches the 60 O*NET Interest Profiler
questions, validates them and stores them as JSON. It has three parts:

- **Records** (`schemas.dfy`, module `Schemas`). An answer option is a value
  on the 1..5 Likert scale with a label. A question has an index, a text and
  one of the six Holland (RIASEC) interest areas. A question set holds both
  lists plus `total` and `dataset_id`. The frozen dataclasses become
  immutable datatypes. Their validating constructors become functions that
  return `Result<_, Error>`, and each error carries the offending value. The
  question set is the plain datatype constructor: it checks nothing.
- **Persistence** (`store.dfy`, module `Store`). `Encode` is `asdict`: one
  object with the keys `questions`, `answer_options`, `total` and
  `dataset_id`, and one flat object per record. `Decode` is the load path. It
  sends every member back through the validating constructors, in the
  source's evaluation order, and the first failure is the result. Documents
  are JSON value trees (`JsonValues.Json`), which is what `json.dump` writes
  and `json.load` returns.
- **Payload conversion** (`fetch.dfy`, module `Fetch`). This is the part of
  `fetch_questions` after the HTTP response is in hand. Each area goes
  through `str.capitalize`, modelled on ASCII, before validation. `total` is
  copied over. `dataset_id` is always `DATA-onet-ip60-v1`. API-key resolution
  takes the explicit key and the environment value as `Option<string>`
  parameters. The network client is a function parameter
  `get(key, start, end)` that returns the response body or the transport's
  error.

Shared pieces: `Results` (`Option`, `Result`, and `MapAll`, which is a list
comprehension whose element constructor may raise), `Errors` (the exceptions
as values) and `JsonValues` (the JSON tree and the `obj[key]` subscripts).

The model follows the code in two places where a looser reading is easy:

- An *empty* `ONET_API_KEY` is rejected just like a missing one.
- Errors are values of `Errors.Error`, with one constructor per cause rather
  than a coarser taxonomy of error kinds:
  - `ValueOutOfRange`: the `ValueError` of `AnswerOption` (value outside 1..5).
  - `InvalidArea`: the `ValueError` of `Question` (area not a RIASEC name).
  - `MissingKey`: the `KeyError` of a subscript `obj[key]`.
  - `WrongType`: the typed model's own error for a member of the wrong JSON
    kind. Python has no single exception for this: it keeps the value, or
    raises `ValueError`, `TypeError` or `AttributeError` (see "## Left out").
  - `MissingApiKey`: the `EnvironmentError` when no API key can be found.
  - `RequestFailed`: the `requests.HTTPError` of `raise_for_status`.
  - `ConnectionFailed`: `requests.ConnectionError`.
  - `RequestTimedOut`: `requests.Timeout`.
  - `ResponseNotJson`: the decode error of `response.json()`.

  The last four are never constructed by the model itself. They name what
  the network parameter `get` of `Fetch.FetchQuestions` may return.

## Model

| member | source | states |
|---|---|---|
| `Results.MapAll` | src/data/store.py:96-104 | A comprehension succeeds iff every element converts. On success it has the same length and order, and element i is the conversion of input i. On failure the error is the one raised by the first element that fails, and no partial list is returned. |
| `Schemas.RiasecAreasAreTheHollandCodes` | src/data/schemas.py:39-46 | There are exactly six areas, they are pairwise distinct, and as a set they equal {Realistic, Investigative, Artistic, Social, Enterprising, Conventional}. |
| `Schemas.NewAnswerOption` | src/data/schemas.py:71-78 | Succeeds iff 1 <= value <= 5. The option then holds exactly the given value and name. Otherwise the error is `ValueOutOfRange(value)`. |
| `Schemas.NewQuestion` | src/data/schemas.py:104-112 | Succeeds iff the area is one of the six RIASEC names, whatever the index and text. The question then holds the three inputs unchanged. Otherwise the error is `InvalidArea(area, RiasecAreas)`. |
| `Store.QuestionFromJson` | src/data/store.py:96-99 | Succeeds iff the member has an int `index`, a string `area` and a string `text`, and the area is a RIASEC name with no normalisation. The question then carries exactly those three values and is valid. |
| `Store.AnswerOptionFromJson` | src/data/store.py:101-104 | Succeeds iff the member has an int `value` in 1..5 and a string `name`. The option then carries exactly those two values. When both fields are present but the value is out of range, the error is `ValueOutOfRange` of that value. |
| `Store.Decode` | src/data/store.py:96-111 | A document loads iff both arrays are present, every member converts, and `total` and `dataset_id` are present with the right types. Extra keys are ignored. A document that loads gives a valid question set. Its question and option lists have the same length and order as the document's arrays, and each element is exactly what its member converts to. `total` and `dataset_id` are copied verbatim. |
| `Store.Encode` | src/data/store.py:67 | The saved document is an object with exactly the keys questions, answer_options, total and dataset_id. Each question becomes a flat object with exactly index, area and text, and each option one with exactly value and name, in the original order. |
| `Store.RoundTrip` | src/data/store.py:64-111 | For every valid question set, loading its saved document gives back the same set field for field. This includes empty lists and a `total` that differs from the number of questions. |
| `Store.DecodeEncodeOnlyYieldsTheSavedSet` | src/data/store.py:96-111 | A saved document loads iff the set is valid, and when it loads the result is the saved set. So a set with an invalid member never survives a save-and-load. |
| `Store.EncodeInjective` | src/data/store.py:67 | Two valid question sets with the same saved document are equal. |
| `Store.DecodeRejectsOutOfRangeValue` | src/data/store.py:101-104 | A document with an answer option whose value is outside 1..5 does not load. If the questions and the earlier options are well-formed and that option has a name, the error is exactly `ValueOutOfRange(v)`. |
| `Store.DecodeRejectsNonCanonicalArea` | src/data/store.py:96-99 | A document with a question whose area is not spelled exactly as a RIASEC name does not load. If the earlier questions are well-formed and this one has an index and a text, the error is exactly `InvalidArea(area, RiasecAreas)`. |
| `Store.DecodeRejectsLowerCaseArea` | src/data/store.py:96-99 | An instance of `DecodeRejectsNonCanonicalArea`: the fixture's first question, saved with the area "realistic", does not load back. |
| `Store.DecodeRequiresAllKeys` | src/data/store.py:96-111 | A document on which the subscript of any of the four top-level keys fails does not load. |
| `Fetch.Capitalize` | src/data/fetch_questions.py:108 | The result has the input's length and differs from it only in the case of letters. For a non-empty input it is a capitalised word: the first character is not a lower-case letter and no later character is an upper-case letter. |
| `Fetch.CapitalizeFixesArea` | src/data/fetch_questions.py:108 | Capitalising leaves each canonical RIASEC name unchanged. |
| `Fetch.CapitalizeIntoAreas` | src/data/fetch_questions.py:108 | For a RIASEC name a, capitalising s gives a iff s is an ASCII case variant of a. |
| `Fetch.CapitalizeIdempotent` | src/data/fetch_questions.py:108 | Capitalising twice is the same as capitalising once. |
| `Fetch.QuestionFromPayload` | src/data/fetch_questions.py:105-112 | Succeeds iff the member has an int `index`, a string `area` and a string `text`, and the capitalised area is a RIASEC name. The question then has that capitalised area and the index and text unchanged. |
| `Fetch.QuestionFromPayloadAcceptsCaseVariants` | src/data/fetch_questions.py:106-111 | Any payload question with an int `index`, a string `area` and a string `text`, whose area is a case variant of a RIASEC name, converts to the question with the canonical name and the same index and text. Other keys in the member do not matter. |
| `Fetch.QuestionFromPayloadRejectsOtherAreas` | src/data/fetch_questions.py:106-111 | A payload area that is a case variant of no RIASEC name fails with `InvalidArea` of its capitalised form. |
| `Fetch.ConvertPayload` | src/data/fetch_questions.py:42-124 | A payload converts iff both arrays are present, every member converts, and `total` is an int. Extra keys are ignored. A converted payload is valid and has `dataset_id` = `DATA-onet-ip60-v1`, whatever the payload holds. Its lists have the payload arrays' length and order, and each element is what its payload member converts to. `total` is copied unchanged. |
| `Fetch.ConvertRejectsInvalidMember` | src/data/fetch_questions.py:105-117 | One question with an unacceptable area, or one answer option outside 1..5, makes the whole conversion fail. |
| `Fetch.FetchedSetRoundTrips` | src/data/fetch_questions.py:119-124 | Every fetched question set survives a save and load unchanged. |
| `Fetch.EnvApiKey` | src/data/fetch_questions.py:55-61 | The environment key is accepted iff it is set and non-empty, and is then returned unchanged. Otherwise the error is `MissingApiKey`. |
| `Fetch.ResolveApiKey` | src/data/fetch_questions.py:90-91 | An explicit key is used as given whenever it is present, even when it is empty. Only when it is absent is the environment consulted. |
| `Fetch.FetchQuestions` | src/data/fetch_questions.py:90-124 | A key that cannot be resolved gives `MissingApiKey`, whatever the network would answer. Otherwise a transport error is passed through, or the response is converted. Every success is valid and carries the fixed `dataset_id`. |

## Left out

- HTTP request building is not modelled: URL, headers, user agent, the 30-second timeout, `raise_for_status` and `response.json()`. It is network-client behaviour. The function parameter `get` of `Fetch.FetchQuestions` stands for it and may return any `Error`. The errors of these lines are `RequestFailed` (`raise_for_status`), `ConnectionFailed` (`requests.ConnectionError`), `RequestTimedOut` (a `requests.Timeout` that is not a connection error) and `ResponseNotJson` (the decode error of `response.json()`).
- The default range `start=1, end=60` is not applied: `start` and `end` are ordinary arguments of `Fetch.FetchQuestions`, passed through to `get`.
- Reading `os.environ` and loading `.env` are process environment. The environment value is a parameter.
- File-system effects are not modelled: creating directories, opening, writing, overwriting, and the missing-file error on load. They are I/O. The default path constant is not modelled either.
- JSON text is not modelled: formatting (`indent=2`, `ensure_ascii=False`) and parsing, including the parse error on invalid text. Documents are value trees.
- JSON floats, booleans and `null` are not part of the `Json` type.
- `str.capitalize` is modelled on ASCII letters only, without full Unicode case mapping.
- Rejecting mutation of a frozen dataclass needs no model: datatypes are immutable.
- The command-line script and the package's re-exports are glue and are not modelled.
- Saving the same set twice gives the same document. This has no lemma: it holds because `Store.Encode` is a function of the set alone.
- Store.Decode: members of the wrong JSON kind are rejected with `WrongType`. Python instead stores a non-int `index`/`total` or a non-string `text`/`name`/`dataset_id` unchecked. A non-string `area` gives a `ValueError`, or an `AttributeError` on the fetch path. A non-numeric `value` gives a `TypeError`.
- Store.Decode: a `questions` or `answer_options` member that is not an array is rejected. Python would iterate a dictionary's keys or a string's characters instead, so an empty object or empty string would load as an empty list.
- Fetch.ConvertPayload: the same two deviations apply to the API payload's `question` and `answer_option` members and to its `total`. A non-int `total` is rejected with `WrongType`, where Python copies it unchecked.
