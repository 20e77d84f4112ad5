/** The exceptions the modelled code can raise, as values. */
module Errors {

  datatype Error =
      /** `ValueError` from `AnswerOption`: the value is not on the 1..5 scale. */
    | ValueOutOfRange(value: int)
      /** `ValueError` from `Question`: the area is not a RIASEC category;
          carries the offending area and the valid categories. */
    | InvalidArea(area: string, valid: seq<string>)
      /** `KeyError`: a subscript `obj[key]` on an object without that key. */
    | MissingKey(key: string)
      /** A member looked up under `key` is not of the JSON kind the record
          needs (or the container subscripted is not an object at all).
          This is the typed model's own error: Python either keeps such a
          value or raises `ValueError`, `TypeError` or `AttributeError`. */
    | WrongType(key: string)
      /** `EnvironmentError`: no explicit API key and `ONET_API_KEY` unset or empty. */
    | MissingApiKey
      /* The four transport errors below are never built by the model: they
         name what the network parameter `get` of `Fetch.FetchQuestions`
         may return, which `FetchQuestions` passes through unchanged. */
      /** `requests.HTTPError` from `raise_for_status`, with the status code. */
    | RequestFailed(status: int)
      /** `requests.ConnectionError`: the request never got a response. */
    | ConnectionFailed
      /** `requests.Timeout` that is not a connection error: no complete
          response arrived within the 30-second bound. */
    | RequestTimedOut
      /** The JSON decode error `response.json()` raises on a body that is
          not JSON text. */
    | ResponseNotJson
}
