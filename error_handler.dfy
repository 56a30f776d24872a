/** Best-effort extraction of a human-readable message from a caught error. */
module ErrorHandler {
  import opened Types

  /** One entry of a validation-error array, `{ msg, type? }`; `msg` may be missing. */
  datatype ValidationItem = ValidationItem(msg: Option<string>)

  /** The `detail` field: a plain string or an array of validation entries. */
  datatype Detail = DetailText(text: string) | DetailList(items: seq<ValidationItem>)

  /** The API's error payload, `response.data`. */
  datatype ErrorData = ErrorData(message: Option<string>, detail: Option<Detail>)

  /** An `error.response` value; its `data` may be missing. */
  datatype Response = Response(data: Option<ErrorData>)

  /** The caught value, of unknown type in the source:
      an `Error` instance (which may carry a `response`, as HTTP-client errors do),
      a non-null object with a `response` key (whose value may be null or undefined),
      or anything else (null, a primitive, an object without `response`). */
  datatype CaughtValue =
    | ErrorInstance(message: string, attached: Option<Response>)
    | ResponseObject(response: Option<Response>)
    | OtherValue

  const DEFAULT_MESSAGE := "Something went wrong"
  const VALIDATION_ERROR := "Validation error"

  /** JavaScript truthiness of an optional string: present and non-empty. */
  predicate Truthy(s: Option<string>)
  {
    s.Some? && s.value != ""
  }

  /** The `response.data` payload the extractor looks at, if there is one. */
  function DataOf(error: CaughtValue): Option<ErrorData>
  {
    match error
    case ResponseObject(Some(Response(Some(data)))) => Some(data)
    case _ => None
  }

  /** `defaultMsg`, which defaults to 'Something went wrong' when the caller passes none. */
  function Fallback(defaultMsg: Option<string>): string
  {
    if defaultMsg.Some? then defaultMsg.value else DEFAULT_MESSAGE
  }

  /** `getApiErrorMessage(error, defaultMsg)`. Total: every input yields a string. */
  function GetApiErrorMessage(error: CaughtValue, defaultMsg: Option<string>): (r: string)
    // An Error instance yields its own message, whatever else it carries.
    ensures error.ErrorInstance? ==> r == error.message
    // Without a response or without data, the result is the fallback.
    ensures !error.ErrorInstance? && DataOf(error).None? ==> r == Fallback(defaultMsg)
    // A non-empty data.message wins over any detail.
    ensures DataOf(error).Some? && Truthy(DataOf(error).value.message) ==> r == DataOf(error).value.message.value
    // Otherwise an array detail yields its first entry's non-empty msg, else 'Validation error'.
    ensures DataOf(error).Some? && !Truthy(DataOf(error).value.message)
            && DataOf(error).value.detail.Some? && DataOf(error).value.detail.value.DetailList?
            ==> var items := DataOf(error).value.detail.value.items;
                r == if items != [] && Truthy(items[0].msg) then items[0].msg.value else VALIDATION_ERROR
    // Otherwise a string detail yields itself when non-empty; an empty one falls through.
    ensures DataOf(error).Some? && !Truthy(DataOf(error).value.message)
            && DataOf(error).value.detail.Some? && DataOf(error).value.detail.value.DetailText?
            ==> var text := DataOf(error).value.detail.value.text;
                r == if text != "" then text else Fallback(defaultMsg)
    // No detail at all: the fallback.
    ensures DataOf(error).Some? && !Truthy(DataOf(error).value.message) && DataOf(error).value.detail.None?
            ==> r == Fallback(defaultMsg)
    // The result is empty only for an Error with an empty message or an empty default.
    ensures r == "" ==> (error.ErrorInstance? && error.message == "") || defaultMsg == Some("")
  {
    match error
    case ErrorInstance(message, _) => message
    case OtherValue => Fallback(defaultMsg)
    case ResponseObject(response) =>
      if response.None? || response.value.data.None? then Fallback(defaultMsg)
      else
        var data := response.value.data.value;
        if Truthy(data.message) then data.message.value
        else if data.detail.None? then Fallback(defaultMsg)
        else
          match data.detail.value
          case DetailList(items) =>
            if items != [] && Truthy(items[0].msg) then items[0].msg.value else VALIDATION_ERROR
          case DetailText(text) =>
            if text != "" then text else Fallback(defaultMsg)
  }
}
