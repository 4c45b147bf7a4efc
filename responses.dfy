/**
 * What the client receives from the remote API, as values: a response body
 * of JSON shape (`response.data`), and the axios error a failed request
 * rejects with. The server itself is not modelled.
 */
module Responses {
  import opened Base

  /**
   * A JSON value as JavaScript sees it, with the elements of arrays of type
   * `T` (the records a list endpoint returns); `Undefined` is a missing value.
   */
  datatype Json<T> =
    | Undefined
    | Null
    | Bool(b: bool)
    | Num(n: int)
    | Str(s: string)
    | Arr(items: seq<T>)
    | Obj(fields: map<string, Json<T>>)

  /** JavaScript truthiness: arrays and objects are truthy even when empty. */
  predicate JsTruthy<T>(j: Json<T>)
  {
    match j
    case Undefined => false
    case Null => false
    case Bool(b) => b
    case Num(n) => n != 0
    case Str(s) => s != ""
    case Arr(_) => true
    case Obj(_) => true
  }

  /** `null` and `undefined`, on which reading a property throws. */
  predicate Nullish<T>(j: Json<T>)
  {
    j.Undefined? || j.Null?
  }

  /** `j.key` on a value that is not nullish: a missing property is `undefined`. */
  function Get<T>(j: Json<T>, key: string): (r: Json<T>)
    requires !Nullish(j)
    ensures !j.Obj? ==> r.Undefined?
  {
    if j.Obj? && key in j.fields then j.fields[key] else Undefined
  }

  /** One field's messages in a validation reply's `errors` object, in key order. */
  datatype FieldErrors = FieldErrors(field: string, messages: seq<string>)

  /** The parts of an error reply's body the pages read: `message` and `errors`. */
  datatype ErrorBody = ErrorBody(message: Option<string>, errors: Option<seq<FieldErrors>>)

  /** `error.response`: the status and the body, which may be missing. */
  datatype HttpResponse = HttpResponse(status: int, data: Option<ErrorBody>)

  /**
   * A rejected axios request: `response` when the server answered, `request`
   * when a request went out, and the error's own `message`.
   */
  datatype AxiosError = AxiosError(response: Option<HttpResponse>, request: bool, message: Option<string>)

  /** `error.response?.data?.message`, when truthy. */
  function ServerMessage(e: AxiosError): (r: Option<string>)
    ensures r.Some? ==> r.value != "" && e.response.Some?
  {
    if e.response.Some? && e.response.value.data.Some? && Truthy(e.response.value.data.value.message)
    then e.response.value.data.value.message
    else None
  }
}
