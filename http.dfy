/** What the components see of an HTTP response: the status code and a
    parsed JSON body. JSON values are abstracted to the fields the error
    handling reads; a field that is absent or falsy is written "". */
module Http {
  import opened Text

  /** The address of the API every component talks to. */
  const ApiBase := "https://localhost:7092"

  /** `response.ok`: a status in the range 200-299. */
  predicate Ok(status: nat) {
    200 <= status <= 299
  }

  /** A JSON `errors` object (ASP.NET validation problem details): the
      values of its keys in order, each an array of messages, and its
      `JSON.stringify` text. */
  datatype Errors = Errors(values: seq<seq<string>>, literal: string)

  /** A parsed JSON body. Numbers and booleans are `JScalar`; arrays and
      objects are `JObject`, with the string fields the components read,
      the number of own keys, and the `JSON.stringify` text. */
  datatype Json =
    | JNull
    | JString(s: string)
    | JScalar(literal: string)
    | JObject(message: string, title: string, error: string, errors: Option<Errors>,
              keyCount: nat, literal: string)

  /** `JSON.stringify` of a parsed value (string escaping is not modelled). */
  function Stringify(j: Json): string {
    match j
    case JNull => "null"
    case JString(s) => "\"" + s + "\""
    case JScalar(l) => l
    case JObject(_, _, _, _, _, l) => l
  }

  /** `data?.message` for a parsed value: objects may carry one, every
      other value yields undefined. */
  function Message(j: Json): string {
    if j.JObject? then j.message else ""
  }

  /** `data?.title`. */
  function Title(j: Json): string {
    if j.JObject? then j.title else ""
  }
}
