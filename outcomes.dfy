/** Value wrappers shared by the model: an optional value, a result that is either
    a value or a raised Python exception, and the exception kinds that the
    chat handler distinguishes. */
module Outcomes {

  datatype Option<+T> = None | Some(value: T)

  /** The Python exceptions that reach the handler of `POST /chat`, by the class
      the handler's `except` clauses test for. */
  datatype Exception =
    | ValueError(message: string)     // includes a body that is not valid JSON
    | RuntimeError(message: string)
    | KeyError(key: string)           // a missing dictionary key
    | OtherError(message: string)     // any other exception class

  /** The text of an exception as the handler puts it into the detail: the
      message, or for a missing key the key quoted as Python's `repr` quotes it,
      in double quotes when it holds a single quote and no double quote. */
  function Str(e: Exception): (s: string)
    ensures !e.KeyError? ==> s == e.message
    ensures e.KeyError? ==> |s| == |e.key| + 2 && s[1..|s| - 1] == e.key && s[0] == s[|s| - 1]
    ensures e.KeyError? ==> (s[0] == '"' <==> '\'' in e.key && '"' !in e.key)
    ensures e.KeyError? ==> s[0] == '"' || s[0] == '\''
  {
    match e
    case ValueError(m) => m
    case RuntimeError(m) => m
    case KeyError(k) => var q := if '\'' in k && '"' !in k then "\"" else "'"; q + k + q
    case OtherError(m) => m
  }

  /** Either the value a Python expression returns or the exception it raises. */
  datatype Result<+T> = Ok(value: T) | Err(error: Exception)
}
