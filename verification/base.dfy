/**
 Shared vocabulary of the model: optional values, failure-compatible results,
 JSON documents as the Python code receives them, the exceptions the code can
 raise, and substring search on text.
 */
module Base {

  datatype Option<+T> = None | Some(value: T)

  /** A value or an error; usable with `:-`. */
  datatype Result<+T, +E> = Ok(value: T) | Err(error: E) {

    predicate IsFailure() {
      Err?
    }

    function PropagateFailure<U>(): Result<U, E>
      requires Err?
    {
      Err(error)
    }

    function Extract(): T
      requires Ok?
    {
      value
    }
  }

  /** A decoded JSON document (floating-point numbers are not modelled). */
  datatype Json =
    | JNull
    | JBool(b: bool)
    | JInt(i: int)
    | JStr(s: string)
    | JArr(items: seq<Json>)
    | JObj(fields: map<string, Json>)

  /** The exceptions that leave a component, one constructor per kind. */
  datatype Fault =
    | HttpStatusError(status: int)      // httpx.HTTPStatusError
    | TransportError                    // httpx.RequestError (timeouts, refused connections)
    | BadBody                           // a 2xx body that is not JSON or lacks an expected key
    | KeyMissing(key: string)           // KeyError on a configuration or secret entry
    | InvalidResource(name: string)     // ResourceValidationError from the cluster client
    | ValidationFailed(message: string) // pydantic ValidationError
    | ServiceConfiguration              // ServiceConfigurationException from a provider
    | AttributeMissing                  // AttributeError

  predicate IsPrefix(p: string, s: string) {
    |p| <= |s| && s[..|p|] == p
  }

  /** Python's `sub in s`. */
  predicate Occurs(sub: string, s: string)
    decreases |s|
  {
    IsPrefix(sub, s) || (|s| > 0 && Occurs(sub, s[1..]))
  }

  /** Whatever surrounds it, a text occurs inside a concatenation that contains it. */
  lemma {:induction false} OccursInside(before: string, sub: string, after: string)
    ensures Occurs(sub, before + sub + after)
    decreases |before|
  {
    if |before| == 0 {
      assert before + sub + after == sub + after;
      assert (sub + after)[..|sub|] == sub;
    } else {
      assert (before + sub + after)[1..] == before[1..] + sub + after;
      OccursInside(before[1..], sub, after);
    }
  }
}
