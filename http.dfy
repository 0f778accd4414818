/**
 * The HTTP vocabulary of the prediction handler: the exceptions it can see,
 * the JSON response it builds, and what the client finally receives.
 */
module Http {

  /**
   * An exception raised inside the handler: FastAPI's HTTPException with its
   * status code and detail, or any other exception, kept as its `str()`.
   */
  datatype Exception =
    | HTTPException(statusCode: nat, detail: string)
    | Error(message: string)

  /** The JSON values the handler puts into a response body. */
  datatype JsonValue = JString(text: string) | JNumber(number: real)

  /** A JSONResponse: its body as an ordered list of keys and values, and its extra headers. */
  datatype JSONResponse = JSONResponse(content: seq<(string, JsonValue)>, headers: seq<(string, string)>)

  /** What the client receives: a 200 response, or an error status with its `detail`. */
  datatype Outcome =
    | Responded(response: JSONResponse)
    | Failed(statusCode: nat, detail: string)

  /** The keys of a response body, in order. */
  function Keys(content: seq<(string, JsonValue)>): (ks: seq<string>)
    ensures |ks| == |content|
    ensures forall i :: 0 <= i < |content| ==> ks[i] == content[i].0
  {
    seq(|content|, i requires 0 <= i < |content| => content[i].0)
  }
}
