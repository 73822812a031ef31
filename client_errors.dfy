/** The web client's error classes (frontend/src/client/error.ts) as
    values: the class, `name`, `message` and, for HTTP errors,
    `statusCode`. Each constructor is replayed in order: the base
    constructor sets the formatted message, then the subclass overwrites
    `name` and `message`. Also the values a `catch` can receive and the
    client's rule for turning them into client errors. */
module ClientErrors {
  import opened Results

  datatype ErrorClass = BaseClientError | HTTPClientError | JSONClientError

  datatype ClientError = ClientError(errorClass: ErrorClass, name: string, message: string, statusCode: Option<int>)

  function DigitChar(d: nat): (c: char)
    requires d < 10
    ensures '0' <= c <= '9'
  {
    "0123456789"[d]
  }

  /** Decimal rendering of a number in a template string. */
  function NatToString(n: nat): (s: string)
    ensures |s| >= 1
    ensures forall i :: 0 <= i < |s| ==> '0' <= s[i] <= '9'
    decreases n
  {
    if n < 10 then [DigitChar(n)] else NatToString(n / 10) + [DigitChar(n % 10)]
  }

  function IntToString(i: int): (s: string)
    ensures |s| >= 1 && (s[0] == '-' <==> i < 0)
  {
    if i < 0 then "-" + NatToString(-i) else NatToString(i)
  }

  /** `new A2AClientError(message)`. */
  function NewClientError(message: string): (e: ClientError)
    ensures e.errorClass == BaseClientError
    ensures e.name == "A2AClientError" && e.message == message && e.statusCode.None?
  {
    ClientError(BaseClientError, "A2AClientError", message, None)
  }

  /** `new A2AClientHTTPError(statusCode, message)`: the formatted message
      of the base constructor is overwritten by the raw one. */
  function NewHTTPError(statusCode: int, message: string): (e: ClientError)
    ensures e.errorClass == HTTPClientError
    ensures e.name == "A2AClientHTTPError" && e.statusCode == Some(statusCode) && e.message == message
  {
    var base := NewClientError("HTTP Error " + IntToString(statusCode) + ": " + message);
    base.(errorClass := HTTPClientError, name := "A2AClientHTTPError", statusCode := Some(statusCode), message := message)
  }

  /** `new A2AClientJSONError(message)`: same overwrite of the message. */
  function NewJSONError(message: string): (e: ClientError)
    ensures e.errorClass == JSONClientError
    ensures e.name == "A2AClientJSONError" && e.message == message && e.statusCode.None?
  {
    var base := NewClientError("JSON Error: " + message);
    base.(errorClass := JSONClientError, name := "A2AClientJSONError", message := message)
  }

  /** A value caught by a `catch`: one of the client's errors, or any other
      value, reduced to `e instanceof Error ? e.message : String(e)`. */
  datatype Thrown = ClientThrown(error: ClientError) | OtherThrown(message: string)

  function ThrownMessage(t: Thrown): string
  {
    match t
    case ClientThrown(e) => e.message
    case OtherThrown(m) => m
  }

  /** The outer `catch` of the client's network calls: client errors are
      rethrown as they are, anything else becomes an HTTP 503 error whose
      message is `prefix` followed by the caught message. */
  function Normalize(t: Thrown, prefix: string): (r: Thrown)
    ensures r.ClientThrown?
    ensures t.ClientThrown? ==> r == t
    ensures t.OtherThrown? ==> r.error == NewHTTPError(503, prefix + t.message)
  {
    match t
    case ClientThrown(_) => t
    case OtherThrown(m) => ClientThrown(NewHTTPError(503, prefix + m))
  }

  /** Normalizing twice is normalizing once: an already-normalized error
      passes through the next handler unchanged. */
  lemma NormalizeIdempotent(t: Thrown, prefix: string, prefix': string)
    ensures Normalize(Normalize(t, prefix), prefix') == Normalize(t, prefix)
  {
  }
}
