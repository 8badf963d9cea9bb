/**
 * What a request can come back with, and handleResponse: the step that turns
 * a response into the parsed body or an error.
 */
module Http {
  import opened Results

  /** The error a rejected promise carries in this code, told apart as the catch blocks do. */
  datatype Thrown =
    | AbortError               // fetch cancelled by the timeout controller; `error.name === 'AbortError'`
    | NetworkError             // fetch itself failed (no route to the server)
    | SyntaxError              // `response.json()` met a body that is not JSON
    | Raised(message: string)  // `new Error(message)` thrown by the service itself

  /**
   * A response that arrived: its status, its body as `response.text()` reads it,
   * and its body as `response.json()` parses it (None when parsing fails).
   */
  datatype Response<T> = Response(status: nat, text: string, json: Option<T>)

  /** How one fetchWithTimeout call ends: a response, the 5000 ms abort, or a network failure. */
  datatype Transport<T> = Responded(response: Response<T>) | Aborted | NetworkFail

  /** `response.ok`: a status in the 2xx range. */
  predicate IsOk(status: nat) {
    200 <= status <= 299
  }

  predicate IsDigit(c: char) {
    '0' <= c <= '9'
  }

  predicate AllDigits(s: string) {
    forall i :: 0 <= i < |s| ==> IsDigit(s[i])
  }

  function DigitChar(d: nat): char
    requires d < 10
  {
    ('0' as int + d) as char
  }

  function DigitValue(c: char): nat
    requires IsDigit(c)
  {
    c as int - '0' as int
  }

  /** A status code as a template literal renders it: decimal, no leading zeros. */
  function DecimalString(n: nat): (s: string)
    ensures |s| > 0 && AllDigits(s)
  {
    if n < 10 then [DigitChar(n)] else DecimalString(n / 10) + [DigitChar(n % 10)]
  }

  /** The number a string of decimal digits denotes. */
  function DecimalValue(s: string): nat
    requires AllDigits(s)
  {
    if s == [] then 0 else DecimalValue(s[..|s| - 1]) * 10 + DigitValue(s[|s| - 1])
  }

  /** Reading back a rendered status gives the status. */
  lemma {:induction false} DecimalRoundTrip(n: nat)
    ensures DecimalValue(DecimalString(n)) == n
  {
    if n >= 10 {
      var s := DecimalString(n);
      assert s[..|s| - 1] == DecimalString(n / 10);
      DecimalRoundTrip(n / 10);
    }
  }

  const HttpErrorPrefix := "HTTP error! status: "

  /** `HTTP error! status: ${response.status}`. */
  function HttpErrorMessage(status: nat): (m: string)
    ensures |m| > |HttpErrorPrefix| && m[..|HttpErrorPrefix|] == HttpErrorPrefix
    ensures StatusNamedIn(m) == Some(status)
  {
    var m := HttpErrorPrefix + DecimalString(status);
    assert m[..|HttpErrorPrefix|] == HttpErrorPrefix;
    assert m[|HttpErrorPrefix|..] == DecimalString(status);
    assert DecimalValue(DecimalString(status)) == status by { DecimalRoundTrip(status); }
    m
  }

  /** The status named by a message of the HttpErrorMessage form, if it has that form. */
  function StatusNamedIn(message: string): Option<nat> {
    var n := |HttpErrorPrefix|;
    if |message| > n && message[..n] == HttpErrorPrefix && AllDigits(message[n..])
    then Some(DecimalValue(message[n..]))
    else None
  }

  /** The generic HTTP error message names its status, so different statuses give different messages. */
  lemma StatusNamedInHttpErrorMessage(status: nat)
    ensures StatusNamedIn(HttpErrorMessage(status)) == Some(status)
    ensures forall other: nat :: HttpErrorMessage(other) == HttpErrorMessage(status) ==> other == status
  {
  }

  /**
   * handleResponse: a non-ok response fails with its body text, or with the
   * generic message naming the status when the body is empty; an ok response
   * yields its parsed body, or fails as `response.json()` does.
   */
  function HandleResponse<T>(response: Response<T>): (r: Result<T, Thrown>)
    ensures r.Success? <==> IsOk(response.status) && response.json.Some?
    ensures r.Success? ==> r.value == response.json.value
    ensures IsOk(response.status) && response.json.None? ==> r == Failure(SyntaxError)
    ensures !IsOk(response.status) ==> r.Failure? && r.error.Raised? && r.error.message != ""
    ensures !IsOk(response.status) && response.text != "" ==> r.error.message == response.text
    ensures !IsOk(response.status) && response.text == "" ==>
      r.error == Raised(HttpErrorMessage(response.status)) && StatusNamedIn(r.error.message) == Some(response.status)
  {
    if !IsOk(response.status) then
      Failure(Raised(if response.text != "" then response.text else HttpErrorMessage(response.status)))
    else
      match response.json
      case Some(body) => Success(body)
      case None => Failure(SyntaxError)
  }

  /**
   * `fetchWithTimeout(...).then(handleResponse)` before any catch: the abort and
   * the network failure reject with their own errors, a response goes through
   * HandleResponse.
   */
  function Settle<T>(t: Transport<T>): (r: Result<T, Thrown>)
    ensures t.Aborted? ==> r == Failure(AbortError)
    ensures t.NetworkFail? ==> r == Failure(NetworkError)
    ensures r.Success? <==> t.Responded? && IsOk(t.response.status) && t.response.json.Some?
    ensures r.Success? ==> r.value == t.response.json.value
  {
    match t
    case Responded(response) => HandleResponse(response)
    case Aborted => Failure(AbortError)
    case NetworkFail => Failure(NetworkError)
  }
}
