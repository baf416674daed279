/** The response record and its success check (httpbin_sdk/response.py). */
module Responses {
  import opened Py
  import opened Errors

  /** The decoded body: a JSON object, raw bytes, or nothing when the
      transport returned no body. */
  datatype Data =
    | Mapping(entries: map<string, Value>)
    | Binary(bytes: seq<bv8>)
    | Missing

  /** The frozen `Response` dataclass with its four declared fields. */
  datatype Response = Response(
    apiUrl: string,
    statusCode: int,
    headers: Option<map<string, string>>,
    data: Data)

  /** Python truthiness of the decoded body. */
  predicate NonEmpty(d: Data) {
    match d
    case Mapping(m) => m != map[]
    case Binary(b) => b != []
    case Missing => false
  }

  /** The condition `validate` checks: status 200, a non-empty body, and
      either bytes or a mapping whose `ok` (False when absent) is truthy. */
  predicate Successful(r: Response) {
    && r.statusCode == 200
    && NonEmpty(r.data)
    && (r.data.Binary? || (r.data.Mapping? && Truthy(GetOr(r.data.entries, "ok", Bool(false)))))
  }

  function FailureMessage(apiUrl: string): string {
    "The request to the HttpBin API failed. (url: " + apiUrl + ")"
  }

  /** `Response.validate`, raising the library's API error that carries the
      URL where the source raises a bare `Exception` (see ValidateAsWritten). */
  function Validate(r: Response): (out: Result<Response>)
    ensures out.Success? <==> Successful(r)
    ensures out.Success? ==> out.value == r
    ensures out.Failure? ==> out.error == ApiError(FailureMessage(r.apiUrl), r.apiUrl)
  {
    if Successful(r) then Success(r) else Failure(ApiError(FailureMessage(r.apiUrl), r.apiUrl))
  }

  /** `validate` as written: `Exception(message=..., response=...)` is itself
      a TypeError, since `Exception` takes no keyword arguments, so every
      failing response surfaces as that TypeError and the URL is lost. */
  function ValidateAsWritten(r: Response): (out: Result<Response>)
    ensures out.Success? <==> Successful(r)
    ensures out.Failure? ==> out.error == TypeError("Exception() takes no keyword arguments")
  {
    if Successful(r) then Success(r) else Failure(TypeError("Exception() takes no keyword arguments"))
  }

  /** The two agree on success and differ on every failure: only the
      corrected one reports a library error naming the URL. */
  lemma AsWrittenLosesTheUrl(r: Response)
    ensures ValidateAsWritten(r).Success? <==> Validate(r).Success?
    ensures !Successful(r) ==>
      IsLibraryError(Validate(r).error) && !IsLibraryError(ValidateAsWritten(r).error)
      && Validate(r).error.apiUrl == r.apiUrl
  {
  }

  /** Any status other than 200 fails, whatever the body. */
  lemma Non200Fails(r: Response)
    requires r.statusCode != 200
    ensures Validate(r) == Failure(ApiError(FailureMessage(r.apiUrl), r.apiUrl))
  {
  }

  /** An empty mapping, empty bytes or a missing body fails even with status 200. */
  lemma EmptyBodyFails(r: Response)
    requires r.data == Mapping(map[]) || r.data == Binary([]) || r.data == Missing
    ensures Validate(r).Failure?
  {
  }

  /** A mapping without `ok`, or with a falsy `ok`, fails. */
  lemma FalsyOkFails(r: Response)
    requires r.data.Mapping?
    requires "ok" !in r.data.entries || !Truthy(r.data.entries["ok"])
    ensures Validate(r).Failure?
  {
  }

  /** Non-empty bytes with status 200 succeed whatever they hold. */
  lemma NonEmptyBytesSucceed(r: Response)
    requires r.statusCode == 200 && r.data.Binary? && r.data.bytes != []
    ensures Validate(r) == Success(r)
  {
  }

  /** Status 200 and a mapping with a truthy `ok` succeed, returning the same record. */
  lemma TruthyOkSucceeds(r: Response)
    requires r.statusCode == 200 && r.data.Mapping?
    requires "ok" in r.data.entries && Truthy(r.data.entries["ok"])
    ensures Validate(r) == Success(r)
  {
  }
}
