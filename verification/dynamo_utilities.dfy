/** The store helper every service uses to turn a store answer into success
    or an internal error. A store answer is reduced to the status code in its
    `$metadata`; `None` stands for no answer object at all. */
module DynamoUtilities {
  import opened Js

  /** The error every failed store call surfaces as. */
  const InternalError := Thrown(500, "Internal Server Error")

  /** A store request a service issued (if it got that far) and what the
      service then returned or threw. */
  datatype Exchange<Req, R> = Exchange(request: Option<Req>, result: R)

  /** throwIfError: a missing answer counts as status 500; any status of 400
      or more is replaced by the generic internal error, whatever it was. */
  function ThrowIfError(response: Option<int>): (o: Outcome)
    ensures o.Fail? <==> response.None? || response.value >= 400
    ensures o.Fail? ==> o.error == InternalError
  {
    var statusCode := if response.Some? then response.value else 500;
    if statusCode >= 400 then Fail(InternalError) else Pass
  }

  /** The store answered and reported success. */
  predicate Succeeded(response: Option<int>)
  {
    ThrowIfError(response).Pass?
  }

  /** The decision boundary: 399 still passes, 400 already fails. */
  lemma ThrowIfErrorBoundary()
    ensures ThrowIfError(Some(399)) == Pass
    ensures ThrowIfError(Some(400)) == Fail(InternalError)
    ensures ThrowIfError(None) == Fail(InternalError)
  {
  }
}
