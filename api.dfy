/// api/api.go: how the HTTP API turns an error into a status code and a
/// JSON error object, the bearer-token check in front of the endpoints,
/// and the catch-all endpoint.
///
/// An error is described by its message, the sentinel errors it wraps (what
/// `errors.Is` finds along its chain) and, when the error itself is an
/// `*ApiError`, that API error. Writing the response and logging are left
/// to the caller: `HandleError` yields the API error that is written.
module Api {
  import opened Wrappers

  /// The sentinel errors `handleError` tests for.
  datatype Sentinel = NotReadable | BlobNotFound | PackfileNotFound | FsNotExist | SnapshotNotFound

  datatype ApiError = ApiError(httpCode: int, errCode: string, message: string)

  datatype Error = Error(message: string, wraps: set<Sentinel>, api: Option<ApiError>)

  const InternalMessage: string := "Internal server error. Check server logs for more information."

  /// The not-found sentinels.
  predicate NotFound(e: Error) {
    BlobNotFound in e.wraps || PackfileNotFound in e.wraps || FsNotExist in e.wraps || SnapshotNotFound in e.wraps
  }

  /// `handleError`: the API error written for an error.
  function HandleError(e: Error): ApiError {
    if NotReadable in e.wraps then ApiError(400, "bad-request", e.message)
    else if NotFound(e) then ApiError(404, "not-found", e.message)
    else if e.api.Some? then e.api.value
    else ApiError(500, "internal-error", InternalMessage)
  }

  /// An unreadable repository is a bad request, whatever else the error
  /// wraps; a missing blob, packfile, file or snapshot is not found; both
  /// keep the error's message. An `*ApiError` keeps its own status
  /// otherwise, and every other error is an internal error whose message
  /// reveals nothing.
  lemma HandleErrorClasses(e: Error)
    ensures var r := HandleError(e);
      (NotReadable in e.wraps ==> r == ApiError(400, "bad-request", e.message)) &&
      (NotReadable !in e.wraps && NotFound(e) ==> r == ApiError(404, "not-found", e.message)) &&
      (NotReadable !in e.wraps && !NotFound(e) && e.api.Some? ==> r == e.api.value) &&
      (e.wraps == {} && e.api.None? ==> r == ApiError(500, "internal-error", InternalMessage)) &&
      (r.message == e.message || Some(r) == e.api || r.message == InternalMessage)
  {
  }

  /// The status is 400, 404, 500 or that of the API error itself.
  lemma HandleErrorStatus(e: Error)
    ensures var r := HandleError(e);
      r.httpCode in {400, 404, 500} || (e.api.Some? && r == e.api.value)
  {
  }

  /// What the token middleware does with a request.
  datatype Outcome = Forward | Reply(error: ApiError)

  /// `TokenAuthMiddleware(token)` on a request whose Authorization header
  /// is `header` ("" when absent). `authError` is the error a rejection
  /// reason is turned into before `handleError` writes it.
  function TokenAuth(token: string, header: string, authError: string -> Error): Outcome {
    if token != "" then
      if header == "" then Reply(HandleError(authError("missing Authorization header")))
      else if header != "Bearer " + token then Reply(HandleError(authError("invalid token")))
      else Forward
    else Forward
  }

  /// Without a token every request is forwarded; with one, exactly the
  /// requests carrying `Bearer <token>` are, a missing header and any
  /// other value being refused with their own reasons.
  lemma TokenAuthDecision(token: string, header: string, authError: string -> Error)
    ensures var o := TokenAuth(token, header, authError);
      (token == "" ==> o == Forward) &&
      (token != "" ==> (o == Forward <==> header == "Bearer " + token)) &&
      (token != "" && header == "" ==> o == Reply(HandleError(authError("missing Authorization header")))) &&
      (token != "" && header != "" && header != "Bearer " + token ==> o == Reply(HandleError(authError("invalid token"))))
  {
  }

  /// The error every unmatched `/api/` request gets.
  const CatchAll: ApiError := ApiError(404, "not-found", "API endpoint not found")

  /// The catch-all endpoint answers 404 `not-found` with its own message,
  /// whatever the text of the error.
  lemma CatchAllNotFound(message: string)
    ensures HandleError(Error(message, {}, Some(CatchAll))) == ApiError(404, "not-found", "API endpoint not found")
  {
  }
}
