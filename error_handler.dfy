/** The backend's last two middlewares: the error handler that maps an error
    to a status and a message, and the handler for routes nothing matched.
    The timestamp each response carries comes from the clock and is a
    parameter here. */
module ErrorHandler {

  /** The two fields of a thrown error the handler reads. */
  datatype Error = Error(name: string, message: string)

  /** `{ message, statusCode, timestamp }` */
  datatype ErrorBody = ErrorBody(message: string, statusCode: int, timestamp: string)

  /** `res.status(status).json({ success, error })` */
  datatype Response = Response(status: int, success: bool, error: ErrorBody)

  const DefaultMessage := "Internal Server Error"

  /** The error names the handler recognises, with the status each gets. */
  const KnownStatus: map<string, int> := map[
    "ValidationError" := 400,
    "UnauthorizedError" := 401,
    "ForbiddenError" := 403,
    "NotFoundError" := 404,
    "ConflictError" := 409]

  /** The fixed message for a recognised name that does not echo the error's own. */
  const FixedMessage: map<string, string> := map[
    "UnauthorizedError" := "Unauthorized",
    "ForbiddenError" := "Forbidden",
    "NotFoundError" := "Resource not found"]

  /** errorHandler: start from 500 and the default message, then let the
      first matching name choose the status and the message. */
  function HandleError(err: Error, timestamp: string): (r: Response)
    ensures r.status in {400, 401, 403, 404, 409, 500}
    ensures !r.success && r.error.statusCode == r.status && r.error.timestamp == timestamp
    ensures r.status == (if err.name in KnownStatus then KnownStatus[err.name] else 500)
    ensures r.error.message ==
      if err.name in FixedMessage then FixedMessage[err.name]
      else if err.name in KnownStatus || err.message != [] then err.message
      else DefaultMessage
  {
    var (status, message) :=
      if err.name == "ValidationError" then (400, err.message)
      else if err.name == "UnauthorizedError" then (401, "Unauthorized")
      else if err.name == "ForbiddenError" then (403, "Forbidden")
      else if err.name == "NotFoundError" then (404, "Resource not found")
      else if err.name == "ConflictError" then (409, err.message)
      else if err.message != [] then (500, err.message)
      else (500, DefaultMessage);
    Response(status, false, ErrorBody(message, status, timestamp))
  }

  /** Each status other than 500 identifies the error name that produced it. */
  lemma StatusIdentifiesName(err: Error, timestamp: string)
    ensures var s := HandleError(err, timestamp).status;
      && (s == 400 <==> err.name == "ValidationError")
      && (s == 401 <==> err.name == "UnauthorizedError")
      && (s == 403 <==> err.name == "ForbiddenError")
      && (s == 404 <==> err.name == "NotFoundError")
      && (s == 409 <==> err.name == "ConflictError")
  {
  }

  /** The response never depends on the error's message beyond echoing it:
      two errors with the same name differ at most in the message sent. */
  lemma MessageOnlyEchoed(a: Error, b: Error, timestamp: string)
    requires a.name == b.name
    ensures HandleError(a, timestamp).status == HandleError(b, timestamp).status
    ensures a.name in FixedMessage ==> HandleError(a, timestamp) == HandleError(b, timestamp)
  {
  }

  const RoutePrefix := "Route "
  const RouteSuffix := " not found"

  /** notFoundHandler */
  function HandleNotFound(originalUrl: string, timestamp: string): (r: Response)
    ensures r.status == 404 && !r.success && r.error.statusCode == 404 && r.error.timestamp == timestamp
    ensures |r.error.message| == |RoutePrefix| + |originalUrl| + |RouteSuffix|
    ensures r.error.message[..|RoutePrefix|] == RoutePrefix
    ensures r.error.message[|r.error.message| - |RouteSuffix|..] == RouteSuffix
  {
    Response(404, false, ErrorBody(RoutePrefix + originalUrl + RouteSuffix, 404, timestamp))
  }

  /** The requested URL can be read back from the not-found message. */
  function RouteOf(message: string): string
    requires |message| >= |RoutePrefix| + |RouteSuffix|
  {
    message[|RoutePrefix|..|message| - |RouteSuffix|]
  }

  lemma NotFoundNamesRoute(originalUrl: string, timestamp: string)
    ensures RouteOf(HandleNotFound(originalUrl, timestamp).error.message) == originalUrl
  {
    var m := HandleNotFound(originalUrl, timestamp).error.message;
    assert m == RoutePrefix + originalUrl + RouteSuffix;
    assert m[|RoutePrefix|..|m| - |RouteSuffix|] == originalUrl;
  }
}
