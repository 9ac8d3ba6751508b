/** `createHandler`, `errorResponse` and `successResponse`: the try/catch
    that turns what a route handler throws into an error envelope. A thrown
    value is an `Exception`; what a handler does for one request is an
    `Outcome`, and `CreateHandler` gives the response the wrapped handler sends. */
module Handler {
  import opened Wrappers
  import opened ApiTypes

  datatype Exception = ApiException(e: ApiErrorResponse) | OtherException(message: string)

  datatype Response<B> = Response(status: int, body: B)

  datatype Outcome<B> = Returned(response: Response<B>) | Threw(exception: Exception)

  /** `process.env.NODE_ENV`. */
  datatype NodeEnv = Development | Production | Test

  /** `createHandler(handler)(req, context)` for a handler whose run on this request had `outcome`. */
  function CreateHandler<D>(outcome: Outcome<ApiResponse<D>>, env: NodeEnv): (r: Response<ApiResponse<D>>)
    ensures outcome.Returned? ==> r == outcome.response
    ensures outcome.Threw? && outcome.exception.ApiException? ==>
              var e := outcome.exception.e;
              r.status == e.status &&
              r.body == ApiResponse(None, Some(ApiError(e.code, e.message, e.details)), None)
    ensures outcome.Threw? && outcome.exception.OtherException? ==>
              r.status == 500 && r.body.data.None? && r.body.metadata.None? &&
              r.body.error == Some(ApiError("INTERNAL_SERVER_ERROR", "An unexpected error occurred",
                                            if env == Development then RawError(outcome.exception.message)
                                            else Undefined))
  {
    match outcome
    case Returned(response) => response
    case Threw(ApiException(e)) =>
      Response(e.status, CreateApiResponse(None, Some(ApiError(e.code, e.message, e.details))))
    case Threw(OtherException(message)) =>
      var details := if env == Development then RawError(message) else Undefined;
      Response(500, CreateApiResponse(None, Some(ApiError("INTERNAL_SERVER_ERROR", "An unexpected error occurred", details))))
  }

  /** Whatever the handler throws, the client gets an envelope with no data
      and an error, and an error status. */
  lemma ThrownBecomesErrorEnvelope<D>(e: Exception, env: NodeEnv)
    requires e.ApiException? ==> e.e.status >= 400
    ensures var r := CreateHandler<D>(Threw(e), env);
            r.body.data.None? && r.body.error.Some? && r.status >= 400
    ensures env != Development ==> CreateHandler<D>(Threw(OtherException("internal")), env).body.error.value.details == Undefined
  {
  }

  /** `errorResponse(code, message, status = 500, details)`: it never returns,
      it throws the exception built here. */
  function ErrorResponse(code: string, message: string, status: Option<int> := None,
                         details: Details := Undefined): (e: Exception)
    ensures e.ApiException? && e.e.code == code && e.e.message == message && e.e.details == details
    ensures e.e.status == (if status.Some? then status.value else 500)
  {
    ApiException(NewApiErrorResponse(code, message, status, details))
  }

  /** `successResponse(data, metadata)`: status 200 and `{data, error: null, metadata}`. */
  function SuccessResponse<D>(data: D, metadata: Option<Metadata> := None): (r: Response<ApiResponse<D>>)
    ensures r.status == 200
    ensures r.body.data == Some(data) && r.body.error.None? && r.body.metadata == metadata
  {
    Response(200, CreateApiResponse(Some(data), None, metadata))
  }
}
