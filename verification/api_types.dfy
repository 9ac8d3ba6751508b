/** The response envelope `{data, error, metadata}` and the application
    exception `ApiErrorResponse`. */
module ApiTypes {
  import opened Wrappers

  /** The `details` of an error: nothing, zod's flattened issues, the store's
      error, or a raw exception message (development mode only). */
  datatype Details =
    | Undefined
    | Flattened(formErrors: seq<string>, fieldErrors: map<string, seq<string>>)
    | StoreErrorDetails(code: string, message: string)
    | RawError(message: string)

  datatype ApiError = ApiError(code: string, message: string, details: Details)

  datatype Metadata = Metadata(page: Option<int>, limit: Option<int>, total: Option<int>)

  datatype ApiResponse<D> = ApiResponse(data: Option<D>, error: Option<ApiError>, metadata: Option<Metadata>)

  const ApiErrorResponseName := "ApiErrorResponse"

  /** The exception; `status` is the HTTP status the handler answers with. */
  datatype ApiErrorResponse = ApiErrorResponse(code: string, message: string, status: int, details: Details, name: string)

  /** `new ApiErrorResponse(code, message, status?, details?)`. */
  function NewApiErrorResponse(code: string, message: string, status: Option<int> := None,
                               details: Details := Undefined): (e: ApiErrorResponse)
    ensures e.code == code && e.message == message && e.details == details
    ensures e.status == (if status.Some? then status.value else 500)
    ensures e.name == "ApiErrorResponse"
  {
    ApiErrorResponse(code, message, if status.Some? then status.value else 500, details, ApiErrorResponseName)
  }

  /** `createApiResponse(data = null, error = null, metadata?)`. */
  function CreateApiResponse<D>(data: Option<D> := None, error: Option<ApiError> := None,
                                metadata: Option<Metadata> := None): (r: ApiResponse<D>)
    ensures r.data == data && r.error == error && r.metadata == metadata
  {
    ApiResponse(data, error, metadata)
  }

  /** With no arguments the envelope is all empty. */
  lemma EmptyEnvelope<D>()
    ensures CreateApiResponse<D>() == ApiResponse(None, None, None)
  {
  }
}
