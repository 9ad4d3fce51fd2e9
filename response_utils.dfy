/** The response envelope helpers of ResponseUtils.js: every helper answers
    with a status code and a body whose only keys are `success`, `message` and
    `data`.  The envelope is a datatype, so a body cannot carry any other key. */
module ResponseUtils {

  /** The `data` argument a helper receives, as far as its truthiness
      matters: `undefined`, `null`, an empty array or a document. */
  datatype Data<+T> = NoData | NullData | EmptyList | Doc(doc: T)

  /** JavaScript truthiness of `data`: arrays and documents are truthy. */
  predicate TruthyData<T>(d: Data<T>)
  {
    d.EmptyList? || d.Doc?
  }

  datatype Envelope<+T> = Envelope(success: bool, message: string, data: Data<T>)

  datatype Response<+T> = Response(status: int, body: Envelope<T>)

  /** The body every error helper sends: failure with an empty data array. */
  predicate IsErrorBody<T>(e: Envelope<T>)
  {
    !e.success && e.data == EmptyList
  }

  /** `sendResponse`: status and success pass through; data defaults to
      null, and a JavaScript default parameter also replaces an explicit
      `undefined`. */
  function SendResponse<T>(status: int, success: bool, message: string, data: Data<T> := NullData): (r: Response<T>)
    ensures r.status == status && r.body.success == success && r.body.message == message
    ensures !r.body.data.NoData?
    ensures data.NoData? ==> r.body.data == NullData
    ensures !data.NoData? ==> r.body.data == data
  {
    Response(status, Envelope(success, message, if data.NoData? then NullData else data))
  }

  /** `sendSuccessResponse`: 200, success, and falsy data replaced by `[]`. */
  function SendSuccess<T>(message: string, data: Data<T> := EmptyList): (r: Response<T>)
    ensures r.status == 200 && r.body.success && r.body.message == message
    ensures TruthyData(r.body.data)
    ensures TruthyData(data) ==> r.body.data == data
  {
    Response(200, Envelope(true, message, if TruthyData(data) then data else EmptyList))
  }

  /** `sendCreatedResponse`: 201, success, and falsy data replaced by `[]`. */
  function SendCreated<T>(message: string, data: Data<T> := EmptyList): (r: Response<T>)
    ensures r.status == 201 && r.body.success && r.body.message == message
    ensures TruthyData(r.body.data)
    ensures TruthyData(data) ==> r.body.data == data
  {
    Response(201, Envelope(true, message, if TruthyData(data) then data else EmptyList))
  }

  /** `sendErrorResponse`: the given status with an error body. */
  function SendError<T>(status: int, message: string): (r: Response<T>)
    ensures r.status == status && r.body.message == message && IsErrorBody(r.body)
  {
    Response(status, Envelope(false, message, EmptyList))
  }

  /** `sendNotFoundResponse`. */
  function SendNotFound<T>(message: string): (r: Response<T>)
    ensures r.status == 404 && r.body.message == message && IsErrorBody(r.body)
  {
    Response(404, Envelope(false, message, EmptyList))
  }

  /** `sendBadRequestResponse`. */
  function SendBadRequest<T>(message: string): (r: Response<T>)
    ensures r.status == 400 && r.body.message == message && IsErrorBody(r.body)
  {
    Response(400, Envelope(false, message, EmptyList))
  }

  /** `sendUnauthorizedResponse`. */
  function SendUnauthorized<T>(message: string): (r: Response<T>)
    ensures r.status == 401 && r.body.message == message && IsErrorBody(r.body)
  {
    Response(401, Envelope(false, message, EmptyList))
  }

  /** `sendForbiddenResponse`. */
  function SendForbidden<T>(message: string): (r: Response<T>)
    ensures r.status == 403 && r.body.message == message && IsErrorBody(r.body)
  {
    Response(403, Envelope(false, message, EmptyList))
  }

  /** The fixed-code helpers are `sendErrorResponse` at their code, and only
      the success and created helpers report success. */
  lemma FixedCodesAreErrorResponses<T>(message: string, data: Data<T>)
    ensures SendNotFound<T>(message) == SendError(404, message)
    ensures SendBadRequest<T>(message) == SendError(400, message)
    ensures SendUnauthorized<T>(message) == SendError(401, message)
    ensures SendForbidden<T>(message) == SendError(403, message)
    ensures SendSuccess(message, data).body.success && SendCreated(message, data).body.success
    ensures SendSuccess(message, data).status != SendCreated(message, data).status
  {
  }

  /** The success and error helpers send the same envelope that
      `sendResponse` would, with `data || []` for success and `[]` for
      errors. */
  lemma HelpersAreSendResponse<T>(status: int, message: string, data: Data<T>)
    ensures SendSuccess(message, data) == SendResponse(200, true, message, if TruthyData(data) then data else EmptyList)
    ensures SendCreated(message, data) == SendResponse(201, true, message, if TruthyData(data) then data else EmptyList)
    ensures SendError<T>(status, message) == SendResponse(status, false, message, EmptyList)
  {
  }
}
