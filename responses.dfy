/**
 * The uniform response envelope of backend/src/utils/responseUtils.js.
 * A reply is the HTTP status together with the JSON body: a success body
 * carries `data`, an error body carries `errors`.
 */
module Responses {
  import opened Wrappers

  /** One `{field, message}` entry of an error body. */
  datatype FieldError = FieldError(field: string, message: string)

  datatype Body<+D> =
    | SuccessBody(message: string, data: Option<D>)
    | ErrorBody(message: string, errors: Option<seq<FieldError>>)

  datatype Reply<+D> = Reply(status: int, body: Body<D>) {
    /** The envelope's `success` flag. */
    predicate Success() { body.SuccessBody? }
    function Message(): string { body.message }
  }

  /** `successResponse(res, status, message, data = null)`. */
  function SuccessResponse<D>(status: int, message: string, data: Option<D> := None): (r: Reply<D>)
    ensures r.Success() && r.status == status && r.Message() == message
    ensures r.body.data == data
  {
    Reply(status, SuccessBody(message, data))
  }

  /** `errorResponse(res, status, message, errors = null)`. */
  function ErrorResponse<D>(status: int, message: string, errors: Option<seq<FieldError>> := None): (r: Reply<D>)
    ensures !r.Success() && r.status == status && r.Message() == message
    ensures r.body.errors == errors
  {
    Reply(status, ErrorBody(message, errors))
  }

  /** The two envelope builders never produce the same reply, and the optional payloads default to null. */
  lemma EnvelopeDefaults<D>(status: int, message: string)
    ensures SuccessResponse<D>(status, message).body.data == None
    ensures ErrorResponse<D>(status, message).body.errors == None
    ensures forall d: Option<D>, e: Option<seq<FieldError>> ::
      SuccessResponse(status, message, d) != ErrorResponse(status, message, e)
  {
  }
}
