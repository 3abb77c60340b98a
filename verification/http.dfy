/**
 * The slice of HTTP both services share: what an outbound exchange can
 * come back with, and what a handler writes back to its caller.
 */
module Http {

  const MethodPost := "POST"

  const StatusOK := 200
  const StatusNotFound := 404
  const StatusMethodNotAllowed := 405
  const StatusUnprocessableEntity := 422
  const StatusInternalServerError := 500
  const StatusBadGateway := 502

  /** What `http.Error` writes for a rejected method (it appends a newline). */
  const MethodNotAllowedText := "method not allowed\n"

  /**
   * The result of one outbound call: either the transport failed (connection
   * error, timeout, ...) or a response arrived with a status and a body.
   * `T` is whatever the caller extracts from the body (a decode result, raw bytes, ...).
   */
  datatype Exchange<T> = TransportError | Answered(status: int, body: T)

  /**
   * A reply body: the plain-text body of `http.Error`, the JSON object
   * `{"message": ...}` written by `writeJSON`, or a payload of the handler's own.
   */
  datatype Body<B> = PlainText(text: string) | JsonMessage(message: string) | Payload(payload: B)

  datatype Reply<B> = Reply(status: int, body: Body<B>)

  function MethodNotAllowed<B>(): Reply<B> {
    Reply(StatusMethodNotAllowed, PlainText(MethodNotAllowedText))
  }

  function Message<B>(status: int, message: string): Reply<B> {
    Reply(status, JsonMessage(message))
  }
}
