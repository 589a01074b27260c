/** Transport messages, their string-valued headers and the transport addresses. */
module Messages {
  type Address = string
  type Headers = map<string, string>

  const MESSAGE_ID_KEY := "message_id"
  const CORRELATION_ID_KEY := "correlation_id"
  const CORRELATION_SEQUENCE_KEY := "correlation_sequence"
  const CAUSATION_ID_KEY := "causation_id"
  const ERROR_DETAILS_KEY := "error_details"

  datatype Option<+T> = None | Some(value: T) {
    function GetOr(default: T): T { if Some? then value else default }
  }

  /** A message without the header goes under None. */
  type MessageId = Option<string>

  datatype Message = Message(body: string, headers: Headers) {
    function Id(): (id: MessageId)
      ensures "message_id" in headers ==> id == Some(headers["message_id"])
      ensures "message_id" !in headers ==> id.None?
    {
      if MESSAGE_ID_KEY in headers then Some(headers[MESSAGE_ID_KEY]) else None
    }
  }

  datatype OutgoingMessage = OutgoingMessage(destination: Address, message: Message)
}
