/** The toast messages of the client and the `showGeneralError` helper (src/utils.ts). */
module Utils {
  import opened Wrappers

  datatype Severity = Success | Info | Warn | Error

  /** A toast; `summary` is absent when the caller leaves it out. */
  datatype Message = Message(severity: Severity, summary: Option<string>, detail: string)

  /** The message list of a PrimeNG MessageService. */
  class MessageService {
    var messages: seq<Message>

    constructor ()
      ensures messages == []
    {
      messages := [];
    }

    method Add(m: Message)
      modifies this
      ensures messages == old(messages) + [m]
    {
      messages := messages + [m];
    }
  }

  /** The message `showGeneralError` creates, with the same defaults. */
  function GeneralError(message: string, severity: Severity := Error, summary: string := "Error"): Message
  {
    Message(severity, Some(summary), message)
  }

  /** Adds exactly one message: severity defaults to Error, summary to "Error", detail is the text. */
  method ShowGeneralError(messageService: MessageService, message: string,
                          severity: Severity := Error, summary: string := "Error")
    modifies messageService
    ensures messageService.messages
         == old(messageService.messages) + [Message(severity, Some(summary), message)]
  {
    messageService.Add(Message(severity, Some(summary), message));
  }
}
