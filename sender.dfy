/** The transport: the one call that reaches the delivery provider. */
module Sender {
  import opened Common
  import opened Mail

  /** One call made to the provider: the API key used and the message sent. */
  datatype Delivery = Delivery(apiKey: Option<string>, message: Message)

  /** SendGridSender. What the provider answers is the fixed function
      `deliver`; `calls` records every call in order, so that a caller's
      contract can say whether, and with what, the provider was reached. */
  class SendGridSender {
    const deliver: (Option<string>, Message) -> bool
    ghost var calls: seq<Delivery>

    constructor (deliver: (Option<string>, Message) -> bool)
      ensures this.deliver == deliver && calls == []
    {
      this.deliver := deliver;
      calls := [];
    }

    /** Sends `message` with `apiKey`; true when the provider accepted it. */
    method SendMessage(apiKey: Option<string>, message: Message) returns (ok: bool)
      modifies this
      ensures calls == old(calls) + [Delivery(apiKey, message)]
      ensures ok == deliver(apiKey, message)
    {
      ok := deliver(apiKey, message);
      calls := calls + [Delivery(apiKey, message)];
    }
  }
}
