/** The outbound message as the delivery provider's helper library builds it. */
module Mail {
  import opened Common

  /** An e-mail address with an optional display name. */
  datatype Address = Address(email: string, name: Option<string>)

  /** A file carried by a message, its content already in base64. */
  datatype Attachment = Attachment(content: string, filename: Option<string>, disposition: string)

  /** Which helper built the message: one recipient, or one recipient list. */
  datatype Shape = Single | Multiple

  datatype Message = Message(
    from: Address,
    recipients: seq<string>,
    subject: string,
    plainText: string,
    html: string,
    shape: Shape,
    attachments: seq<Attachment>)
}
