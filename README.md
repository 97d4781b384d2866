# SendGrid e-mail utilities: a Dafny model of message composition and dispatch

This project models the two components of `netcore.utilities.email.sendgrid` that make decisions. The rest of the library is plumbing.

- **`SendGridMessageBuilder`** (module `MessageBuilder`) turns the arguments of a send request into the outbound message. The steps run in a fixed order:
  1. Validate the four mandatory strings.
  2. Build the sender address.
  3. Build the recipient list: `to`, then each CC entry the address constructor takes. A rejected entry is skipped.
  4. Add the environment suffix to the subject.
  5. Pick one of three template branches.
  6. Strip `<[^>]*>` from the final HTML to get the plain text.
  7. Choose the single- or multi-recipient shape.

  `CreateMessageWithAttachment` then replaces the attachment list with one base64-encoded file.
- **`SendGridService`** (module `Service`) is the public API. Every `SendMessage` and `SendMessageToAdministrator` overload reaches one canonical `SendMessage`, which:
  1. applies the caller's tokens to the body with `string.Replace`, in list order;
  2. has the builder compose the message, with the configured administrator as sender;
  3. picks the default API key or a named additional key;
  4. hands key and message to the sender.

  `SendMessageWithAttachment` takes its own path. It does no token substitution, calls the builder's attachment variant, and picks the key by the same rule.

Supporting modules:

- `Common`: `Option`, which stands for a nullable reference; `Result`; and the exceptions as `Fault`.
- `Options`: the configuration record.
- `Mail`: the message value.
- `Sender`: the transport, with a ghost log of the calls it received.
- `HtmlText`: the regular-expression tag strip.
- `OrdinalReplace`: .NET's ordinal `string.Replace`.
- `Base64`: `Convert.ToBase64String`, following section 4 of RFC 4648.

How the source's behaviour is represented:

- A thrown exception is an `Err` result. It carries the exception kind and the parameter or key it names.
- `CreateMessage`, `CreateMessageWithAttachment` and every `SendMessage*` method are imperative methods. Each is proved equal to a specification function:
  - `ComposedMessage` and `ComposedMessageWithAttachment` for the builder;
  - `PlannedDelivery` and `PlannedAttachmentDelivery` for the service.

  The lemmas state what the source promises about those functions.
- The CC loop and the token loop are `while` loops. Their invariants tie the running list or body to a function of the processed prefix:
  - `Accepted` for the CC list;
  - `Substituted` for the body.
- The service methods promise, through the predicate `Dispatched`, two things:
  - A fault means the exception reaches the caller and the sender was never called.
  - Otherwise the sender was called exactly once, with the planned key and message, and its answer is returned.

`CreateMessage` can throw even when the four mandatory strings are non-empty:

- the address constructor rejects `from` (SendGridMessageBuilder.cs line 84);
- the address constructor rejects `to` (line 87);
- the options are null (line 104);
- the template renderer returns null, so the tag strip at line 115 throws ArgumentNullException("input").

`BuildSucceeds` gives the exact condition for success.

## Model

| member | source | states |
|---|---|---|
| MessageBuilder.SendGridMessageBuilder.constructor | src/NetCore.Utilities.Email.SendGrid/SendGridMessageBuilder.cs:61-68 | the builder keeps the environment, renderer, options and address constructor it is given |
| MessageBuilder.SendGridMessageBuilder.CreateMessage | src/NetCore.Utilities.Email.SendGrid/SendGridMessageBuilder.cs:71-123 | the method returns exactly what `ComposedMessage` specifies: the same exception, or the same message; the CC loop keeps the recipients equal to `to` plus the accepted entries of the processed prefix |
| MessageBuilder.SendGridMessageBuilder.CreateMessageWithAttachment | src/NetCore.Utilities.Email.SendGrid/SendGridMessageBuilder.cs:126-143 | the method returns exactly what `ComposedMessageWithAttachment` specifies |
| MessageBuilder.SendGridMessageBuilder.ValidationOrder | src/NetCore.Utilities.Email.SendGrid/SendGridMessageBuilder.cs:74-81 | the first null or empty argument among from, to, subject, bodyHtml, in that order, is named in an ArgumentNullException; an ArgumentNullException naming one of the four occurs exactly when one of them is null or empty |
| MessageBuilder.SendGridMessageBuilder.BuildSucceeds | src/NetCore.Utilities.Email.SendGrid/SendGridMessageBuilder.cs:74-115 | a message is built exactly when the four mandatory arguments are present, `from` and `to` are taken by the address constructor, the options are not null, and the templating step does not yield null |
| MessageBuilder.SendGridMessageBuilder.CcNeverBlocksBuild | src/NetCore.Utilities.Email.SendGrid/SendGridMessageBuilder.cs:88-101 | whatever the CC list, the build succeeds or fails alike, and fails with the same exception |
| MessageBuilder.SenderAddress | src/NetCore.Utilities.Email.SendGrid/SendGridMessageBuilder.cs:84-86 | the sender address is `from`; it has a display name exactly when `fromName` is neither null nor empty, and then the name is `fromName` |
| MessageBuilder.SendGridMessageBuilder.SenderOfMessage | src/NetCore.Utilities.Email.SendGrid/SendGridMessageBuilder.cs:84-86 | a built message's sender is `from`, with `fromName` as its name only when `fromName` is not null or empty |
| MessageBuilder.AcceptedMembership | src/NetCore.Utilities.Email.SendGrid/SendGridMessageBuilder.cs:90-99 | a CC entry survives the loop exactly when it is in the list and the address constructor takes it |
| MessageBuilder.AcceptedAppend | src/NetCore.Utilities.Email.SendGrid/SendGridMessageBuilder.cs:90-99 | the loop's filter distributes over concatenation, so entries keep their original order |
| MessageBuilder.AcceptedKeepsAll | src/NetCore.Utilities.Email.SendGrid/SendGridMessageBuilder.cs:90-99 | no CC entry is dropped exactly when the address constructor takes every entry |
| MessageBuilder.SendGridMessageBuilder.RecipientsOfMessage | src/NetCore.Utilities.Email.SendGrid/SendGridMessageBuilder.cs:87-101 | the recipients are `to` first, then the accepted CC entries in order; a null CC list gives exactly `[to]`; every other recipient is an accepted CC entry and vice versa |
| MessageBuilder.SendGridMessageBuilder.RejectedCcIsDropped | src/NetCore.Utilities.Email.SendGrid/SendGridMessageBuilder.cs:92-99 | with one accepted and one rejected CC entry the build still succeeds, with recipients `[to, accepted]` and the multi-recipient shape |
| MessageBuilder.SubjectFor | src/NetCore.Utilities.Email.SendGrid/SendGridMessageBuilder.cs:104-105 | the subject keeps its text as a prefix; it changes exactly when the suffix option is on and the environment is not production, and then the addition is exactly " (" + environment name + ")" |
| MessageBuilder.SendGridMessageBuilder.SubjectOfMessage | src/NetCore.Utilities.Email.SendGrid/SendGridMessageBuilder.cs:104-105 | a built message's subject is the subject with the suffix added once under that condition, and the subject unchanged otherwise |
| MessageBuilder.TemplateFor | src/NetCore.Utilities.Email.SendGrid/SendGridMessageBuilder.cs:107-112 | exactly one branch applies: the default template iff templates are always applied and no name is given; the named template iff a name is given, whatever the option says, and it carries that name; no template otherwise |
| MessageBuilder.SendGridMessageBuilder.TemplateOfMessage | src/NetCore.Utilities.Email.SendGrid/SendGridMessageBuilder.cs:104-112 | the HTML is the renderer's output on the already-suffixed subject for the default or the named template, or the body as given |
| MessageBuilder.SendGridMessageBuilder.NullRenderingFails | src/NetCore.Utilities.Email.SendGrid/SendGridMessageBuilder.cs:107-115 | the build throws ArgumentNullException("input") exactly when everything before it succeeds and the chosen template renders to null; without a template this never happens |
| HtmlText.StripTags | src/NetCore.Utilities.Email.SendGrid/SendGridMessageBuilder.cs:115 | removing `<[^>]*>` never makes the text longer |
| HtmlText.StripTagsKeepsCharacters | src/NetCore.Utilities.Email.SendGrid/SendGridMessageBuilder.cs:115 | every character of the plain text occurs in the HTML |
| HtmlText.StripTagsIsTagFree | src/NetCore.Utilities.Email.SendGrid/SendGridMessageBuilder.cs:115 | no `<` in the plain text is followed anywhere later by `>` |
| HtmlText.StripTagsKeepsTagFree | src/NetCore.Utilities.Email.SendGrid/SendGridMessageBuilder.cs:115 | text with no `<` followed later by `>` is left unchanged |
| HtmlText.StripTagsFixedPoint | src/NetCore.Utilities.Email.SendGrid/SendGridMessageBuilder.cs:115 | stripping leaves a text unchanged if and only if the text holds no tag |
| HtmlText.StripTagsIdempotent | src/NetCore.Utilities.Email.SendGrid/SendGridMessageBuilder.cs:115 | stripping twice equals stripping once |
| HtmlText.StripTagsWithoutOpening | src/NetCore.Utilities.Email.SendGrid/SendGridMessageBuilder.cs:115 | text containing no `<` is returned unchanged |
| HtmlText.StripTagsDropsTag | src/NetCore.Utilities.Email.SendGrid/SendGridMessageBuilder.cs:115 | a complete tag `<...>` at the front of the text is removed and the rest is stripped as if it stood alone |
| HtmlText.StripTagsKeepsText | src/NetCore.Utilities.Email.SendGrid/SendGridMessageBuilder.cs:115 | text with no `<` at the front of the input is kept verbatim |
| HtmlText.StripTagsElement | src/NetCore.Utilities.Email.SendGrid/SendGridMessageBuilder.cs:115 | an element holding plain text, such as `<p>Hi</p>`, becomes exactly its text |
| MessageBuilder.SendGridMessageBuilder.PlainTextOfMessage | src/NetCore.Utilities.Email.SendGrid/SendGridMessageBuilder.cs:115 | a built message's plain text is its final HTML stripped of tags: tag-free, no longer than the HTML, and unchanged by a second strip |
| MessageBuilder.ShapeFor | src/NetCore.Utilities.Email.SendGrid/SendGridMessageBuilder.cs:118-122 | one recipient gives the single-recipient shape, two or more the multi-recipient shape |
| MessageBuilder.SendGridMessageBuilder.ShapeOfMessage | src/NetCore.Utilities.Email.SendGrid/SendGridMessageBuilder.cs:118-122 | a built message has at least one recipient, its shape matches the recipient count in both directions, and it has no attachment |
| MessageBuilder.SendGridMessageBuilder.AttachmentOfMessage | src/NetCore.Utilities.Email.SendGrid/SendGridMessageBuilder.cs:126-142 | the attachment variant fails exactly when CreateMessage fails, with the same exception, or when the file content is null (ArgumentNullException "inArray"); otherwise it is the same message with exactly one attachment: the given file name, disposition "attachment", content that decodes back to the file |
| Base64.CharOf | src/NetCore.Utilities.Email.SendGrid/SendGridMessageBuilder.cs:137 | no 6-bit value is encoded as the pad character |
| Base64.ValueOf | src/NetCore.Utilities.Email.SendGrid/SendGridMessageBuilder.cs:137 | an alphabet character stands for a value below 64; the pad stands for no value |
| Base64.ValueOfCharOf | src/NetCore.Utilities.Email.SendGrid/SendGridMessageBuilder.cs:137 | decoding a character of the alphabet gives back its 6-bit value |
| Base64.Encode | src/NetCore.Utilities.Email.SendGrid/SendGridMessageBuilder.cs:137 | the encoding of n bytes has 4 * ceil(n / 3) characters |
| Base64.DecodeEncode | src/NetCore.Utilities.Email.SendGrid/SendGridMessageBuilder.cs:137 | decoding the encoding of any byte sequence gives that sequence back |
| Base64.EncodeAlphabet | src/NetCore.Utilities.Email.SendGrid/SendGridMessageBuilder.cs:137 | every character of an encoding is from the alphabet or is the pad |
| OrdinalReplace.ReplaceAllWithoutKey | src/NetCore.Utilities.Email.SendGrid/SendGridService.cs:80 | text that does not contain the key comes back unchanged, with no match |
| OrdinalReplace.ReplaceAllBySelf | src/NetCore.Utilities.Email.SendGrid/SendGridService.cs:80 | replacing a key by itself changes nothing |
| OrdinalReplace.ReplaceAllWholeKey | src/NetCore.Utilities.Email.SendGrid/SendGridService.cs:80 | text that is exactly the key becomes exactly the value |
| OrdinalReplace.ReplaceAllLength | src/NetCore.Utilities.Email.SendGrid/SendGridService.cs:80 | each replaced occurrence trades the key's length for the value's length |
| OrdinalReplace.ReplaceAllAtFront | src/NetCore.Utilities.Email.SendGrid/SendGridService.cs:80 | a key at the front of the text is replaced by the value, and the search resumes after the key |
| OrdinalReplace.ReplaceAllSkipsFirst | src/NetCore.Utilities.Email.SendGrid/SendGridService.cs:80 | a first character that starts no occurrence is kept, and the search resumes at the next character |
| OrdinalReplace.ReplaceAllLeftmost | src/NetCore.Utilities.Email.SendGrid/SendGridService.cs:80 | `ReplaceAll` replaces the leftmost occurrence: the text before it is kept, the value takes the key's place, and the rest is searched from just after the key |
| OrdinalReplace.ReplaceAllChanges | src/NetCore.Utilities.Email.SendGrid/SendGridService.cs:80 | text containing the key is changed by `ReplaceAll` whenever the value differs from the key |
| OrdinalReplace.ReplaceAllUnchanged | src/NetCore.Utilities.Email.SendGrid/SendGridService.cs:80 | `ReplaceAll` leaves the text unchanged if and only if the key does not occur in it or the value is the key |
| OrdinalReplace.ReplaceAllNamePlaceholder | src/NetCore.Utilities.Email.SendGrid/SendGridService.cs:80 | replacing "{{NAME}}" by "Ann" turns "Hi {{NAME}}" into "Hi Ann" |
| Service.ReplaceToken | src/NetCore.Utilities.Email.SendGrid/SendGridService.cs:80 | one replacement succeeds exactly when the body is not null and the key is neither null nor empty; a null body is a NullReferenceException; a success leaves a non-null body |
| Service.SubstitutedAppend | src/NetCore.Utilities.Email.SendGrid/SendGridService.cs:76-82 | applying two token lists one after the other is applying their concatenation; a fault stops the rest |
| Service.SubstitutedInListOrder | src/NetCore.Utilities.Email.SendGrid/SendGridService.cs:78-81 | the first token is applied first, and the rest work on its result |
| Service.SubstitutedSucceeds | src/NetCore.Utilities.Email.SendGrid/SendGridService.cs:76-82 | on a non-null body the token loop completes exactly when no key is null or empty, and leaves a non-null body |
| Service.SubstitutedNullBody | src/NetCore.Utilities.Email.SendGrid/SendGridService.cs:76-82 | on a null body the loop throws NullReferenceException unless the token list is empty |
| Service.LaterKeySeesEarlierValue | src/NetCore.Utilities.Email.SendGrid/SendGridService.cs:78-81 | a later key matches text an earlier value put in: tokens (k1, k2), (k2, v2) turn k1 into v2 |
| Service.SubstitutedNamePlaceholder | src/NetCore.Utilities.Email.SendGrid/SendGridService.cs:76-82 | the tokens [("{{NAME}}", "Ann")] turn "Hi {{NAME}}" into "Hi Ann" |
| Service.ApiKeyFor | src/NetCore.Utilities.Email.SendGrid/SendGridService.cs:88-91 | the key is the default key when the key name is null or empty; otherwise it is found exactly when the name is in the additional keys, and it is then that entry; a name missing from the keys is a KeyNotFoundException for that name |
| Service.SendGridService.constructor | src/NetCore.Utilities.Email.SendGrid/SendGridService.cs:25-30 | the service keeps the options, builder and sender it is given |
| Service.SendGridService.AdminEmail | src/NetCore.Utilities.Email.SendGrid/SendGridService.cs:14 | the configured administrator address, or null when the options are null |
| Service.SendGridService.AdminName | src/NetCore.Utilities.Email.SendGrid/SendGridService.cs:17 | the configured administrator name, or null when the options are null |
| Service.SendGridService.DeliveryFromAdministrator | src/NetCore.Utilities.Email.SendGrid/SendGridService.cs:85-86 | a sent message is what the builder composes from the administrator address and name, with the caller's to, cc, subject and template name unchanged and the substituted body; its sender is the administrator address |
| Service.SendGridService.NullTokensKeepBody | src/NetCore.Utilities.Email.SendGrid/SendGridService.cs:76 | a null token list has the same outcome as an empty one: the body reaches the builder unchanged |
| Service.SendGridService.DeliveryKey | src/NetCore.Utilities.Email.SendGrid/SendGridService.cs:88-91 | a send uses the default key when no key name is given; otherwise it uses the named additional key, and a send happens only when that name is present |
| Service.SendGridService.MissingKeyIsFault | src/NetCore.Utilities.Email.SendGrid/SendGridService.cs:88-91 | for any token list whose substitution completes, once the message is built, a key name absent from the additional keys fails the send with KeyNotFoundException, or NullReferenceException when there are no additional keys; the default key is not used instead |
| Service.SendGridService.BuilderFaultPropagates | src/NetCore.Utilities.Email.SendGrid/SendGridService.cs:85-94 | for any token list whose substitution completes, a builder exception on the substituted body reaches the caller unchanged and no send is planned |
| Service.SendGridService.AttachmentDeliveryFromAdministrator | src/NetCore.Utilities.Email.SendGrid/SendGridService.cs:102-103 | a sent attachment message is what the builder's attachment variant composes from the administrator address and name, with the caller's other arguments and the body untouched; its sender is the administrator address |
| Service.SendGridService.AttachmentDeliveryKey | src/NetCore.Utilities.Email.SendGrid/SendGridService.cs:106-108 | the attachment send's key is chosen by the same rule as the canonical send: the default key with no key name, else the named additional key, which must be present |
| Sender.SendGridSender.SendMessage | src/NetCore.Utilities.Email.SendGrid/SendGridSender.cs:26-31 | the provider call is recorded once, with its key and message, and its answer is returned |
| Service.SendGridService.SendMessage | src/NetCore.Utilities.Email.SendGrid/SendGridService.cs:72-95 | the exception the specification plans reaches the caller and the sender is not called; otherwise the sender is called exactly once with the planned key and message and its answer is returned; the token loop keeps the body equal to the substitution of the processed prefix |
| Service.SendGridService.SendMessageWithCcAndTokens | src/NetCore.Utilities.Email.SendGrid/SendGridService.cs:65-68 | the same outcome as the canonical send with an empty template name and the default key |
| Service.SendGridService.SendMessageWithCc | src/NetCore.Utilities.Email.SendGrid/SendGridService.cs:59-62 | the same outcome as the canonical send with null tokens, an empty template name and the default key |
| Service.SendGridService.SendMessageTo | src/NetCore.Utilities.Email.SendGrid/SendGridService.cs:46-50 | the same outcome as the canonical send with a null CC list and null tokens |
| Service.SendGridService.SendMessageToWithTokens | src/NetCore.Utilities.Email.SendGrid/SendGridService.cs:53-56 | the tokens argument is discarded: the outcome is the canonical send with null CC and null tokens, whatever tokens are passed |
| Service.SendGridService.SendMessageToAdministrator | src/NetCore.Utilities.Email.SendGrid/SendGridService.cs:33-37 | null options throw NullReferenceException before any send; otherwise the message goes to the administrator address with a null CC list |
| Service.SendGridService.SendMessageToAdministratorWithCc | src/NetCore.Utilities.Email.SendGrid/SendGridService.cs:40-43 | null options throw NullReferenceException before any send; otherwise the message goes to the administrator address with the given CC list |
| Service.SendGridService.SendMessageWithAttachment | src/NetCore.Utilities.Email.SendGrid/SendGridService.cs:98-112 | no token substitution; the builder's attachment variant is used with the administrator as sender; the key is chosen by the same rule; the sender is called once or not at all, as in the canonical send |

## Left out

- Token substitution on the attachment path is not modelled. `SendMessageWithAttachment` accepts tokens but never uses them.
- The async bridge (`GetAwaiter().GetResult()`) is not modelled. The sender's call is a plain synchronous call.
- Transport exceptions are not modelled. The sender's answer is a fixed function `deliver` of key and message, so the network, HTTP status handling and exceptions inside `SendGridClient` are outside the model.
- Sender.SendGridSender.SendMessage does not model the provider client. The answer is uninterpreted, since the client is a foreign network call.
- The template renderer (`IEmailTemplateFactory.BuildEmailContent`) is an uninterpreted function of subject, body and an optional template name. Its answer may be any string or null; only the null case is given a meaning, the exception at line 115.
- The service is modelled with the library's own `SendGridMessageBuilder`. The source injects the `ISendGridMessageBuilder` interface (SendGridService.cs line 10), so a different builder, such as a test double, is not covered.
- The e-mail address constructor of the provider's library is an uninterpreted predicate `accepts`:
  - a rejected `from` or `to` is an exception;
  - a rejected CC entry is skipped;
  - no claim is made about what the constructor actually validates.
- The hosting environment is a value holding its name and its production flag. It is not an environment lookup.
- Logging of a skipped CC entry is a no-op. The logger has no effect on the result.
- Null entries inside the CC list are not representable: entries are plain strings. What a null entry does is left to `accepts`.
- Null values inside `AdditionalApiKeys` are not representable: the map's values are plain strings.
- The message is an immutable value. `CreateMessageWithAttachment` overwrites the built message's `Attachments` list in place; the model uses a datatype update, so object identity and aliasing of the message are not captured.
- The provider's `MailHelper` builds personalizations. The model does not reproduce that structure: it records the recipient list and which of the two helpers was chosen (`Shape`).
- Dependency-injection registration, configuration binding and the options class's property accessors are not modelled. The options are a read-only record given at construction.
- `string.Replace` is modelled as ordinal, with the .NET exception for a null or empty key. Culture-sensitive comparison and surrogate handling do not apply to the ordinal overload and are not modelled.
