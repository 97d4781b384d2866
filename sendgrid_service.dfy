/** SendGridService: the public send operations. Every SendMessage and
    SendMessageToAdministrator overload reaches one canonical SendMessage, which
    substitutes tokens into the body, has the builder compose the message with
    the administrator as sender, picks the API key and hands both to the sender.
    SendMessageWithAttachment takes its own path: no substitution, the builder's
    attachment variant, and the same key rule. */
module Service {
  import opened Common
  import opened Options
  import opened Mail
  import opened Sender
  import OrdinalReplace
  import MessageBuilder

  /** One entry of the tokens list: a key/value pair, either part possibly null. */
  datatype Token = Token(key: Option<string>, value: Option<string>)

  /** bodyHtml.Replace(token.Key, token.Value): null body, null key and empty key
      throw; a null value removes the key. */
  function ReplaceToken(body: Option<string>, token: Token): (r: Result<Option<string>>)
    ensures r.Ok? <==> body.Some? && !IsNullOrEmpty(token.key)
    ensures r.Ok? ==> r.value.Some?
    ensures body.None? ==> r == Err(NullReference)
  {
    if body.None? then Err(NullReference)
    else if token.key.None? then Err(ArgumentNull("oldValue"))
    else if token.key.value == "" then Err(Argument("oldValue"))
    else Ok(Some(OrdinalReplace.ReplaceAll(body.value, token.key.value, token.value.GetOr(""))))
  }

  /** The body after the token loop: every token, in list order, applied to the running body. */
  function Substituted(body: Option<string>, tokens: seq<Token>): Result<Option<string>>
    decreases |tokens|
  {
    if tokens == [] then Ok(body)
    else
      match Substituted(body, tokens[..|tokens| - 1])
      case Err(fault) => Err(fault)
      case Ok(running) => ReplaceToken(running, tokens[|tokens| - 1])
  }

  /** Carries on with more tokens after an earlier outcome; a fault stops everything. */
  function ThenSubstitute(earlier: Result<Option<string>>, tokens: seq<Token>): Result<Option<string>> {
    match earlier
    case Err(fault) => Err(fault)
    case Ok(running) => Substituted(running, tokens)
  }

  /** Substituting two lists one after the other is substituting their concatenation. */
  lemma {:induction false} SubstitutedAppend(body: Option<string>, first: seq<Token>, second: seq<Token>)
    ensures Substituted(body, first + second) == ThenSubstitute(Substituted(body, first), second)
    decreases |second|
  {
    if second == [] {
      assert first + second == first;
    } else {
      var init := second[..|second| - 1];
      SubstitutedAppend(body, first, init);
      assert (first + second)[..|first + second| - 1] == first + init;
      assert (first + second)[|first + second| - 1] == second[|second| - 1];
    }
  }

  /** The first token is applied first, then the rest on its result. */
  lemma SubstitutedInListOrder(body: Option<string>, token: Token, rest: seq<Token>)
    ensures Substituted(body, [token] + rest) == ThenSubstitute(ReplaceToken(body, token), rest)
  {
    SubstitutedAppend(body, [token], rest);
    assert [token][..0] == [];
  }

  /** On a non-null body the loop finishes exactly when no key is null or empty,
      and then the body is still non-null. */
  lemma {:induction false} SubstitutedSucceeds(body: string, tokens: seq<Token>)
    ensures Substituted(Some(body), tokens).Ok? <==> forall i :: 0 <= i < |tokens| ==> !IsNullOrEmpty(tokens[i].key)
    ensures Substituted(Some(body), tokens).Ok? ==> Substituted(Some(body), tokens).value.Some?
    decreases |tokens|
  {
    if tokens != [] {
      var init := tokens[..|tokens| - 1];
      SubstitutedSucceeds(body, init);
      assert forall i :: 0 <= i < |init| ==> init[i] == tokens[i];
    }
  }

  /** On a null body the loop faults unless the token list is empty. */
  lemma SubstitutedNullBody(tokens: seq<Token>)
    ensures Substituted(None, tokens) == if tokens == [] then Ok(None) else Err(NullReference)
  {
    if tokens != [] {
      SubstitutedInListOrder(None, tokens[0], tokens[1..]);
      assert [tokens[0]] + tokens[1..] == tokens;
    }
  }

  /** A later key matches text that an earlier value put in: replacing k1 by k2
      and then k2 by v2 turns k1 into v2. */
  lemma LaterKeySeesEarlierValue(k1: string, k2: string, v2: string)
    requires k1 != [] && k2 != []
    ensures Substituted(Some(k1), [Token(Some(k1), Some(k2)), Token(Some(k2), Some(v2))]) == Ok(Some(v2))
  {
    var tokens := [Token(Some(k1), Some(k2)), Token(Some(k2), Some(v2))];
    OrdinalReplace.ReplaceAllWholeKey(k1, k2);
    OrdinalReplace.ReplaceAllWholeKey(k2, v2);
    assert tokens[..1][..0] == [];
    assert Substituted(Some(k1), tokens[..1]) == Ok(Some(k2));
  }

  /** The tokens [("{{NAME}}", "Ann")] turn "Hi {{NAME}}" into "Hi Ann". */
  lemma SubstitutedNamePlaceholder()
    ensures Substituted(Some("Hi {{NAME}}"), [Token(Some("{{NAME}}"), Some("Ann"))]) == Ok(Some("Hi Ann"))
  {
    OrdinalReplace.ReplaceAllNamePlaceholder();
    assert [Token(Some("{{NAME}}"), Some("Ann"))][..0] == [];
  }

  /** The API key: the default key when no key name is given, otherwise the
      named entry of the additional keys, with no fallback to the default. */
  function ApiKeyFor(options: ServiceOptions, senderKeyName: Option<string>): (r: Result<Option<string>>)
    ensures IsNullOrEmpty(senderKeyName) ==> r == Ok(options.sendGridApiKey)
    ensures !IsNullOrEmpty(senderKeyName) ==>
      (r.Ok? <==> options.additionalApiKeys.Some? && senderKeyName.value in options.additionalApiKeys.value)
    ensures !IsNullOrEmpty(senderKeyName) && r.Ok? ==>
      r.value == Some(options.additionalApiKeys.value[senderKeyName.value])
    ensures (!IsNullOrEmpty(senderKeyName) && options.additionalApiKeys.Some? &&
             senderKeyName.value !in options.additionalApiKeys.value) ==> r == Err(KeyNotFound(senderKeyName.value))
  {
    if IsNullOrEmpty(senderKeyName) then Ok(options.sendGridApiKey)
    else if options.additionalApiKeys.None? then Err(NullReference)
    else if senderKeyName.value !in options.additionalApiKeys.value then Err(KeyNotFound(senderKeyName.value))
    else Ok(Some(options.additionalApiKeys.value[senderKeyName.value]))
  }

  class SendGridService {
    /** The configured options; None when the options value is null. */
    const options: Option<ServiceOptions>
    const builder: MessageBuilder.SendGridMessageBuilder
    const sender: SendGridSender

    constructor (options: Option<ServiceOptions>, builder: MessageBuilder.SendGridMessageBuilder,
                 sender: SendGridSender)
      ensures this.options == options && this.builder == builder && this.sender == sender
    {
      this.options := options;
      this.builder := builder;
      this.sender := sender;
    }

    /** The configured administrator address; null when the options are null. */
    function AdminEmail(): (email: Option<string>)
      ensures options.None? ==> email == None
      ensures options.Some? ==> email == options.value.adminEmail
    {
      if options.None? then None else options.value.adminEmail
    }

    /** The configured administrator name; null when the options are null. */
    function AdminName(): (name: Option<string>)
      ensures options.None? ==> name == None
      ensures options.Some? ==> name == options.value.adminName
    {
      if options.None? then None else options.value.adminName
    }

    /** The provider call the canonical SendMessage makes, or the exception it
        throws before making one. */
    function PlannedDelivery(to: Option<string>, cc: Option<seq<string>>, subject: Option<string>,
                             bodyHtml: Option<string>, tokens: Option<seq<Token>>,
                             templateName: Option<string>, senderKeyName: Option<string>): Result<Delivery>
    {
      var body := if tokens.Some? then Substituted(bodyHtml, tokens.value) else Ok(bodyHtml);
      if body.Err? then Err(body.fault)
      else if options.None? then Err(NullReference)
      else
        var built := builder.ComposedMessage(options.value.adminEmail, options.value.adminName, to, cc,
                                             subject, body.value, templateName);
        if built.Err? then Err(built.fault)
        else
          var key := ApiKeyFor(options.value, senderKeyName);
          if key.Err? then Err(key.fault)
          else Ok(Delivery(key.value, built.value))
    }

    /** The provider call SendMessageWithAttachment makes, or the exception it
        throws before making one. */
    function PlannedAttachmentDelivery(to: Option<string>, cc: Option<seq<string>>, subject: Option<string>,
                                       fileContent: Option<seq<bv8>>, fileName: Option<string>,
                                       bodyHtml: Option<string>, templateName: Option<string>,
                                       senderKeyName: Option<string>): Result<Delivery>
    {
      if options.None? then Err(NullReference)
      else
        var built := builder.ComposedMessageWithAttachment(options.value.adminEmail, options.value.adminName,
                                                           to, cc, fileContent, fileName, subject,
                                                           bodyHtml, templateName);
        if built.Err? then Err(built.fault)
        else
          var key := ApiKeyFor(options.value, senderKeyName);
          if key.Err? then Err(key.fault)
          else Ok(Delivery(key.value, built.value))
    }

    /** After a send: a planned fault is what the caller gets and the sender was
        not called; a planned call was made exactly once and its answer returned. */
    ghost predicate Dispatched(before: seq<Delivery>, plan: Result<Delivery>, r: Result<bool>)
      reads sender
    {
      match plan
      case Err(fault) => r == Err(fault) && sender.calls == before
      case Ok(delivery) =>
        r == Ok(sender.deliver(delivery.apiKey, delivery.message)) && sender.calls == before + [delivery]
    }

    /** The builder is always given the administrator as sender and the caller's
        recipients, subject and template name unchanged; its body is the
        substituted body. */
    lemma DeliveryFromAdministrator(to: Option<string>, cc: Option<seq<string>>, subject: Option<string>,
                                    bodyHtml: Option<string>, tokens: Option<seq<Token>>,
                                    templateName: Option<string>, senderKeyName: Option<string>)
      ensures var plan := PlannedDelivery(to, cc, subject, bodyHtml, tokens, templateName, senderKeyName);
        var body := if tokens.Some? then Substituted(bodyHtml, tokens.value) else Ok(bodyHtml);
        plan.Ok? ==>
          && body.Ok?
          && Ok(plan.value.message) ==
               builder.ComposedMessage(AdminEmail(), AdminName(), to, cc, subject, body.value, templateName)
          && plan.value.message.from.email == AdminEmail().value
    {
      var plan := PlannedDelivery(to, cc, subject, bodyHtml, tokens, templateName, senderKeyName);
      var body := if tokens.Some? then Substituted(bodyHtml, tokens.value) else Ok(bodyHtml);
      if plan.Ok? {
        builder.SenderOfMessage(AdminEmail(), AdminName(), to, cc, subject, body.value, templateName);
      }
    }

    /** A null token list leaves the body as given, the same as an empty one. */
    lemma NullTokensKeepBody(to: Option<string>, cc: Option<seq<string>>, subject: Option<string>,
                             bodyHtml: Option<string>, templateName: Option<string>, senderKeyName: Option<string>)
      ensures PlannedDelivery(to, cc, subject, bodyHtml, None, templateName, senderKeyName) ==
              PlannedDelivery(to, cc, subject, bodyHtml, Some([]), templateName, senderKeyName)
    {
    }

    /** The key sent with is the default key when no key name is given and the
        named additional key otherwise; a name missing from the additional keys
        is a fault and the default key is never used in its place. */
    lemma DeliveryKey(to: Option<string>, cc: Option<seq<string>>, subject: Option<string>,
                      bodyHtml: Option<string>, tokens: Option<seq<Token>>,
                      templateName: Option<string>, senderKeyName: Option<string>)
      ensures var plan := PlannedDelivery(to, cc, subject, bodyHtml, tokens, templateName, senderKeyName);
        && (plan.Ok? && IsNullOrEmpty(senderKeyName) ==> plan.value.apiKey == options.value.sendGridApiKey)
        && (plan.Ok? && !IsNullOrEmpty(senderKeyName) ==>
              && options.value.additionalApiKeys.Some?
              && senderKeyName.value in options.value.additionalApiKeys.value
              && plan.value.apiKey == Some(options.value.additionalApiKeys.value[senderKeyName.value]))
    {
    }

    /** A key name missing from the additional keys fails the send once the
        message is built; the default key is not used in its place. */
    lemma MissingKeyIsFault(to: Option<string>, cc: Option<seq<string>>, subject: Option<string>,
                            bodyHtml: Option<string>, tokens: Option<seq<Token>>, body: Option<string>,
                            templateName: Option<string>, senderKeyName: Option<string>)
      requires options.Some? && !IsNullOrEmpty(senderKeyName)
      requires (if tokens.Some? then Substituted(bodyHtml, tokens.value) else Ok(bodyHtml)) == Ok(body)
      requires builder.ComposedMessage(AdminEmail(), AdminName(), to, cc, subject, body, templateName).Ok?
      ensures options.value.additionalApiKeys.None? ==>
        PlannedDelivery(to, cc, subject, bodyHtml, tokens, templateName, senderKeyName) == Err(NullReference)
      ensures options.value.additionalApiKeys.Some? && senderKeyName.value !in options.value.additionalApiKeys.value ==>
        PlannedDelivery(to, cc, subject, bodyHtml, tokens, templateName, senderKeyName) == Err(KeyNotFound(senderKeyName.value))
    {
    }

    /** A builder fault is passed on unchanged, and no provider call is planned. */
    lemma BuilderFaultPropagates(to: Option<string>, cc: Option<seq<string>>, subject: Option<string>,
                                 bodyHtml: Option<string>, tokens: Option<seq<Token>>, body: Option<string>,
                                 templateName: Option<string>, senderKeyName: Option<string>, fault: Fault)
      requires options.Some?
      requires (if tokens.Some? then Substituted(bodyHtml, tokens.value) else Ok(bodyHtml)) == Ok(body)
      requires builder.ComposedMessage(AdminEmail(), AdminName(), to, cc, subject, body, templateName) == Err(fault)
      ensures PlannedDelivery(to, cc, subject, bodyHtml, tokens, templateName, senderKeyName) == Err(fault)
    {
    }

    /** The attachment send has the administrator as sender: its message is what
        the builder's attachment variant composes from the administrator address
        and name and the caller's other arguments, the body untouched. */
    lemma AttachmentDeliveryFromAdministrator(to: Option<string>, cc: Option<seq<string>>, subject: Option<string>,
                                              fileContent: Option<seq<bv8>>, fileName: Option<string>,
                                              bodyHtml: Option<string>, templateName: Option<string>,
                                              senderKeyName: Option<string>)
      ensures var plan := PlannedAttachmentDelivery(to, cc, subject, fileContent, fileName, bodyHtml,
                                                    templateName, senderKeyName);
        plan.Ok? ==>
          && Ok(plan.value.message) ==
               builder.ComposedMessageWithAttachment(AdminEmail(), AdminName(), to, cc, fileContent, fileName,
                                                     subject, bodyHtml, templateName)
          && plan.value.message.from.email == AdminEmail().value
    {
      var plan := PlannedAttachmentDelivery(to, cc, subject, fileContent, fileName, bodyHtml,
                                            templateName, senderKeyName);
      if plan.Ok? {
        builder.AttachmentOfMessage(AdminEmail(), AdminName(), to, cc, fileContent, fileName,
                                    subject, bodyHtml, templateName);
        builder.SenderOfMessage(AdminEmail(), AdminName(), to, cc, subject, bodyHtml, templateName);
      }
    }

    /** The attachment send picks its key by the same rule as the canonical send. */
    lemma AttachmentDeliveryKey(to: Option<string>, cc: Option<seq<string>>, subject: Option<string>,
                                fileContent: Option<seq<bv8>>, fileName: Option<string>,
                                bodyHtml: Option<string>, templateName: Option<string>,
                                senderKeyName: Option<string>)
      ensures var plan := PlannedAttachmentDelivery(to, cc, subject, fileContent, fileName, bodyHtml,
                                                    templateName, senderKeyName);
        && (plan.Ok? ==> options.Some? && Ok(plan.value.apiKey) == ApiKeyFor(options.value, senderKeyName))
        && (plan.Ok? && IsNullOrEmpty(senderKeyName) ==> plan.value.apiKey == options.value.sendGridApiKey)
        && (plan.Ok? && !IsNullOrEmpty(senderKeyName) ==>
              && options.value.additionalApiKeys.Some?
              && senderKeyName.value in options.value.additionalApiKeys.value
              && plan.value.apiKey == Some(options.value.additionalApiKeys.value[senderKeyName.value]))
    {
    }

    /** The canonical SendMessage. */
    method SendMessage(to: Option<string>, cc: Option<seq<string>>, subject: Option<string>,
                       bodyHtml: Option<string>, tokens: Option<seq<Token>>,
                       templateName: Option<string>, senderKeyName: Option<string>) returns (r: Result<bool>)
      modifies sender
      ensures Dispatched(old(sender.calls), PlannedDelivery(to, cc, subject, bodyHtml, tokens, templateName, senderKeyName), r)
    {
      var body := bodyHtml;
      if tokens.Some? {
        var items := tokens.value;
        var i := 0;
        while i < |items|
          invariant 0 <= i <= |items|
          invariant Substituted(bodyHtml, items[..i]) == Ok(body)
        {
          var replaced := ReplaceToken(body, items[i]);
          assert items[..i + 1][..i] == items[..i];
          if replaced.Err? {
            SubstitutedAppend(bodyHtml, items[..i + 1], items[i + 1..]);
            assert items[..i + 1] + items[i + 1..] == items;
            return Err(replaced.fault);
          }
          body := replaced.value;
          i := i + 1;
        }
        assert items[..i] == items;
      }

      if options.None? { return Err(NullReference); }
      var toSend := builder.CreateMessage(options.value.adminEmail, options.value.adminName, to, cc,
                                          subject, body, templateName);
      if toSend.Err? { return Err(toSend.fault); }

      var apiKey := options.value.sendGridApiKey;
      if !IsNullOrEmpty(senderKeyName) {
        if options.value.additionalApiKeys.None? { return Err(NullReference); }
        if senderKeyName.value !in options.value.additionalApiKeys.value {
          return Err(KeyNotFound(senderKeyName.value));
        }
        apiKey := Some(options.value.additionalApiKeys.value[senderKeyName.value]);
      }

      var ok := sender.SendMessage(apiKey, toSend.value);
      return Ok(ok);
    }

    /** SendMessage(to, cc, subject, body, tokens): no template name, default key. */
    method SendMessageWithCcAndTokens(to: Option<string>, cc: Option<seq<string>>, subject: Option<string>,
                                      bodyHtml: Option<string>, tokens: Option<seq<Token>>) returns (r: Result<bool>)
      modifies sender
      ensures Dispatched(old(sender.calls), PlannedDelivery(to, cc, subject, bodyHtml, tokens, Some(""), Some("")), r)
    {
      r := SendMessage(to, cc, subject, bodyHtml, tokens, Some(""), Some(""));
    }

    /** SendMessage(to, cc, subject, body): no tokens, no template name, default key. */
    method SendMessageWithCc(to: Option<string>, cc: Option<seq<string>>, subject: Option<string>,
                             bodyHtml: Option<string>) returns (r: Result<bool>)
      modifies sender
      ensures Dispatched(old(sender.calls), PlannedDelivery(to, cc, subject, bodyHtml, None, Some(""), Some("")), r)
    {
      r := SendMessage(to, cc, subject, bodyHtml, None, Some(""), Some(""));
    }

    /** SendMessage(to, subject, body): no CC list. */
    method SendMessageTo(to: Option<string>, subject: Option<string>, bodyHtml: Option<string>)
      returns (r: Result<bool>)
      modifies sender
      ensures Dispatched(old(sender.calls), PlannedDelivery(to, None, subject, bodyHtml, None, Some(""), Some("")), r)
    {
      r := SendMessageWithCc(to, None, subject, bodyHtml);
    }

    /** SendMessage(to, subject, body, tokens): the tokens are dropped, so the
        outcome is the same whatever tokens are passed. */
    method SendMessageToWithTokens(to: Option<string>, subject: Option<string>, bodyHtml: Option<string>,
                                   tokens: Option<seq<Token>>) returns (r: Result<bool>)
      modifies sender
      ensures Dispatched(old(sender.calls), PlannedDelivery(to, None, subject, bodyHtml, None, Some(""), Some("")), r)
    {
      r := SendMessage(to, None, subject, bodyHtml, None, Some(""), Some(""));
    }

    /** SendMessageToAdministrator(subject, body): sent to the administrator address. */
    method SendMessageToAdministrator(subject: Option<string>, bodyHtml: Option<string>) returns (r: Result<bool>)
      modifies sender
      ensures options.None? ==> r == Err(NullReference) && sender.calls == old(sender.calls)
      ensures options.Some? ==>
        Dispatched(old(sender.calls), PlannedDelivery(AdminEmail(), None, subject, bodyHtml, None, Some(""), Some("")), r)
    {
      if options.None? { return Err(NullReference); }
      r := SendMessageWithCc(options.value.adminEmail, None, subject, bodyHtml);
    }

    /** SendMessageToAdministrator(cc, subject, body): to the administrator, with the CC list. */
    method SendMessageToAdministratorWithCc(cc: Option<seq<string>>, subject: Option<string>,
                                            bodyHtml: Option<string>) returns (r: Result<bool>)
      modifies sender
      ensures options.None? ==> r == Err(NullReference) && sender.calls == old(sender.calls)
      ensures options.Some? ==>
        Dispatched(old(sender.calls), PlannedDelivery(AdminEmail(), cc, subject, bodyHtml, None, Some(""), Some("")), r)
    {
      if options.None? { return Err(NullReference); }
      r := SendMessageWithCc(options.value.adminEmail, cc, subject, bodyHtml);
    }

    /** SendMessageWithAttachment: no token substitution (the tokens are unused),
        the attachment path of the builder, the same key selection. */
    method SendMessageWithAttachment(to: Option<string>, cc: Option<seq<string>>, subject: Option<string>,
                                     fileContent: Option<seq<bv8>>, fileName: Option<string>,
                                     bodyHtml: Option<string>, tokens: Option<seq<Token>>,
                                     templateName: Option<string>, senderKeyName: Option<string>)
      returns (r: Result<bool>)
      modifies sender
      ensures Dispatched(old(sender.calls),
                         PlannedAttachmentDelivery(to, cc, subject, fileContent, fileName, bodyHtml,
                                                   templateName, senderKeyName), r)
    {
      if options.None? { return Err(NullReference); }
      var toSend := builder.CreateMessageWithAttachment(options.value.adminEmail, options.value.adminName,
                                                        to, cc, fileContent, fileName, subject, bodyHtml,
                                                        templateName);
      if toSend.Err? { return Err(toSend.fault); }

      var apiKey := options.value.sendGridApiKey;
      if !IsNullOrEmpty(senderKeyName) {
        if options.value.additionalApiKeys.None? { return Err(NullReference); }
        if senderKeyName.value !in options.value.additionalApiKeys.value {
          return Err(KeyNotFound(senderKeyName.value));
        }
        apiKey := Some(options.value.additionalApiKeys.value[senderKeyName.value]);
      }

      var ok := sender.SendMessage(apiKey, toSend.value);
      return Ok(ok);
    }
  }
}
