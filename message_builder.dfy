/** SendGridMessageBuilder: turns the arguments of a send request into the
    message handed to the provider. Validation, addresses, the CC list, the
    environment suffix, the template choice, the plain-text body and the
    message shape, in that order. */
module MessageBuilder {
  import opened Common
  import opened Options
  import opened Mail
  import HtmlText
  import Base64

  /** What the hosting environment tells the builder. */
  datatype HostingEnvironment = HostingEnvironment(environmentName: string, isProduction: bool)

  /** Which of the three templating branches applies. */
  datatype TemplateChoice = DefaultTemplate | NamedTemplate(name: string) | Untemplated

  /** The CC entries whose address the address constructor takes, in their order. */
  function Accepted(accepts: string -> bool, cc: seq<string>): (kept: seq<string>)
    ensures |kept| <= |cc|
    decreases |cc|
  {
    if cc == [] then []
    else
      var last := cc[|cc| - 1];
      Accepted(accepts, cc[..|cc| - 1]) + (if accepts(last) then [last] else [])
  }

  /** An entry is kept exactly when it is in the list and its address is taken. */
  lemma {:induction false} AcceptedMembership(accepts: string -> bool, cc: seq<string>, x: string)
    ensures x in Accepted(accepts, cc) <==> x in cc && accepts(x)
    decreases |cc|
  {
    if cc != [] {
      var init := cc[..|cc| - 1];
      AcceptedMembership(accepts, init, x);
      assert cc == init + [cc[|cc| - 1]];
    }
  }

  /** Filtering a list in two parts gives the two filtered parts, in order. */
  lemma {:induction false} AcceptedAppend(accepts: string -> bool, a: seq<string>, b: seq<string>)
    ensures Accepted(accepts, a + b) == Accepted(accepts, a) + Accepted(accepts, b)
    decreases |b|
  {
    if b == [] {
      assert a + b == a;
    } else {
      var init := b[..|b| - 1];
      AcceptedAppend(accepts, a, init);
      assert (a + b)[..|a + b| - 1] == a + init;
    }
  }

  /** Nothing is dropped exactly when every entry's address is taken. */
  lemma {:induction false} AcceptedKeepsAll(accepts: string -> bool, cc: seq<string>)
    ensures Accepted(accepts, cc) == cc <==> forall i :: 0 <= i < |cc| ==> accepts(cc[i])
    decreases |cc|
  {
    if cc != [] {
      var init, last := cc[..|cc| - 1], cc[|cc| - 1];
      AcceptedKeepsAll(accepts, init);
      var kept := Accepted(accepts, init);
      if accepts(last) {
        assert Accepted(accepts, cc) == kept + [last];
        if kept + [last] == cc {
          assert kept == (kept + [last])[..|kept|];
        }
        assert cc == init + [last];
      } else {
        assert !accepts(cc[|cc| - 1]);
      }
    }
  }

  /** The subject after the environment suffix step. */
  function SubjectFor(subject: string, addSuffix: bool, environment: HostingEnvironment): (r: string)
    ensures |subject| <= |r| && r[..|subject|] == subject
    ensures r != subject <==> addSuffix && !environment.isProduction
    ensures r != subject ==> r[|subject|..] == " (" + environment.environmentName + ")"
  {
    if addSuffix && !environment.isProduction then subject + " (" + environment.environmentName + ")"
    else subject
  }

  /** The templating decision, keyed by the always-template option and the requested name. */
  function TemplateFor(alwaysTemplate: bool, templateName: Option<string>): (choice: TemplateChoice)
    ensures choice == DefaultTemplate <==> alwaysTemplate && IsNullOrEmpty(templateName)
    ensures choice.NamedTemplate? <==> !IsNullOrEmpty(templateName)
    ensures choice.NamedTemplate? ==> Some(choice.name) == templateName
    ensures choice == Untemplated <==> !alwaysTemplate && IsNullOrEmpty(templateName)
  {
    if alwaysTemplate && IsNullOrEmpty(templateName) then DefaultTemplate
    else if !IsNullOrEmpty(templateName) then NamedTemplate(templateName.value)
    else Untemplated
  }

  /** The helper used to build the message, from the number of recipients. */
  function ShapeFor(recipientCount: nat): (shape: Shape)
    requires recipientCount >= 1
    ensures shape == Single <==> recipientCount == 1
    ensures shape == Multiple <==> recipientCount >= 2
  {
    if recipientCount == 1 then Single else Multiple
  }

  /** The sender address: `from`, named only when `fromName` is neither null nor empty. */
  function SenderAddress(from: string, fromName: Option<string>): (address: Address)
    ensures address.email == from
    ensures address.name.Some? <==> !IsNullOrEmpty(fromName)
    ensures address.name.Some? ==> address.name == fromName
  {
    Address(from, if IsNullOrEmpty(fromName) then None else fromName)
  }

  class SendGridMessageBuilder {
    const environment: HostingEnvironment
    /** The template renderer: (subject, body, template name) to HTML; None asks for the
        default template. Its answer is a .NET string, so it may be null (None). */
    const render: (string, string, Option<string>) -> Option<string>
    /** The configured options; None when the options value is null. */
    const settings: Option<ServiceOptions>
    /** Whether the e-mail address constructor takes an address (false: it throws). */
    const accepts: string -> bool

    constructor (environment: HostingEnvironment, render: (string, string, Option<string>) -> Option<string>,
                 settings: Option<ServiceOptions>, accepts: string -> bool)
      ensures this.environment == environment && this.render == render
      ensures this.settings == settings && this.accepts == accepts
    {
      this.environment := environment;
      this.render := render;
      this.settings := settings;
      this.accepts := accepts;
    }

    /** The HTML body after the templating step. */
    function RenderedBody(subject: string, bodyHtml: string, choice: TemplateChoice): Option<string> {
      match choice
      case DefaultTemplate => render(subject, bodyHtml, None)
      case NamedTemplate(name) => render(subject, bodyHtml, Some(name))
      case Untemplated => Some(bodyHtml)
    }

    /** What CreateMessage returns or throws. */
    function ComposedMessage(from: Option<string>, fromName: Option<string>, to: Option<string>,
                             cc: Option<seq<string>>, subject: Option<string>, bodyHtml: Option<string>,
                             templateName: Option<string>): Result<Message>
    {
      if IsNullOrEmpty(from) then Err(ArgumentNull("from"))
      else if IsNullOrEmpty(to) then Err(ArgumentNull("to"))
      else if IsNullOrEmpty(subject) then Err(ArgumentNull("subject"))
      else if IsNullOrEmpty(bodyHtml) then Err(ArgumentNull("bodyHtml"))
      else if !accepts(from.value) then Err(AddressRejected(from.value))
      else if !accepts(to.value) then Err(AddressRejected(to.value))
      else if settings.None? then Err(NullReference)
      else
        var recipients := [to.value] + (if cc.Some? then Accepted(accepts, cc.value) else []);
        var finalSubject := SubjectFor(subject.value, settings.value.addEnvironmentSuffix, environment);
        var html := RenderedBody(finalSubject, bodyHtml.value,
                                 TemplateFor(settings.value.alwaysTemplateEmails, templateName));
        if html.None? then Err(ArgumentNull("input"))
        else Ok(Message(SenderAddress(from.value, fromName), recipients, finalSubject,
                        HtmlText.StripTags(html.value), html.value, ShapeFor(|recipients|), []))
    }

    /** What CreateMessageWithAttachment returns or throws. */
    function ComposedMessageWithAttachment(from: Option<string>, fromName: Option<string>, to: Option<string>,
                                           cc: Option<seq<string>>, fileContent: Option<seq<bv8>>,
                                           fileName: Option<string>, subject: Option<string>,
                                           bodyHtml: Option<string>, templateName: Option<string>): Result<Message>
    {
      match ComposedMessage(from, fromName, to, cc, subject, bodyHtml, templateName)
      case Err(fault) => Err(fault)
      case Ok(message) =>
        if fileContent.None? then Err(ArgumentNull("inArray"))
        else Ok(message.(attachments := [Attachment(Base64.Encode(fileContent.value), fileName, "attachment")]))
    }

    /** The four mandatory arguments are checked in the order from, to, subject,
        bodyHtml; the first null or empty one is named in an ArgumentNullException,
        and one of the four is named exactly when one of them is null or empty. */
    lemma ValidationOrder(from: Option<string>, fromName: Option<string>, to: Option<string>,
                          cc: Option<seq<string>>, subject: Option<string>, bodyHtml: Option<string>,
                          templateName: Option<string>)
      ensures var r := ComposedMessage(from, fromName, to, cc, subject, bodyHtml, templateName);
        && (IsNullOrEmpty(from) ==> r == Err(ArgumentNull("from")))
        && (!IsNullOrEmpty(from) && IsNullOrEmpty(to) ==> r == Err(ArgumentNull("to")))
        && (!IsNullOrEmpty(from) && !IsNullOrEmpty(to) && IsNullOrEmpty(subject) ==>
              r == Err(ArgumentNull("subject")))
        && (!IsNullOrEmpty(from) && !IsNullOrEmpty(to) && !IsNullOrEmpty(subject) && IsNullOrEmpty(bodyHtml) ==>
              r == Err(ArgumentNull("bodyHtml")))
        && (r.Err? && r.fault.ArgumentNull? && r.fault.paramName in ["from", "to", "subject", "bodyHtml"] <==>
              IsNullOrEmpty(from) || IsNullOrEmpty(to) || IsNullOrEmpty(subject) || IsNullOrEmpty(bodyHtml))
    {
    }

    /** The build succeeds exactly when the four mandatory arguments are present,
        the from and to addresses are taken, the options are not null and the
        templating step does not yield null. */
    lemma BuildSucceeds(from: Option<string>, fromName: Option<string>, to: Option<string>,
                        cc: Option<seq<string>>, subject: Option<string>, bodyHtml: Option<string>,
                        templateName: Option<string>)
      ensures ComposedMessage(from, fromName, to, cc, subject, bodyHtml, templateName).Ok? <==>
        && !IsNullOrEmpty(from) && !IsNullOrEmpty(to) && !IsNullOrEmpty(subject) && !IsNullOrEmpty(bodyHtml)
        && accepts(from.value) && accepts(to.value) && settings.Some?
        && RenderedBody(SubjectFor(subject.value, settings.value.addEnvironmentSuffix, environment), bodyHtml.value,
                        TemplateFor(settings.value.alwaysTemplateEmails, templateName)).Some?
    {
    }

    /** The CC list never makes a build fail, and never changes how it fails. */
    lemma CcNeverBlocksBuild(from: Option<string>, fromName: Option<string>, to: Option<string>,
                             cc1: Option<seq<string>>, cc2: Option<seq<string>>, subject: Option<string>,
                             bodyHtml: Option<string>, templateName: Option<string>)
      ensures var r1 := ComposedMessage(from, fromName, to, cc1, subject, bodyHtml, templateName);
        var r2 := ComposedMessage(from, fromName, to, cc2, subject, bodyHtml, templateName);
        (r1.Ok? <==> r2.Ok?) && (r1.Err? ==> r1 == r2)
    {
    }

    /** The sender is `from`, with `fromName` as display name only when it is not null or empty. */
    lemma SenderOfMessage(from: Option<string>, fromName: Option<string>, to: Option<string>,
                          cc: Option<seq<string>>, subject: Option<string>, bodyHtml: Option<string>,
                          templateName: Option<string>)
      ensures var r := ComposedMessage(from, fromName, to, cc, subject, bodyHtml, templateName);
        r.Ok? ==> r.value.from == Address(from.value, if IsNullOrEmpty(fromName) then None else fromName)
    {
    }

    /** The recipients are `to` followed by the CC entries whose address is taken,
        in their original order; a null CC list gives `to` alone. */
    lemma RecipientsOfMessage(from: Option<string>, fromName: Option<string>, to: Option<string>,
                              cc: Option<seq<string>>, subject: Option<string>, bodyHtml: Option<string>,
                              templateName: Option<string>)
      ensures var r := ComposedMessage(from, fromName, to, cc, subject, bodyHtml, templateName);
        && (r.Ok? ==> r.value.recipients[0] == to.value)
        && (r.Ok? ==> forall x :: x in r.value.recipients[1..] <==> cc.Some? && x in cc.value && accepts(x))
        && (r.Ok? && cc.None? ==> r.value.recipients == [to.value])
        && (r.Ok? && cc.Some? ==> r.value.recipients == [to.value] + Accepted(accepts, cc.value))
    {
      var r := ComposedMessage(from, fromName, to, cc, subject, bodyHtml, templateName);
      if r.Ok? && cc.Some? {
        assert r.value.recipients[1..] == Accepted(accepts, cc.value);
        forall x ensures x in r.value.recipients[1..] <==> x in cc.value && accepts(x) {
          AcceptedMembership(accepts, cc.value, x);
        }
      }
    }

    /** With one CC entry taken and one rejected, the build succeeds and the
        recipients are `to` and the taken entry only. */
    lemma RejectedCcIsDropped(from: Option<string>, fromName: Option<string>, to: Option<string>,
                              good: string, bad: string, subject: Option<string>, bodyHtml: Option<string>,
                              templateName: Option<string>)
      requires accepts(good) && !accepts(bad)
      requires ComposedMessage(from, fromName, to, None, subject, bodyHtml, templateName).Ok?
      ensures var r := ComposedMessage(from, fromName, to, Some([good, bad]), subject, bodyHtml, templateName);
        r.Ok? && r.value.recipients == [to.value, good] && r.value.shape == Multiple
    {
      CcNeverBlocksBuild(from, fromName, to, None, Some([good, bad]), subject, bodyHtml, templateName);
      assert [good, bad][..1] == [good];
      assert [good][..0] == [];
      assert Accepted(accepts, [good]) == [good];
      assert Accepted(accepts, [good, bad]) == [good];
    }

    /** The subject gains " (<environment name>)" exactly when the suffix option
        is on and the environment is not production; otherwise it is unchanged. */
    lemma SubjectOfMessage(from: Option<string>, fromName: Option<string>, to: Option<string>,
                           cc: Option<seq<string>>, subject: Option<string>, bodyHtml: Option<string>,
                           templateName: Option<string>)
      ensures var r := ComposedMessage(from, fromName, to, cc, subject, bodyHtml, templateName);
        r.Ok? ==>
          r.value.subject ==
            if settings.value.addEnvironmentSuffix && !environment.isProduction
            then subject.value + " (" + environment.environmentName + ")"
            else subject.value
    {
    }

    /** Exactly one templating branch applies, and the renderer sees the final subject:
        the default template when templates are always applied and none is named,
        the named template whenever one is named, else the body as given. */
    lemma TemplateOfMessage(from: Option<string>, fromName: Option<string>, to: Option<string>,
                            cc: Option<seq<string>>, subject: Option<string>, bodyHtml: Option<string>,
                            templateName: Option<string>)
      ensures var r := ComposedMessage(from, fromName, to, cc, subject, bodyHtml, templateName);
        r.Ok? ==>
          Some(r.value.html) ==
            if settings.value.alwaysTemplateEmails && IsNullOrEmpty(templateName)
            then render(r.value.subject, bodyHtml.value, None)
            else if !IsNullOrEmpty(templateName)
            then render(r.value.subject, bodyHtml.value, templateName)
            else Some(bodyHtml.value)
    {
    }

    /** A template that renders to null makes the tag strip throw
        ArgumentNullException("input"); without a template the body, already
        checked non-empty, never does. */
    lemma NullRenderingFails(from: Option<string>, fromName: Option<string>, to: Option<string>,
                             cc: Option<seq<string>>, subject: Option<string>, bodyHtml: Option<string>,
                             templateName: Option<string>)
      ensures var r := ComposedMessage(from, fromName, to, cc, subject, bodyHtml, templateName);
        && (r == Err(ArgumentNull("input")) <==>
              && !IsNullOrEmpty(from) && !IsNullOrEmpty(to) && !IsNullOrEmpty(subject) && !IsNullOrEmpty(bodyHtml)
              && accepts(from.value) && accepts(to.value) && settings.Some?
              && RenderedBody(SubjectFor(subject.value, settings.value.addEnvironmentSuffix, environment),
                              bodyHtml.value, TemplateFor(settings.value.alwaysTemplateEmails, templateName)).None?)
        && (settings.Some? && !settings.value.alwaysTemplateEmails && IsNullOrEmpty(templateName) ==>
              r != Err(ArgumentNull("input")))
    {
    }

    /** The plain text is the final HTML with its tags stripped: it holds no tag,
        is no longer than the HTML, and stripping it again changes nothing. */
    lemma PlainTextOfMessage(from: Option<string>, fromName: Option<string>, to: Option<string>,
                             cc: Option<seq<string>>, subject: Option<string>, bodyHtml: Option<string>,
                             templateName: Option<string>)
      ensures var r := ComposedMessage(from, fromName, to, cc, subject, bodyHtml, templateName);
        r.Ok? ==>
          && r.value.plainText == HtmlText.StripTags(r.value.html)
          && HtmlText.TagFree(r.value.plainText)
          && |r.value.plainText| <= |r.value.html|
          && HtmlText.StripTags(r.value.plainText) == r.value.plainText
    {
      var r := ComposedMessage(from, fromName, to, cc, subject, bodyHtml, templateName);
      if r.Ok? {
        HtmlText.StripTagsIsTagFree(r.value.html);
        HtmlText.StripTagsIdempotent(r.value.html);
      }
    }

    /** A built message has at least one recipient; one recipient gives the
        single-recipient shape, two or more the multi-recipient shape; no attachment. */
    lemma ShapeOfMessage(from: Option<string>, fromName: Option<string>, to: Option<string>,
                         cc: Option<seq<string>>, subject: Option<string>, bodyHtml: Option<string>,
                         templateName: Option<string>)
      ensures var r := ComposedMessage(from, fromName, to, cc, subject, bodyHtml, templateName);
        r.Ok? ==>
          && |r.value.recipients| >= 1
          && (r.value.shape == Single <==> |r.value.recipients| == 1)
          && (r.value.shape == Multiple <==> |r.value.recipients| >= 2)
          && r.value.attachments == []
    {
    }

    /** The attachment variant fails exactly when CreateMessage fails (with the
        same exception) or the file content is null; otherwise it is the same
        message with exactly one attachment, whose content decodes to the file. */
    lemma AttachmentOfMessage(from: Option<string>, fromName: Option<string>, to: Option<string>,
                              cc: Option<seq<string>>, fileContent: Option<seq<bv8>>,
                              fileName: Option<string>, subject: Option<string>,
                              bodyHtml: Option<string>, templateName: Option<string>)
      ensures var base := ComposedMessage(from, fromName, to, cc, subject, bodyHtml, templateName);
        var r := ComposedMessageWithAttachment(from, fromName, to, cc, fileContent, fileName,
                                               subject, bodyHtml, templateName);
        && (r.Ok? <==> base.Ok? && fileContent.Some?)
        && (base.Err? ==> r == base)
        && (base.Ok? && fileContent.None? ==> r == Err(ArgumentNull("inArray")))
        && (r.Ok? ==>
              && r.value.(attachments := []) == base.value
              && |r.value.attachments| == 1
              && r.value.attachments[0].filename == fileName
              && r.value.attachments[0].disposition == "attachment"
              && Base64.Decode(r.value.attachments[0].content) == Some(fileContent.value))
    {
      if fileContent.Some? {
        Base64.DecodeEncode(fileContent.value);
      }
    }

    /** CreateMessage: validates, resolves the addresses (skipping CC entries the
        address constructor rejects), tags the subject, applies a template,
        derives the plain text and picks the message shape. */
    method CreateMessage(from: Option<string>, fromName: Option<string>, to: Option<string>,
                         cc: Option<seq<string>>, subject: Option<string>, bodyHtml: Option<string>,
                         templateName: Option<string>) returns (r: Result<Message>)
      ensures r == ComposedMessage(from, fromName, to, cc, subject, bodyHtml, templateName)
    {
      if IsNullOrEmpty(from) { return Err(ArgumentNull("from")); }
      if IsNullOrEmpty(to) { return Err(ArgumentNull("to")); }
      if IsNullOrEmpty(subject) { return Err(ArgumentNull("subject")); }
      if IsNullOrEmpty(bodyHtml) { return Err(ArgumentNull("bodyHtml")); }

      if !accepts(from.value) { return Err(AddressRejected(from.value)); }
      var fromAddress := Address(from.value, None);
      if !IsNullOrEmpty(fromName) {
        fromAddress := fromAddress.(name := fromName);
      }
      if !accepts(to.value) { return Err(AddressRejected(to.value)); }
      var recipients := [to.value];
      if cc.Some? {
        var entries := cc.value;
        var i := 0;
        while i < |entries|
          invariant 0 <= i <= |entries|
          invariant recipients == [to.value] + Accepted(accepts, entries[..i])
        {
          var item := entries[i];
          if accepts(item) {
            recipients := recipients + [item];
          }
          // else: the constructor threw; a warning is logged and the entry skipped
          assert entries[..i + 1][..i] == entries[..i];
          i := i + 1;
        }
        assert entries[..i] == entries;
      }

      if settings.None? { return Err(NullReference); }
      var finalSubject := subject.value;
      if settings.value.addEnvironmentSuffix && !environment.isProduction {
        finalSubject := finalSubject + " (" + environment.environmentName + ")";
      }

      var html := Some(bodyHtml.value);
      if settings.value.alwaysTemplateEmails && IsNullOrEmpty(templateName) {
        html := render(finalSubject, html.value, None);
      } else if !IsNullOrEmpty(templateName) {
        html := render(finalSubject, html.value, templateName);
      }
      assert html == RenderedBody(finalSubject, bodyHtml.value,
                                  TemplateFor(settings.value.alwaysTemplateEmails, templateName));

      // Regex.Replace throws on a null input
      if html.None? { return Err(ArgumentNull("input")); }
      var plainText := HtmlText.StripTags(html.value);
      assert fromAddress == SenderAddress(from.value, fromName);
      assert finalSubject == SubjectFor(subject.value, settings.value.addEnvironmentSuffix, environment);
      assert recipients == [to.value] + (if cc.Some? then Accepted(accepts, cc.value) else []);

      if |recipients| == 1 {
        assert recipients == [recipients[0]];
        return Ok(Message(fromAddress, [recipients[0]], finalSubject, plainText, html.value, Single, []));
      }
      return Ok(Message(fromAddress, recipients, finalSubject, plainText, html.value, Multiple, []));
    }

    /** CreateMessageWithAttachment: the message CreateMessage builds, with its
        attachment list replaced by the one file, base64-encoded. */
    method CreateMessageWithAttachment(from: Option<string>, fromName: Option<string>, to: Option<string>,
                                       cc: Option<seq<string>>, fileContent: Option<seq<bv8>>,
                                       fileName: Option<string>, subject: Option<string>,
                                       bodyHtml: Option<string>, templateName: Option<string>)
      returns (r: Result<Message>)
      ensures r == ComposedMessageWithAttachment(from, fromName, to, cc, fileContent, fileName,
                                                 subject, bodyHtml, templateName)
    {
      var toSend := CreateMessage(from, fromName, to, cc, subject, bodyHtml, templateName);
      if toSend.Err? { return toSend; }
      if fileContent.None? { return Err(ArgumentNull("inArray")); }
      var content := Base64.Encode(fileContent.value);
      var message := toSend.value.(attachments := [Attachment(content, fileName, "attachment")]);
      return Ok(message);
    }
  }
}
