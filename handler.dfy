/**
 * The email delivery event handler as an object: the event whose sender
 * the handler rewrites in place, and the handler whose three counters and
 * allow-list are updated as messages arrive.
 */
module EmailDeliveryHandler {
  import opened Wrappers
  import opened Counters
  import opened SendGridErrors
  import opened DeliveryModel

  /** An inbound email delivery event; the handler may rewrite `from`. */
  class EmailDeliveryEvent {
    var to: string
    var from: string
    var subject: string
    var bodyType: EmailBodyType
    var plainTextBody: string
    var htmlBody: string
    var emailType: string

    constructor (m: Message)
      ensures Snapshot() == m
    {
      to, from, subject := m.to, m.from, m.subject;
      bodyType, plainTextBody, htmlBody, emailType := m.bodyType, m.plainTextBody, m.htmlBody, m.emailType;
    }

    function Snapshot(): Message
      reads this
    {
      Message(to, from, subject, bodyType, plainTextBody, htmlBody, emailType)
    }
  }

  class EmailDeliveryEventHandler {
    const validator: EmailAddressValidator
    const sendGridClient: SendGridClient
    const addresses: SystemAddresses

    // Process-wide state of the handler: the allow-list and the three counters.
    var sendGridEmailTypes: set<string>
    var totalEmailDeliveryEvents: Counter
    var totalSendGridEmailDeliveryEvents: Counter
    var totalBlacklistedEmailAttempts: Counter

    function Config(): HandlerConfig
      reads this
    {
      HandlerConfig(validator, sendGridClient, sendGridEmailTypes, addresses)
    }

    function CurrentMetrics(): Metrics
      reads this
    {
      Metrics(totalEmailDeliveryEvents, totalSendGridEmailDeliveryEvents, totalBlacklistedEmailAttempts)
    }

    ghost predicate Valid()
      reads this
    {
      CountersConsistent(Config(), CurrentMetrics())
    }

    /** A handler with all counters at zero and the allow-list read at start-up. */
    constructor (validator: EmailAddressValidator, sendGridClient: SendGridClient,
                 addresses: SystemAddresses, sendGridEmailTypes: set<string>)
      ensures Valid()
      ensures this.validator == validator && this.sendGridClient == sendGridClient
      ensures this.addresses == addresses && this.sendGridEmailTypes == sendGridEmailTypes
      ensures CurrentMetrics() == NoMetrics
    {
      this.validator := validator;
      this.sendGridClient := sendGridClient;
      this.addresses := addresses;
      this.sendGridEmailTypes := sendGridEmailTypes;
      totalEmailDeliveryEvents, totalSendGridEmailDeliveryEvents, totalBlacklistedEmailAttempts := map[], map[], map[];
      new;
      NoMetricsConsistent(Config());
    }

    /** The configuration-change callback: the allow-list is replaced as a whole. */
    method UpdateSendGridEmailTypes(emailTypes: set<string>)
      requires Valid()
      modifies this`sendGridEmailTypes
      ensures Valid()
      ensures sendGridEmailTypes == emailTypes
    {
      sendGridEmailTypes := emailTypes;
    }

    /**
     * Processes one message: the returned outcome is the send call made (or
     * the rejection), and the counters move as `Tally` says. On the internal
     * channel, when a display name was resolved, the sender is rewritten to
     * "name <address>"; otherwise no field of the event changes.
     */
    method ProcessMessage(message: EmailDeliveryEvent) returns (outcome: Outcome)
      requires Valid()
      modifies this`totalEmailDeliveryEvents, this`totalSendGridEmailDeliveryEvents,
               this`totalBlacklistedEmailAttempts, message`from
      ensures Valid()
      ensures outcome == Decide(Config(), old(message.Snapshot()))
      ensures CurrentMetrics() == Tally(Config(), old(CurrentMetrics()), old(message.Snapshot()))
      ensures message.Snapshot()
              == old(message.Snapshot()).(from := if outcome.SentInternally() then outcome.from else old(message.from))
    {
      ghost var m := message.Snapshot();
      ghost var before := CurrentMetrics();
      TallyPreservesConsistency(Config(), before, m);

      if !validator.isValidEmail(message.to) {
        return Rejected(InvalidAddress);
      }
      if validator.isShadyProvider(message.to) {
        return Rejected(ShadyProvider);
      }
      if validator.isBlacklisted(message.to) {
        totalBlacklistedEmailAttempts := Inc(totalBlacklistedEmailAttempts, message.to);
        return Rejected(Blacklisted);
      }

      totalEmailDeliveryEvents := Inc(totalEmailDeliveryEvents, message.emailType);

      var fromName := DetermineFromName(message.from, addresses);

      if message.emailType != "" && message.emailType in sendGridEmailTypes && sendGridClient.Client? {
        totalSendGridEmailDeliveryEvents := Inc(totalSendGridEmailDeliveryEvents, message.emailType);
        outcome := SendWithSendGrid(message, fromName);
        return;
      }

      outcome := SendWithInternalTransport(message, fromName);
    }

    /**
     * The third-party path: subject, sender with its resolved name, the one
     * recipient and the content parts for the body type, submitted to the
     * client; a failure reply is reported through the aggregated error log.
     */
    method SendWithSendGrid(message: EmailDeliveryEvent, fromName: Option<string>) returns (outcome: Outcome)
      requires sendGridClient.Client?
      ensures var request := BuildSendGridMessage(message.Snapshot(), fromName);
        outcome == SentViaSendGrid(request, SendGridErrorLog(sendGridClient.send(request)))
    {
      var contents: seq<Content> := [];
      match message.bodyType {
        case Plain =>
          contents := contents + [Content(TextPlain, message.plainTextBody)];
        case Html =>
          contents := contents + [Content(TextHtml, message.htmlBody)];
        case Mime =>
          contents := contents + [Content(TextPlain, message.plainTextBody)];
          contents := contents + [Content(TextHtml, message.htmlBody)];
        case Undefined =>
      }
      assert contents == SendGridContents(message.Snapshot());
      var request := SendGridMessage(message.subject, message.from, fromName, [message.to], contents);

      var result := sendGridClient.send(request);
      var errorLog: Option<string> := None;
      if !result.isSuccessStatusCode {
        errorLog := HandleSendGridError(result);
      }
      outcome := SentViaSendGrid(request, errorLog);
    }

    /**
     * The internal path: the event's sender is rewritten to "name <address>"
     * when a name was resolved, then the dual-body or the single-body send
     * is made.
     */
    method SendWithInternalTransport(message: EmailDeliveryEvent, fromName: Option<string>) returns (outcome: Outcome)
      modifies message`from
      ensures outcome == SendInternally(old(message.Snapshot()), fromName)
      ensures message.Snapshot() == old(message.Snapshot()).(from := InternalSender(old(message.from), fromName))
    {
      if fromName.Some? && fromName.value != "" {
        message.from := fromName.value + " <" + message.from + ">";
      }

      if message.bodyType == Mime {
        outcome := SentMime(message.to, message.from, message.subject, message.plainTextBody, message.htmlBody);
      } else {
        outcome := SentSingle(
          message.to,
          message.from,
          message.subject,
          if message.bodyType == Html then message.htmlBody else message.plainTextBody,
          message.bodyType == Html);
      }
    }

    /**
     * The error string logged for a failed SendGrid send, built entry by
     * entry and then trimmed; None when the body has no `errors` array.
     */
    method HandleSendGridError(result: Response) returns (logged: Option<string>)
      ensures logged == ErrorReport(result.errors)
    {
      if result.errors.None? {
        return None;
      }
      var arr := result.errors.value;
      var errorString := ErrorPrefix;

      var i := 0;
      while i < |arr|
        invariant 0 <= i <= |arr|
        invariant errorString == AppendEntries(ErrorPrefix, arr[..i])
      {
        var error := arr[i];
        AppendEntriesStep(ErrorPrefix, arr, i);
        errorString := errorString + Appended(error.message);
        if !IsNullOrEmpty(error.field) {
          errorString := errorString + " (field: " + error.field.value + ")";
        }
        if !IsNullOrEmpty(error.help) {
          errorString := errorString + " (help: " + error.help.value + ")";
        }
        errorString := errorString + "\n";
        i := i + 1;
      }
      assert arr[..i] == arr;

      errorString := TrimEnd(errorString);
      logged := Some(errorString);
    }
  }
}
