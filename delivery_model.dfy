/**
 * The per-message decision of the email delivery event handler, as pure
 * functions of the message and the handler's configuration: which policy
 * check rejects the recipient, which outbound channel is used, how the
 * sender and the body are packaged for it, and how the three counters move.
 */
module DeliveryModel {
  import opened Wrappers
  import opened Counters
  import opened SendGridErrors

  /**
   * The body type. `Undefined` stands for every value of the underlying
   * integer that is none of the three named members.
   */
  datatype EmailBodyType = Plain | Html | Mime | Undefined

  /** The fields of an email delivery event at one moment. */
  datatype Message = Message(
    to: string,
    from: string,
    subject: string,
    bodyType: EmailBodyType,
    plainTextBody: string,
    htmlBody: string,
    emailType: string)

  /**
   * The address validator's three policy checks. Their DNS- and list-based
   * internals are not part of this model; each is a fixed predicate.
   */
  datatype EmailAddressValidator = EmailAddressValidator(
    isValidEmail: string -> bool,
    isShadyProvider: string -> bool,
    isBlacklisted: string -> bool)

  datatype MimeType = TextPlain | TextHtml

  /** One content part of a SendGrid message. */
  datatype Content = Content(mimeType: MimeType, value: string)

  /** The message handed to the SendGrid client. */
  datatype SendGridMessage = SendGridMessage(
    subject: string,
    fromAddress: string,
    fromName: Option<string>,
    to: seq<string>,
    contents: seq<Content>)

  /**
   * The SendGrid client the handler was given: none when no API key is
   * configured. For a client, `send` stands for the service's reply to a
   * submitted message.
   */
  datatype SendGridClient = NoClient | Client(send: SendGridMessage -> Response)

  /** The processor registers a client exactly when the API key is non-empty. */
  function ClientForApiKey(apiKey: string, send: SendGridMessage -> Response): (c: SendGridClient)
    ensures c.Client? <==> apiKey != ""
    ensures c.Client? ==> c.send == send
  {
    if apiKey != "" then Client(send) else NoClient
  }

  /** The platform's well-known sender addresses (constants of a library not part of this model). */
  datatype SystemAddresses = SystemAddresses(noReply: string, info: string)

  const NoReplyEmailName: string := "Roblox no-reply"
  const InfoEmailName: string := "Roblox"

  /** The display name for a sender address; the no-reply address is tested first. */
  function DetermineFromName(from: string, addresses: SystemAddresses): (name: Option<string>)
    ensures name == Some(NoReplyEmailName) <==> from == addresses.noReply
    ensures name == Some(InfoEmailName) <==> from != addresses.noReply && from == addresses.info
    ensures name.None? <==> from != addresses.noReply && from != addresses.info
  {
    if from == addresses.noReply then Some(NoReplyEmailName)
    else if from == addresses.info then Some(InfoEmailName)
    else None
  }

  datatype Rejection = InvalidAddress | ShadyProvider | Blacklisted

  /** The first policy check the recipient fails, in the order invalid, shady provider, blacklisted. */
  function Screen(v: EmailAddressValidator, to: string): (r: Option<Rejection>)
    ensures r == Some(InvalidAddress) <==> !v.isValidEmail(to)
    ensures r == Some(ShadyProvider) <==> v.isValidEmail(to) && v.isShadyProvider(to)
    ensures r == Some(Blacklisted) <==> v.isValidEmail(to) && !v.isShadyProvider(to) && v.isBlacklisted(to)
    ensures r.None? <==> v.isValidEmail(to) && !v.isShadyProvider(to) && !v.isBlacklisted(to)
  {
    if !v.isValidEmail(to) then Some(InvalidAddress)
    else if v.isShadyProvider(to) then Some(ShadyProvider)
    else if v.isBlacklisted(to) then Some(Blacklisted)
    else None
  }

  /** What the handler works from besides the message; `sendGridEmailTypes` is the current allow-list. */
  datatype HandlerConfig = HandlerConfig(
    validator: EmailAddressValidator,
    client: SendGridClient,
    sendGridEmailTypes: set<string>,
    addresses: SystemAddresses)

  /** The third-party channel is used for non-empty, allow-listed types when a client exists. */
  predicate UsesSendGrid(cfg: HandlerConfig, emailType: string) {
    emailType != "" && emailType in cfg.sendGridEmailTypes && cfg.client.Client?
  }

  /** What the handler does with one message: drop it, or the one send call it makes. */
  datatype Outcome =
    | Rejected(reason: Rejection)
    | SentViaSendGrid(request: SendGridMessage, errorLog: Option<string>)
    | SentMime(to: string, from: string, subject: string, plainTextBody: string, htmlBody: string)
    | SentSingle(to: string, from: string, subject: string, body: string, isHtml: bool)
  {
    predicate SentInternally() {
      SentMime? || SentSingle?
    }
  }

  /** The content parts for a body type: text, HTML, text then HTML, or none for an undefined type. */
  function SendGridContents(m: Message): seq<Content> {
    match m.bodyType
    case Plain => [Content(TextPlain, m.plainTextBody)]
    case Html => [Content(TextHtml, m.htmlBody)]
    case Mime => [Content(TextPlain, m.plainTextBody), Content(TextHtml, m.htmlBody)]
    case Undefined => []
  }

  function BuildSendGridMessage(m: Message, fromName: Option<string>): SendGridMessage {
    SendGridMessage(m.subject, m.from, fromName, [m.to], SendGridContents(m))
  }

  /** The internal transport's sender: "name <address>" when a non-empty name was resolved. */
  function InternalSender(from: string, fromName: Option<string>): string {
    if fromName.Some? && fromName.value != "" then fromName.value + " <" + from + ">" else from
  }

  /** The internal send: both bodies for Mime, otherwise the selected body and its HTML flag. */
  function SendInternally(m: Message, fromName: Option<string>): Outcome {
    var from := InternalSender(m.from, fromName);
    if m.bodyType == Mime then SentMime(m.to, from, m.subject, m.plainTextBody, m.htmlBody)
    else SentSingle(m.to, from, m.subject,
                    if m.bodyType == Html then m.htmlBody else m.plainTextBody,
                    m.bodyType == Html)
  }

  /** The log line for a SendGrid reply: none on success, else the aggregated report. */
  function SendGridErrorLog(reply: Response): Option<string> {
    if reply.isSuccessStatusCode then None else ErrorReport(reply.errors)
  }

  /** The outcome of processing `m`: at most one channel, chosen after the recipient passes every check. */
  function Decide(cfg: HandlerConfig, m: Message): (r: Outcome)
    ensures r.Rejected? <==> Screen(cfg.validator, m.to).Some?
    ensures r.Rejected? ==> r.reason == Screen(cfg.validator, m.to).value
    ensures r.SentViaSendGrid? <==> Screen(cfg.validator, m.to).None? && UsesSendGrid(cfg, m.emailType)
    ensures r.SentInternally() <==> Screen(cfg.validator, m.to).None? && !UsesSendGrid(cfg, m.emailType)
  {
    match Screen(cfg.validator, m.to)
    case Some(reason) => Rejected(reason)
    case None =>
      var fromName := DetermineFromName(m.from, cfg.addresses);
      if UsesSendGrid(cfg, m.emailType) then
        var request := BuildSendGridMessage(m, fromName);
        SentViaSendGrid(request, SendGridErrorLog(cfg.client.send(request)))
      else
        SendInternally(m, fromName)
  }

  /** The handler's three counters. */
  datatype Metrics = Metrics(totalEvents: Counter, sendGridEvents: Counter, blacklistedAttempts: Counter)

  const NoMetrics: Metrics := Metrics(map[], map[], map[])

  /**
   * The counters after processing `m`. The total counter rises by one for
   * the message's type when it is accepted, the SendGrid counter when it
   * goes to SendGrid, the blacklist counter for its recipient when it is
   * rejected as blacklisted; nothing else changes.
   */
  function Tally(cfg: HandlerConfig, metrics: Metrics, m: Message): (r: Metrics)
    ensures forall k ::
              Count(r.totalEvents, k)
              == Count(metrics.totalEvents, k) + (if !Decide(cfg, m).Rejected? && k == m.emailType then 1 else 0)
    ensures forall k ::
              Count(r.sendGridEvents, k)
              == Count(metrics.sendGridEvents, k) + (if Decide(cfg, m).SentViaSendGrid? && k == m.emailType then 1 else 0)
    ensures forall k ::
              Count(r.blacklistedAttempts, k)
              == Count(metrics.blacklistedAttempts, k) + (if Decide(cfg, m) == Rejected(Blacklisted) && k == m.to then 1 else 0)
    ensures Decide(cfg, m).Rejected? && Decide(cfg, m).reason != Blacklisted ==> r == metrics
  {
    match Screen(cfg.validator, m.to)
    case Some(InvalidAddress) => metrics
    case Some(ShadyProvider) => metrics
    case Some(Blacklisted) => metrics.(blacklistedAttempts := Inc(metrics.blacklistedAttempts, m.to))
    case None =>
      var total := Inc(metrics.totalEvents, m.emailType);
      if UsesSendGrid(cfg, m.emailType) then
        metrics.(totalEvents := total, sendGridEvents := Inc(metrics.sendGridEvents, m.emailType))
      else
        metrics.(totalEvents := total)
  }

  /**
   * What the counters can say at any time: no type went to SendGrid more
   * often than it was accepted, the empty type never went to SendGrid,
   * nothing did without a client, and every counted blacklisted address
   * passed the first two checks and failed the third.
   */
  ghost predicate CountersConsistent(cfg: HandlerConfig, c: Metrics) {
    && (forall k :: Count(c.sendGridEvents, k) <= Count(c.totalEvents, k))
    && Count(c.sendGridEvents, "") == 0
    && (cfg.client.NoClient? ==> forall k :: Count(c.sendGridEvents, k) == 0)
    && (forall a :: Count(c.blacklistedAttempts, a) > 0 ==>
          Screen(cfg.validator, a) == Some(Blacklisted))
  }

  lemma NoMetricsConsistent(cfg: HandlerConfig)
    ensures CountersConsistent(cfg, NoMetrics)
  {
  }

  /** Processing a message keeps the counters consistent, whatever the allow-list. */
  lemma TallyPreservesConsistency(cfg: HandlerConfig, c: Metrics, m: Message)
    requires CountersConsistent(cfg, c)
    ensures CountersConsistent(cfg, Tally(cfg, c, m))
  {
  }

  /** The counters after processing `ms` in order, all against the same configuration. */
  function TallyAll(cfg: HandlerConfig, metrics: Metrics, ms: seq<Message>): Metrics
    decreases |ms|
  {
    if ms == [] then metrics else TallyAll(cfg, Tally(cfg, metrics, ms[0]), ms[1..])
  }

  /** The number of messages in `ms` accepted with email type `t`. */
  function AcceptedOfType(cfg: HandlerConfig, ms: seq<Message>, t: string): nat
    decreases |ms|
  {
    if ms == [] then 0
    else (if Screen(cfg.validator, ms[0].to).None? && ms[0].emailType == t then 1 else 0)
         + AcceptedOfType(cfg, ms[1..], t)
  }

  /** The number of messages in `ms` sent via SendGrid with email type `t`. */
  function SentViaSendGridOfType(cfg: HandlerConfig, ms: seq<Message>, t: string): nat
    decreases |ms|
  {
    if ms == [] then 0
    else (if Decide(cfg, ms[0]).SentViaSendGrid? && ms[0].emailType == t then 1 else 0)
         + SentViaSendGridOfType(cfg, ms[1..], t)
  }

  /** The number of messages in `ms` to address `a` rejected as blacklisted. */
  function BlacklistedTo(cfg: HandlerConfig, ms: seq<Message>, a: string): nat
    decreases |ms|
  {
    if ms == [] then 0
    else (if Decide(cfg, ms[0]) == Rejected(Blacklisted) && ms[0].to == a then 1 else 0)
         + BlacklistedTo(cfg, ms[1..], a)
  }

  /**
   * Over any sequence of messages, each counter rises by exactly the number
   * of messages that the handler's outcome says it counts.
   */
  lemma {:induction false} CountersRecordHistory(cfg: HandlerConfig, metrics: Metrics, ms: seq<Message>, t: string, a: string)
    ensures Count(TallyAll(cfg, metrics, ms).totalEvents, t)
      == Count(metrics.totalEvents, t) + AcceptedOfType(cfg, ms, t)
    ensures Count(TallyAll(cfg, metrics, ms).sendGridEvents, t)
      == Count(metrics.sendGridEvents, t) + SentViaSendGridOfType(cfg, ms, t)
    ensures Count(TallyAll(cfg, metrics, ms).blacklistedAttempts, a)
      == Count(metrics.blacklistedAttempts, a) + BlacklistedTo(cfg, ms, a)
    decreases |ms|
  {
    if ms != [] {
      CountersRecordHistory(cfg, Tally(cfg, metrics, ms[0]), ms[1..], t, a);
    }
  }

  /** The first content part of a given MIME type, if any. */
  function ContentOfType(cs: seq<Content>, t: MimeType): Option<string>
    decreases |cs|
  {
    if cs == [] then None
    else if cs[0].mimeType == t then Some(cs[0].value)
    else ContentOfType(cs[1..], t)
  }

  /**
   * The SendGrid request carries the subject and the single recipient
   * unchanged, the sender address unchanged with the resolved name beside
   * it, a text part with the plain body exactly when the body type is
   * Plain or Mime, and an HTML part with the HTML body exactly when it is
   * Html or Mime, text first; an undefined body type gets no part at all.
   */
  lemma SendGridRequestContents(cfg: HandlerConfig, m: Message)
    requires Decide(cfg, m).SentViaSendGrid?
    ensures var req := Decide(cfg, m).request;
      && req.subject == m.subject
      && req.to == [m.to]
      && req.fromAddress == m.from
      && req.fromName == DetermineFromName(m.from, cfg.addresses)
      && |req.contents| == (if m.bodyType == Mime then 2 else if m.bodyType == Undefined then 0 else 1)
      && ContentOfType(req.contents, TextPlain)
         == (if m.bodyType == Plain || m.bodyType == Mime then Some(m.plainTextBody) else None)
      && ContentOfType(req.contents, TextHtml)
         == (if m.bodyType == Html || m.bodyType == Mime then Some(m.htmlBody) else None)
      && (m.bodyType == Mime ==> req.contents[0].mimeType == TextPlain)
  {
    var cs := SendGridContents(m);
    if m.bodyType == Mime {
      assert cs[1..] == [Content(TextHtml, m.htmlBody)];
    }
  }

  /** A failed SendGrid send logs the aggregated report; a successful one logs nothing. */
  lemma SendGridErrorLogged(cfg: HandlerConfig, m: Message)
    requires Decide(cfg, m).SentViaSendGrid?
    ensures var out := Decide(cfg, m); var reply := cfg.client.send(out.request);
      out.errorLog == (if reply.isSuccessStatusCode then None else ErrorReport(reply.errors))
  {
  }

  /** The address a rendered internal sender was built from, given the resolved name. */
  function AddressOfSender(sender: string, fromName: Option<string>): string {
    if fromName.Some? && fromName.value != "" && |sender| >= |fromName.value| + 3
    then sender[|fromName.value| + 2 .. |sender| - 1]
    else sender
  }

  /** Rendering the internal sender loses nothing: the original address can be read back. */
  lemma InternalSenderRoundTrip(from: string, fromName: Option<string>)
    ensures AddressOfSender(InternalSender(from, fromName), fromName) == from
  {
    if fromName.Some? && fromName.value != "" {
      var s := InternalSender(from, fromName);
      var n := |fromName.value|;
      assert s == fromName.value + " <" + from + ">";
      assert s[n + 2 .. |s| - 1] == from;
    }
  }

  /**
   * On the internal channel the sender is the original address when no
   * name was resolved and "name <address>" otherwise; Mime sends both
   * bodies unmodified, Html the HTML body with the flag set, Plain (and an
   * undefined body type) the
   * plain body with the flag unset; recipient and subject are unchanged.
   */
  lemma InternalDispatch(cfg: HandlerConfig, m: Message)
    requires Decide(cfg, m).SentInternally()
    ensures var out := Decide(cfg, m); var name := DetermineFromName(m.from, cfg.addresses);
      && out.to == m.to
      && out.subject == m.subject
      && out.from == (if name.None? then m.from else name.value + " <" + m.from + ">")
      && AddressOfSender(out.from, name) == m.from
      && (m.bodyType == Mime <==> out.SentMime?)
      && (out.SentMime? ==> out.plainTextBody == m.plainTextBody && out.htmlBody == m.htmlBody)
      && (out.SentSingle? ==> out.isHtml == (m.bodyType == Html))
      && (out.SentSingle? ==> out.body == if m.bodyType == Html then m.htmlBody else m.plainTextBody)
  {
    InternalSenderRoundTrip(m.from, DetermineFromName(m.from, cfg.addresses));
  }

  /**
   * Both channels use the same resolved name: with the client taken away,
   * the message the handler would have sent via SendGrid goes internally
   * with the name and address of that request combined.
   */
  lemma SameSenderOnBothChannels(cfg: HandlerConfig, m: Message)
    requires Decide(cfg, m).SentViaSendGrid?
    ensures var req := Decide(cfg, m).request;
      && Decide(cfg.(client := NoClient), m).SentInternally()
      && Decide(cfg.(client := NoClient), m).from == InternalSender(req.fromAddress, req.fromName)
  {
  }

  /** Scenario: a plain welcome email from the no-reply address, allow-listed, with a client. */
  lemma WelcomeViaSendGrid(v: EmailAddressValidator, send: SendGridMessage -> Response, info: string)
    requires Screen(v, "user@example.com").None?
    ensures var cfg := HandlerConfig(v, Client(send), {"Welcome"}, SystemAddresses("no-reply@roblox.com", info));
      var m := Message("user@example.com", "no-reply@roblox.com", "Hi", Plain, "Hello", "", "Welcome");
      && Decide(cfg, m).SentViaSendGrid?
      && Decide(cfg, m).request == SendGridMessage("Hi", "no-reply@roblox.com", Some("Roblox no-reply"),
                                                   ["user@example.com"], [Content(TextPlain, "Hello")])
      && Count(Tally(cfg, NoMetrics, m).totalEvents, "Welcome") == 1
      && Count(Tally(cfg, NoMetrics, m).sendGridEvents, "Welcome") == 1
  {
  }

  /** Scenario: the same email with an empty allow-list goes through the internal single-body send. */
  lemma WelcomeInternally(v: EmailAddressValidator, send: SendGridMessage -> Response, info: string)
    requires Screen(v, "user@example.com").None?
    ensures var cfg := HandlerConfig(v, Client(send), {}, SystemAddresses("no-reply@roblox.com", info));
      var m := Message("user@example.com", "no-reply@roblox.com", "Hi", Plain, "Hello", "", "Welcome");
      && Decide(cfg, m) == SentSingle("user@example.com", "Roblox no-reply <no-reply@roblox.com>", "Hi", "Hello", false)
      && Count(Tally(cfg, NoMetrics, m).sendGridEvents, "Welcome") == 0
  {
    NoReplySenderRendered();
  }

  /** The no-reply address of the scenarios, rendered for the internal transport. */
  lemma NoReplySenderRendered()
    ensures InternalSender("no-reply@roblox.com", Some(NoReplyEmailName)) == "Roblox no-reply <no-reply@roblox.com>"
  {
    var rendered := NoReplyEmailName + " <" + "no-reply@roblox.com" + ">";
    assert |rendered| == |"Roblox no-reply <no-reply@roblox.com>"|;
  }
}
