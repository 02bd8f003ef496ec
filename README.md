# Email delivery event handler — Dafny model

This project models the per-message handler of the email delivery processor.
The handler takes one email delivery event from the queue and does four things:

- It checks the recipient. The order is: not a valid address, then shady provider, then blacklisted. The first failing check drops the message.
- It counts the message in three label-keyed counters: total events by email type, SendGrid events by email type, and blacklisted attempts by recipient address.
- It picks exactly one outbound channel. SendGrid is used when the email type is non-empty, is on the allow-list, and a client is configured. Otherwise the internal email transport is used.
- It packages the sender and the body for that channel. A failed SendGrid send is reported as one aggregated error string.

Files:

- `wrappers.dfy`: `Option`.
- `counters.dfy`: counters keyed by one label. A series never incremented reads as zero.
- `sendgrid_errors.dfy`: the error string logged for a failed SendGrid send, with its properties.
- `delivery_model.dfy`: the decision as pure functions. `Screen` picks the rejection. `Decide` gives the outcome: the one send call made, or the rejection. `Tally` gives the counters afterwards. It also holds the counter invariant, the lemma relating counters to a history of messages, and the scenario lemmas.
- `handler.dfy`: the handler as objects. The event is a class because the handler rewrites its `from` in place. The handler is a class whose counters and allow-list are fields. `ProcessMessage` is imperative and is proved equal to `Decide` and `Tally`. `HandleSendGridError` builds the error string in a loop and is proved equal to `ErrorReport`.

External collaborators become inputs:

- The address validator becomes three fixed predicates (`EmailAddressValidator`).
- The SendGrid client becomes `NoClient`, or `Client(send)`. Here `send` stands for the service's reply to a submitted message.
- The platform's no-reply and info addresses become a `SystemAddresses` value.
- The allow-list is a `set<string>`, replaced as a whole by `UpdateSendGridEmailTypes`.

The returned `Outcome` stands for the call made to the outbound service; the C# method returns nothing.

The code passes the address and the name to SendGrid separately and unmodified (`EmailDeliveryEventHandler.cs:115`); only the internal channel combines them (line 141). `SendGridRequestContents` and `InternalDispatch` state this split.

A C# enum field can hold any integer value, not only Plain, Html and Mime. The model treats all other values as one `Undefined` body type. SendGrid gets no content part for them, because the switch at lines 118-130 has no default. The internal path sends them like Plain: the plain body with the flag unset (lines 143-153).

## Model

| member | source | states |
|---|---|---|
| `Counters.Inc` | services/email-delivery-processor/src/Implementation/EmailDeliveryEventHandler.cs:95 | incrementing a labelled counter raises that label's series by exactly one and leaves every other label's series unchanged |
| `DeliveryModel.ClientForApiKey` | services/email-delivery-processor/src/Implementation/EmailDeliveryProcessor.cs:28-35 | a SendGrid client is registered if and only if the API key is non-empty |
| `DeliveryModel.DetermineFromName` | services/email-delivery-processor/src/Implementation/EmailDeliveryEventHandler.cs:157-163 | the no-reply address gives "Roblox no-reply"; the info address gives "Roblox" only when it is not also the no-reply address; any other address gives no name (each direction of each case) |
| `DeliveryModel.Screen` | services/email-delivery-processor/src/Implementation/EmailDeliveryEventHandler.cs:73-93 | the rejection is invalid exactly when the address is not valid, shady exactly when it is valid and shady, blacklisted exactly when valid, not shady and blacklisted; none exactly when all three checks pass |
| `DeliveryModel.Decide` | services/email-delivery-processor/src/Implementation/EmailDeliveryEventHandler.cs:71-155 | a message is rejected iff a check fails, with that check's reason; it goes to SendGrid iff it passes and its type is non-empty, allow-listed and a client exists; it goes internally iff it passes and that routing condition fails; so exactly one of the three happens |
| `DeliveryModel.Tally` | services/email-delivery-processor/src/Implementation/EmailDeliveryEventHandler.cs:87-111 | the total counter for the message's type (the empty type included) rises by one iff the message is accepted; the SendGrid counter for its type rises by one iff it goes to SendGrid; the blacklist counter for the literal recipient rises by one iff it is rejected as blacklisted; no other series moves, and an invalid or shady rejection changes nothing |
| `DeliveryModel.UsesSendGrid` | services/email-delivery-processor/src/Implementation/EmailDeliveryEventHandler.cs:108 | definition, no contract; the routing condition whose consequences are stated by `Decide` and `Tally` |
| `DeliveryModel.SendGridContents` | services/email-delivery-processor/src/Implementation/EmailDeliveryEventHandler.cs:118-130 | definition, no contract; its properties are stated by `SendGridRequestContents` |
| `DeliveryModel.BuildSendGridMessage` | services/email-delivery-processor/src/Implementation/EmailDeliveryEventHandler.cs:113-116 | definition, no contract; its properties are stated by `SendGridRequestContents` |
| `DeliveryModel.InternalSender` | services/email-delivery-processor/src/Implementation/EmailDeliveryEventHandler.cs:140-141 | definition, no contract; its properties are stated by `InternalSenderRoundTrip` and `InternalDispatch` |
| `DeliveryModel.SendInternally` | services/email-delivery-processor/src/Implementation/EmailDeliveryEventHandler.cs:143-154 | definition, no contract; its properties are stated by `InternalDispatch` |
| `DeliveryModel.SendGridErrorLog` | services/email-delivery-processor/src/Implementation/EmailDeliveryEventHandler.cs:134-135 | definition, no contract; its properties are stated by `SendGridErrorLogged` and the `ErrorReport` lemmas |
| `SendGridErrors.AppendEntry` | services/email-delivery-processor/src/Implementation/EmailDeliveryEventHandler.cs:179-184 | definition, no contract; its properties are stated by `AppendEntryIsText` |
| `SendGridErrors.AppendEntries` | services/email-delivery-processor/src/Implementation/EmailDeliveryEventHandler.cs:173-185 | definition, no contract; its properties are stated by `AppendEntriesIsJoined` and `ErrorReportShape` |
| `DeliveryModel.TallyPreservesConsistency` | services/email-delivery-processor/src/Implementation/EmailDeliveryEventHandler.cs:87-111 | processing a message keeps the counter invariant: no type has more SendGrid events than total events, the empty type and a client-less handler never count SendGrid events, and every counted blacklisted address fails exactly the blacklist check |
| `DeliveryModel.CountersRecordHistory` | services/email-delivery-processor/src/Implementation/EmailDeliveryEventHandler.cs:87-111 | after any sequence of messages each counter has risen by the number of messages accepted with that type, sent via SendGrid with that type, or rejected as blacklisted to that address |
| `DeliveryModel.SendGridRequestContents` | services/email-delivery-processor/src/Implementation/EmailDeliveryEventHandler.cs:113-130 | the SendGrid request has the subject, the single recipient and the sender address unchanged, with the resolved name beside the address; it has one part for Plain and Html, two for Mime and none for an undefined body type; the text part is the plain body exactly when the type is Plain or Mime; the HTML part is the HTML body exactly when the type is Html or Mime; for Mime the text part comes first |
| `DeliveryModel.SendGridErrorLogged` | services/email-delivery-processor/src/Implementation/EmailDeliveryEventHandler.cs:132-135 | a successful reply logs nothing; a failed one logs the aggregated report of the reply's errors |
| `DeliveryModel.InternalSenderRoundTrip` | services/email-delivery-processor/src/Implementation/EmailDeliveryEventHandler.cs:140-141 | the original address can be read back from the internal sender string once the resolved name is known |
| `DeliveryModel.InternalDispatch` | services/email-delivery-processor/src/Implementation/EmailDeliveryEventHandler.cs:140-154 | on the internal channel the sender is unchanged without a name and "name <address>" with one; Mime uses the dual-body send with both bodies unmodified; Html uses the single-body send with the HTML body and the flag set; Plain, and an undefined body type, use the plain body with the flag unset |
| `DeliveryModel.SameSenderOnBothChannels` | services/email-delivery-processor/src/Implementation/EmailDeliveryEventHandler.cs:106-141 | one name resolution serves both channels: without a client, a message that would go to SendGrid goes internally, and its sender combines that request's name and address |
| `DeliveryModel.WelcomeViaSendGrid` | services/email-delivery-processor/src/Implementation/EmailDeliveryEventHandler.cs:106-130 | scenario: a plain, allow-listed "Welcome" email from the no-reply address, with a client, is one SendGrid request with name "Roblox no-reply" and the single text part "Hello"; the total and SendGrid counters for "Welcome" read one |
| `DeliveryModel.WelcomeInternally` | services/email-delivery-processor/src/Implementation/EmailDeliveryEventHandler.cs:140-154 | scenario: the same email with an empty allow-list is the single-body send from "Roblox no-reply <no-reply@roblox.com>" with the flag unset; the SendGrid counter stays zero |
| `SendGridErrors.EntryText` | services/email-delivery-processor/src/Implementation/EmailDeliveryEventHandler.cs:175-182 | an entry's text starts with its message; it is empty iff the message, field and help are all null or empty |
| `SendGridErrors.AppendEntryIsText` | services/email-delivery-processor/src/Implementation/EmailDeliveryEventHandler.cs:179-184 | one pass of the loop appends the entry's text followed by a newline |
| `SendGridErrors.TrimEnd` | services/email-delivery-processor/src/Implementation/EmailDeliveryEventHandler.cs:187 | the trimmed string is a prefix of the input, does not end in a newline, and everything cut off is newlines |
| `SendGridErrors.ErrorReport` | services/email-delivery-processor/src/Implementation/EmailDeliveryEventHandler.cs:169-190 | nothing is logged iff the body has no `errors` array |
| `SendGridErrors.AppendEntriesIsJoined` | services/email-delivery-processor/src/Implementation/EmailDeliveryEventHandler.cs:173-185 | after the loop the string is the prefix, then the entries' texts separated by "\n", then one final "\n" |
| `SendGridErrors.TrimEndKeepsPrefix` | services/email-delivery-processor/src/Implementation/EmailDeliveryEventHandler.cs:171-187 | trimming newlines never cuts into a prefix that does not end in a newline |
| `SendGridErrors.ErrorReportShape` | services/email-delivery-processor/src/Implementation/EmailDeliveryEventHandler.cs:169-189 | the logged string starts with "Error when sending email via SendGrid: ", never ends in a newline, and is the prefix plus the entries joined by "\n", trimmed |
| `SendGridErrors.ErrorReportOfEmptyArray` | services/email-delivery-processor/src/Implementation/EmailDeliveryEventHandler.cs:171-187 | an empty `errors` array logs exactly the prefix |
| `SendGridErrors.ErrorReportUntrimmed` | services/email-delivery-processor/src/Implementation/EmailDeliveryEventHandler.cs:179-187 | when the last entry's text is non-empty and does not end in a newline, the report is exactly the prefix plus the entries joined by "\n" |
| `EmailDeliveryHandler.EmailDeliveryEventHandler.constructor` | services/email-delivery-processor/src/Implementation/EmailDeliveryEventHandler.cs:35-68 | a new handler keeps its validator, client and addresses, starts with all counters at zero and the allow-list read at start-up, and satisfies the counter invariant |
| `EmailDeliveryHandler.EmailDeliveryEventHandler.UpdateSendGridEmailTypes` | services/email-delivery-processor/src/Implementation/EmailDeliveryEventHandler.cs:65-68 | the configuration callback replaces the allow-list as a whole and keeps the counter invariant |
| `EmailDeliveryHandler.EmailDeliveryEventHandler.ProcessMessage` | services/email-delivery-processor/src/Implementation/EmailDeliveryEventHandler.cs:71-155 | the send made or the rejection is `Decide` of the event; the counters become `Tally` of the old counters; the counter invariant is kept; on the internal channel, when a display name was resolved, the sender is rewritten to "name <address>"; otherwise no field of the event changes |
| `EmailDeliveryHandler.EmailDeliveryEventHandler.SendWithSendGrid` | services/email-delivery-processor/src/Implementation/EmailDeliveryEventHandler.cs:113-135 | builds the modelled SendGrid request from the event and the name, and logs the error report of the client's reply |
| `EmailDeliveryHandler.EmailDeliveryEventHandler.SendWithInternalTransport` | services/email-delivery-processor/src/Implementation/EmailDeliveryEventHandler.cs:140-154 | makes the modelled internal send; when a display name was resolved, the sender is rewritten to "name <address>"; otherwise no field of the event changes |
| `EmailDeliveryHandler.EmailDeliveryEventHandler.HandleSendGridError` | services/email-delivery-processor/src/Implementation/EmailDeliveryEventHandler.cs:165-190 | the string built entry by entry and then trimmed is exactly `ErrorReport` of the reply's `errors` array; with no array it logs nothing |

## Left out

- Logging: the warning, information and error lines go to a logger that is not modelled (lines 75, 82, 90, 97-104, 110 and 189). The error line's text is returned as `Option<string>` instead.
- The SendGrid client: the actual submission, the `.Sync()` wait and the deserialisation of the reply body are outside the model. The reply is the output of `send`. A body without an `errors` array is `None`.
- Non-object entries in `errors` are not modelled: the cast to `JObject` would throw for them. JSON values are modelled by their string form, and a missing or null member as `None`.
- The address validator's DNS- and list-based internals are not modelled. Each check is a fixed predicate, so a check cannot give different answers over time.
- The SendGrid reply `send` is one fixed function of the request for the handler's whole life. An identical request always gets an identical reply, and a reply cannot change over time. No proved property depends on this.
- The comma-separated parsing of the allow-list is not modelled: its parser is not part of this model. The allow-list is a set handed to the constructor or to `UpdateSendGridEmailTypes`.
- Concurrency is not modelled. In the source the allow-list and the counters are static fields shared by every handler instance and by all worker threads. Here they are fields of one handler object, updated one message at a time.
- Null strings are not modelled. A C# `null` email type or address is not representable. The model has only the empty string, which is routed as the code routes it.
- The constructor's null checks on the logger and the domain factories are not modelled, because Dafny references are never null. Also, the SendGrid client is represented by a tagged value rather than a nullable reference.
- Counter values are natural numbers; the Prometheus library stores them as floating-point values.
- The platform's no-reply and info addresses are constants of a library that is not part of this model. They are parameters.
- services/email-delivery-processor/src/Implementation/Settings.cs and services/email-delivery-processor/SettingsProvidersDefaults.cs only look up settings and define constants. Only the rule "a client exists iff the API key is non-empty" is kept, as `ClientForApiKey`.
- tests/email-delivery-component-test/Program.cs is an interactive console harness. It is pure I/O and is not modelled.
