# Charlie Bot conversation core, in Dafny

This project models the per-counterpart conversation state machine of the
Charlie Bot WhatsApp back end (`WhatsappService.handleMessages`), with the
pieces it relies on:

- the order-line record (`PedidoDetalle`) and its detail message, where a missing milestone date shows as "N/A";
- the mailbox regular expression of the booking step;
- the phone number taken from the sender address;
- the duration text of the confirmation mail (`calculateDuration`).

The model is pure. A turn is written `Conversation.Step(store, message, outcomes)`:

- `store` holds the two in-memory maps of the service, `userState` and `tempData`.
- `outcomes` carries what the outside world answers during this turn: the date parser, the order service, the calendar and the language model.
- The result is a `Turn`. It holds the new store, the replies sent back (in order) and the external calls made (with their arguments).
- `Conversation.Run` chains turns.

Modules:

- `Wrappers`: `Option` and map look-up.
- `JsText`: the ECMAScript string operations used. These are white space, `trim`, `includes`, lower-casing and integer rendering.
- `EmailSyntax`: the regular expression `^[^\s@]+@[^\s@]+\.[^\s@]+$`. It is written as an automaton and proved equal to the language it denotes.
- `JidAddress`: `jid.split('@')[0]`.
- `Duration`: `calculateDuration`.
- `Orders`: order lines and their detail messages.
- `Conversation`: the handlers and the dispatch.
- `ConversationProperties`: properties of turns and of whole conversations.

The model follows the code as written, including these behaviours a reader might not expect:

- A greeting resets the state to the menu but does not clear the booking record in `tempData`.
- Menu option "2" does not clear the record either. After "2", the old record stays as it was until the date step finds a free slot.
- Menu option "3" has no handler. It gets no reply and changes nothing.
- Before the first greeting, only a greeting is answered. A message from a counterpart with no state gets no reply, even "1" or "2".
- An error thrown by the language model is not caught. That turn sends nothing and changes nothing.
- After a booking attempt, both entries of the counterpart are deleted. The conversation then has no state, not the menu state.
- The order lookup does not return after its block. The later tests in `handleMessages` read the state captured at the start of the turn, so none of them fires after a lookup. `Conversation.RouteOf` therefore picks the branch as one chain of alternatives.

## Model

| member | source | states |
|---|---|---|
| Conversation.TextOf | src/whatsapp/whatsapp.service.ts:77-79 | The text is the plain conversation text when it is non-empty, otherwise the extended text; there is usable text exactly when one of the two is non-empty |
| Conversation.IsGreeting | src/whatsapp/whatsapp.service.ts:82-85 | The lower-cased text is "hola" or "menu"; a greeting is exactly four characters long (the case examples are `GreetingIgnoresCase`) |
| Conversation.Greet | src/whatsapp/whatsapp.service.ts:84-91 | A greeting puts the sender in the menu, sends the menu alone, calls nothing and keeps the booking records |
| Conversation.StartOrderLookup | src/whatsapp/whatsapp.service.ts:95-102 | Option 1 in the menu asks for the order number and moves to waiting for it, records untouched |
| Conversation.LookupOrder | src/whatsapp/whatsapp.service.ts:104-182 | An order number queries the order service once with the trimmed text and always returns the sender to the menu, whatever the service did |
| Conversation.LookupReplies | src/whatsapp/whatsapp.service.ts:109-181 | The search notice comes first; then one detail per returned line in the order received, or "no orders" for an empty list, or the unavailability notice on failure |
| Conversation.AskLanguageModel | src/whatsapp/whatsapp.service.ts:186-196 | Free menu text is passed to the model with the user name "Cliente"; its content, or the fixed fallback for empty content (src/ai/ai.service.ts:32), is the single reply; nothing is stored; a model error, rethrown at src/ai/ai.service.ts:35, leaves the turn without a reply |
| Conversation.StartScheduling | src/whatsapp/whatsapp.service.ts:199-204 | Option 2 in the menu asks for a date and moves to waiting for it, records untouched |
| Conversation.ChooseDate | src/whatsapp/whatsapp.service.ts:205-243 | Exactly one reply; only a free slot is stored (first parsed instant, one hour long) and advances to the name; an unparsed date, a taken slot or a failed check changes nothing; a failure whose message names the missing login gets the authorisation notice |
| Conversation.TakeName | src/whatsapp/whatsapp.service.ts:244-248 | The name is stored beside the slot already held, the email is asked for, and a missing record becomes one holding only the name |
| Conversation.TakeEmail | src/whatsapp/whatsapp.service.ts:249-285 | A text outside the mailbox pattern is re-asked for with nothing changed; a valid one creates the event from the record, the text and the phone part, deletes both entries whatever happens, and confirms exactly when the record exists, the calendar created the event and the start is known |
| Conversation.IsAuthError | src/whatsapp/whatsapp.service.ts:219-221 | The error message contains one of the two login markers (`AuthMarkers` states that either marker anywhere in the message makes it one, and an empty message is none) |
| Conversation.RouteOf | src/whatsapp/whatsapp.service.ts:81-285 | The branch a text takes, read from the state captured at the start of the turn; `RouteChoice` states which texts reach which branch |
| Conversation.Handle | src/whatsapp/whatsapp.service.ts:81-285 | The turn of the branch `RouteOf` picks; `HandleIsLocal` and `HandleKeepsScratchFit` state what every branch keeps |
| Conversation.Step | src/whatsapp/whatsapp.service.ts:76-286 | One turn of the handler; `IgnoresIncompleteMessages`, `StepIsLocal`, `StepKeepsScratchFit` and the turn lemmas below state its behaviour |
| Conversation.Run | src/whatsapp/whatsapp.service.ts:68-73 | The turns of a batch in order, replies and calls concatenated; `RunAppend` and `RunKeepsScratchFit` state its behaviour |
| JsText.Trim | src/whatsapp/whatsapp.service.ts:106 | `trim`, as stated by `TrimTrims` and `TrimIsUnique` |
| JsText.TrimTrims | src/whatsapp/whatsapp.service.ts:106 | `trim` removes exactly the white space at both ends and nothing else |
| JsText.TrimStartDropsSpace | src/whatsapp/whatsapp.service.ts:106 | Trimming the front keeps a suffix that starts with a non-space, and everything dropped is white space |
| JsText.TrimEndDropsSpace | src/whatsapp/whatsapp.service.ts:106 | Trimming the back keeps a prefix that ends with a non-space, and everything dropped is white space |
| JsText.TrimIsUnique | src/whatsapp/whatsapp.service.ts:106 | That description of trimming determines the result, so it fully specifies `trim` |
| JsText.TrimmedEmptyIffAllSpace | src/whatsapp/whatsapp.service.ts:106 | Trimming leaves nothing exactly when the text is all white space |
| JsText.Contains | src/whatsapp/whatsapp.service.ts:221 | `includes` is true exactly when the marker occurs at some offset of the message |
| JsText.LowerAscii | src/whatsapp/whatsapp.service.ts:82 | Lower-casing keeps the length and maps each capital letter to its small letter, leaving every other character alone |
| JsText.NatToString | src/email/email.service.ts:100 | The decimal rendering is non-empty, all digits, without a leading zero |
| JsText.IntToString | src/email/email.service.ts:100 | A template literal's rendering of an integer: a minus sign before the digits of a negative number (used by `NegativeDurations`) |
| JsText.NatToStringRoundTrip | src/email/email.service.ts:100 | Reading the decimal rendering back gives the number |
| EmailSyntax.Matches | src/whatsapp/whatsapp.service.ts:250-251 | The regular expression test on the whole text, stated by `MatchesIffShape` |
| EmailSyntax.ScanAccepts | src/whatsapp/whatsapp.service.ts:250 | From any automaton state, scanning a text ends in acceptance exactly when the text is in the language that state still expects |
| EmailSyntax.MatchesIffShape | src/whatsapp/whatsapp.service.ts:250-251 | The test passes exactly for a non-empty local part without white space or '@', one '@', and a domain of such characters holding a '.' that is neither its first nor its last character |
| JidAddress.PhoneOf | src/whatsapp/whatsapp.service.ts:259 | The phone is the longest '@'-free prefix of the address: a prefix, with no '@', ending at the first '@' or at the end |
| JidAddress.PhoneOfAddress | src/whatsapp/whatsapp.service.ts:258-259 | For an address `user@server`, the phone is exactly the user part, whatever the server part holds |
| JidAddress.PhoneOfBare | src/whatsapp/whatsapp.service.ts:259 | An address without '@' is returned whole |
| Duration.RoundedMinutes | src/email/email.service.ts:95 | The minute count is within half a minute of the duration, a half rounding up |
| Duration.RoundsHalfUp | src/email/email.service.ts:95 | 90 seconds round to 2 minutes and one millisecond less rounds to 1 |
| Duration.JsRemainder60 | src/email/email.service.ts:97 | The remainder differs from the minute count by a multiple of 60 and takes its sign |
| Duration.Split | src/email/email.service.ts:96-97 | For a non-negative count the hours and remaining minutes recompose the count, with minutes below 60 |
| Duration.RenderMixed | src/email/email.service.ts:99-100 | Hours and a non-zero minute part name both, joined by "y" |
| Duration.RenderWholeHours | src/email/email.service.ts:101-102 | A whole number of hours names only the hours |
| Duration.RenderUnderAnHour | src/email/email.service.ts:103-104 | Under an hour names only the minutes, zero included |
| Duration.SingularCounts | src/email/email.service.ts:99-105 | The plural 's' appears only above one: "0 minuto", "1 minuto", "1 hora", "2 horas y 30 minutos" |
| Duration.Render | src/email/email.service.ts:96-105 | The text of a minute count, stated case by case by `RenderMixed`, `RenderWholeHours`, `RenderUnderAnHour` and `NegativeDurations` |
| Duration.CalculateDuration | src/email/email.service.ts:94-106 | The duration text of two instants, stated by `OneHourEvent` and `EarlyEnd` |
| Duration.NegativeDurations | src/email/email.service.ts:96-105 | Any negative minute count names only its truncated remainder, a minute count from -59 to 0, because the hours are floored and the remainder keeps the sign |
| Duration.EarlyEnd | src/email/email.service.ts:94-106 | An end before the start is described by a minute count alone, from -59 to 0 |
| Duration.NegativeDurationExamples | src/email/email.service.ts:94-105 | -90 minutes reads "-30 minuto", -60 minutes and a start one hour after the end read "0 minuto" |
| Duration.OneHourEvent | src/email/email.service.ts:94-106 | An event of exactly one hour is described as "1 hora" |
| Orders.DateList | src/whatsapp/whatsapp.service.ts:21-29 | The nine milestones in message order, from `fechaf0` to `fechaf8` |
| Orders.ShowDate | src/whatsapp/whatsapp.service.ts:133-145 | A milestone shows "N/A" exactly when its date is null or empty; otherwise the formatted value of that date |
| Orders.ShowMilestones | src/whatsapp/whatsapp.service.ts:155-164 | Nine milestone entries, each the display of the date in the same position |
| Orders.Render | src/whatsapp/whatsapp.service.ts:147-165 | The detail message of one order line, stated by `RenderShowsLine` |
| Orders.RenderShowsLine | src/whatsapp/whatsapp.service.ts:147-165 | A detail message shows the trimmed project and order number, the other fields as stored, and the nine milestones in order, "N/A" exactly for null or empty dates |
| ConversationProperties.IgnoresIncompleteMessages | src/whatsapp/whatsapp.service.ts:76-79 | A message without a sender or without text changes nothing, says nothing and calls nothing |
| ConversationProperties.StepIsLocal | src/whatsapp/whatsapp.service.ts:76-286 | A turn changes no other counterpart's state or record, present or absent |
| ConversationProperties.HandleIsLocal | src/whatsapp/whatsapp.service.ts:84-285 | Whatever branch a text takes, no entry of another address changes |
| ConversationProperties.RouteChoice | src/whatsapp/whatsapp.service.ts:81-285 | Exactly the greetings go to the menu; every waiting state takes any other text as its answer; in the menu "1" starts the order lookup, "2" the scheduling, and any other non-greeting text except "3" goes to the model; a text is silent exactly when there is no state, or it is "3" in the menu |
| ConversationProperties.GreetingEntersMenu | src/whatsapp/whatsapp.service.ts:84-91 | A greeting from any state, or none, enters the menu, sends only the menu and keeps the record |
| ConversationProperties.GreetingIgnoresCase | src/whatsapp/whatsapp.service.ts:82-85 | "HOLA" and "Menu" are greetings; "hola " with a trailing space and "1" are not |
| ConversationProperties.MenuOptions | src/whatsapp/whatsapp.service.ts:95-204 | In the menu "1" leads to the order number and "2" to the date, each with its prompt |
| ConversationProperties.MenuThreeIsSilent | src/whatsapp/whatsapp.service.ts:186-204 | "3" in the menu matches no branch: no reply, no change |
| ConversationProperties.NoStateIsSilent | src/whatsapp/whatsapp.service.ts:81-285 | With no state, any non-greeting text gets no reply and changes nothing |
| ConversationProperties.OrderLookupTurn | src/whatsapp/whatsapp.service.ts:104-106 | While an order number is awaited, every non-greeting text is taken as the order number |
| ConversationProperties.ModelNeverMoves | src/whatsapp/whatsapp.service.ts:186-196 | Free menu text is handled by the model step: the store is unchanged, exactly the model call is made, and the reply is the model's content, the fallback for empty content, or nothing when the model throws |
| ConversationProperties.DateTurn | src/whatsapp/whatsapp.service.ts:205-243 | In the date step there is exactly one reply, and only a free first candidate changes the store, storing a one-hour slot |
| ConversationProperties.AuthMarkers | src/whatsapp/whatsapp.service.ts:219-221 | Either marker, anywhere in the error message, selects the authorisation notice; an empty message selects neither |
| ConversationProperties.ScratchFitsInitially | src/whatsapp/whatsapp.service.ts:37-39 | The empty maps satisfy the record invariant |
| ConversationProperties.ChooseDateFits | src/whatsapp/whatsapp.service.ts:233-235 | The date step keeps the invariant: waiting for a name implies a stored one-hour slot |
| ConversationProperties.TakeNameFits | src/whatsapp/whatsapp.service.ts:244-247 | The name step keeps the invariant: waiting for an email implies a slot and a name |
| ConversationProperties.HandleKeepsScratchFit | src/whatsapp/whatsapp.service.ts:84-285 | Every handler keeps the record invariant |
| ConversationProperties.StepKeepsScratchFit | src/whatsapp/whatsapp.service.ts:76-286 | Every turn keeps the record invariant |
| ConversationProperties.RunAppend | src/whatsapp/whatsapp.service.ts:70-72 | A batch split in two gives the turns of the first part, then those of the second from the store the first part left, with replies and calls in batch order |
| ConversationProperties.RunKeepsScratchFit | src/whatsapp/whatsapp.service.ts:68-73 | Any sequence of turns from a fitting store keeps the invariant |
| ConversationProperties.GreetingIsNoMailbox | src/whatsapp/whatsapp.service.ts:250 | No greeting passes the mailbox test, so the greeting test cannot hide an email |
| ConversationProperties.BookingUsesHeldSlot | src/whatsapp/whatsapp.service.ts:249-285 | In a reachable store a valid email creates the event with the held start, an end one hour later, the stored name, the text and the phone part; `calculateDuration` of the held slot gives "1 hora"; both entries go, with a confirmation exactly when the calendar created the event |
| ConversationProperties.NameTurn | src/whatsapp/whatsapp.service.ts:244-248 | While a name is awaited, every non-greeting text is taken as the name |
| ConversationProperties.InvalidEmailTurn | src/whatsapp/whatsapp.service.ts:249-254 | While an email is awaited, a non-greeting text outside the mailbox pattern gets the one "invalid email" reply and changes nothing |
| ConversationProperties.EmailTurn | src/whatsapp/whatsapp.service.ts:249-251 | While an email is awaited, a text passing the mailbox test is handled as the email |
| ConversationProperties.HeldSlotBooking | src/whatsapp/whatsapp.service.ts:261-283 | With a slot and a name on record, the email handler creates the event from them and confirms exactly when the calendar created it |
| ConversationProperties.BookingConversation | src/whatsapp/whatsapp.service.ts:199-285 | From the menu, "2", a free date, a name and a valid email produce exactly the prompts, the parse and check calls, and one event creation with the parsed start, the name, the email and the phone; the counterpart ends with no entries |
| ConversationProperties.BookingTail | src/whatsapp/whatsapp.service.ts:205-285 | The date, name and email turns of the booking, with their replies and calls |
| ConversationProperties.BookingFirstTurn | src/whatsapp/whatsapp.service.ts:200-204 | "2" from the menu asks for the date and makes no call |
| ConversationProperties.BookingDateTurn | src/whatsapp/whatsapp.service.ts:205-238 | A date with a free slot stores the slot, asks for the name and makes the parse and check calls |
| ConversationProperties.BookingNameTurn | src/whatsapp/whatsapp.service.ts:244-248 | The name turn stores the name beside the slot and asks for the email |
| ConversationProperties.BookingEmailTurn | src/whatsapp/whatsapp.service.ts:249-276 | The email turn books the stored slot with the name, the email and the phone part, and deletes both entries |

## Left out

- Socket set-up, reconnection, the QR code and the filter on own messages (lines 46-74) are left out because they are transport. `Run` starts at the turns the service handles.
- The typing indicator (line 190) and the half-second pause between detail messages (line 170) have no effect on the state or the replies, so they are left out.
- Concurrent handling of two messages from one counterpart is left out. Turns are applied one at a time.
- The natural-language date parser is not modelled. Its candidates arrive as `Outcomes.parsed`, as instants in milliseconds.
- The HTTP request, the status test and JSON decoding of the order service are not modelled. They arrive as `Outcomes.lookup`. A `null` body is read as an empty list.
- Order lines with a `null` project or order number are left out: their `trim()` would throw after earlier details were already sent.
- The Groq client and the prompt text of the language model are left out. Only the prompt argument, the user name and the fallback text are modelled.
- The calendar service's availability check and event creation are only outcomes.
- The confirmation mail is left out, except for its duration text. No caller of `sendEventConfirmation` (src/email/email.service.ts:41) appears in the code, and `createEvent` sends no mail, so no turn sends it.
- `toLocaleDateString('es-ES', …)` (src/whatsapp/whatsapp.service.ts:137) and `toLocaleString()` in the runtime's default locale (lines 237 and 275) are left out. `ShortDate(raw)`, `SlotFree(start)` and `Booked(start, …)` carry the unformatted value.
- The authorisation controller and service, the module wiring and the manual test script are left out. They lie outside the conversation.
- Duration.RoundedMinutes: uses exact division. The source divides in floating point, and the rounded quotient could differ only for durations of more than a hundred thousand years.
- JsText.LowerAscii: lower-cases ASCII letters only. This gives the same verdict as the full Unicode mapping in the one place it is used, the comparison with "hola" and "menu".
- Conversation.TakeEmail: the confirmation reply carries the start instant, not the locale rendering of that instant.
- Conversation.Run: sequences handled turns only. When a turn throws (a language model error rethrown at src/ai/ai.service.ts:35), the source skips the rest of that `messages.upsert` batch, while `Run` goes on with the next message.
- Orders.Item: the description is a non-null string and the quantities and identifier are integers. A `null` description, which the source renders as "null", and fractional numbers, rendered as decimals, are not modelled; the model only passes these fields through.
