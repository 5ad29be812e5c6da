/** The per-counterpart conversation state machine of the WhatsApp handler.
    One inbound message is one turn: `Step` reads the sender's entries in the
    two in-memory maps, decides what the text means in that state, asks the
    outside world for what it needs, writes the sender's entries back and
    emits the replies. The answers of the outside world (date parser, order
    service, calendar, language model) arrive as plain values in `Outcomes`;
    the calls the turn makes are listed in `Turn.calls`. */
module Conversation {
  import opened Wrappers
  import opened JsText
  import EmailSyntax
  import JidAddress
  import Orders

  /** The values the handler ever writes into `userState`. */
  datatype State = MainMenu | AwaitingOrderNumber | AwaitingDate | AwaitingName | AwaitingEmail

  /** The scheduling record kept in `tempData`. A field is None where the
      stored object lacks that property. Instants are milliseconds. */
  datatype Scratch = Scratch(start: Option<int>, end: Option<int>, name: Option<string>)

  /** `userState` and `tempData`, both keyed by the counterpart address. */
  datatype Store = Store(userState: map<string, State>, tempData: map<string, Scratch>)

  const EmptyStore: Store := Store(map[], map[])

  /** The parts of an inbound message the handler reads: `key.remoteJid`,
      `message.conversation` and `message.extendedTextMessage.text`. */
  datatype Message = Message(remoteJid: Option<string>, conversation: Option<string>, extendedText: Option<string>)

  /** What the calendar's availability check did: answered, or threw an error
      whose message (empty when it had none) is given. */
  datatype Availability = Answered(free: bool) | CheckFailed(message: string)

  /** What the order service did: failed (unreachable, non-2xx status, body
      not JSON) or returned a list of lines (`null` reads as empty). */
  datatype Lookup = LookupFailed | LookupItems(items: seq<Orders.Item>)

  datatype Creation = Created | CreateFailed

  /** What the language model did: completed, with the content of its first
      choice if any, or threw. */
  datatype Completion = Completed(content: Option<string>) | CompletionThrew

  /** The answers of the outside world for this turn; a turn reads only those
      of the calls it makes. `parsed` holds the instants the date parser found
      in the text, first candidate first. */
  datatype Outcomes = Outcomes(
    parsed: seq<int>,
    availability: Availability,
    lookup: Lookup,
    creation: Creation,
    completion: Completion)

  /** The external calls a turn makes, with their arguments. */
  datatype Call =
    | FetchOrder(orderNumber: string)
    | AskModel(prompt: string, userName: string)
    | ParseDate(text: string)
    | CheckSlot(from: int, until: int)
    | CreateEvent(title: string, start: Option<int>, end: Option<int>, email: string, phone: string, name: Option<string>)

  /** The replies sent back to the counterpart. Fixed texts are tags; replies
      built from data carry that data. */
  datatype Reply =
    | MenuText
    | AskOrderNumber
    | Searching(orderNumber: string)
    | NoOrdersFound
    | OrderDetail(detail: Orders.Detail)
    | LookupUnavailable
    | ModelAnswer(text: string)
    | AskDate
    | DateNotUnderstood
    | NotAuthenticated
    | AvailabilityError
    | SlotFree(start: int)
    | SlotTaken
    | AskEmail
    | InvalidEmail
    | Booked(start: int, name: string, email: string, phone: string)
    | BookingFailed

  /** The result of one turn. */
  datatype Turn = Turn(store: Store, replies: seq<Reply>, calls: seq<Call>)

  /** Length of every appointment: one hour in milliseconds. */
  const SlotMs: int := 60 * 60 * 1000

  /** The model's reply when its completion has no content. */
  const ModelFallback: string := "Lo siento, tuve un pequeño corto circuito mental. ¿Me repites?"

  /** The name passed to the language model for every counterpart. */
  const ModelUserName: string := "Cliente"

  /** The state entry of `jid`, None when it has none. */
  function StateOf(s: Store, jid: string): Option<State> {
    Get(s.userState, jid)
  }

  /** `text.toLowerCase()` is "hola" or "menu". */
  predicate IsGreeting(text: string)
    ensures IsGreeting(text) ==> |text| == 4
  {
    LowerAscii(text) == "hola" || LowerAscii(text) == "menu"
  }

  /** `msg.message?.conversation || msg.message?.extendedTextMessage?.text`:
      the plain text if non-empty, else the extended text. */
  function TextOf(msg: Message): (t: Option<string>)
    ensures (t.Some? && t.value != "") <==>
      (msg.conversation.Some? && msg.conversation.value != "") ||
      (msg.extendedText.Some? && msg.extendedText.value != "")
    ensures msg.conversation.Some? && msg.conversation.value != "" ==> t == msg.conversation
    ensures !(msg.conversation.Some? && msg.conversation.value != "") ==> t == msg.extendedText
  {
    if msg.conversation.Some? && msg.conversation.value != "" then msg.conversation
    else msg.extendedText
  }

  /** A template literal's rendering of a property that may be missing. */
  function Show(v: Option<string>): string {
    v.GetOr("undefined")
  }

  /** The turn that changes nothing and says nothing. */
  function Silent(s: Store): Turn {
    Turn(s, [], [])
  }

  /** A greeting from any state (or none) enters the menu; `tempData` is left
      as it was. */
  function Greet(s: Store, jid: string): (t: Turn)
    ensures StateOf(t.store, jid) == Some(MainMenu)
    ensures t.store.tempData == s.tempData
    ensures t.replies == [MenuText] && t.calls == []
  {
    Turn(s.(userState := s.userState[jid := MainMenu]), [MenuText], [])
  }

  /** Menu option 1: ask for the order number. */
  function StartOrderLookup(s: Store, jid: string): (t: Turn)
    ensures StateOf(t.store, jid) == Some(AwaitingOrderNumber)
    ensures t.store.tempData == s.tempData
    ensures t.replies == [AskOrderNumber] && t.calls == []
  {
    Turn(s.(userState := s.userState[jid := AwaitingOrderNumber]), [AskOrderNumber], [])
  }

  /** The order number arrives: announce the search, query the order service
      with the trimmed text, report what it returned, and go back to the menu
      whatever happened. */
  function LookupOrder(s: Store, jid: string, text: string, lookup: Lookup): (t: Turn)
    ensures StateOf(t.store, jid) == Some(MainMenu)
    ensures t.store.tempData == s.tempData
    ensures t.calls == [FetchOrder(Trim(text))]
    ensures t.replies == LookupReplies(Trim(text), lookup)
  {
    var number := Trim(text);
    Turn(s.(userState := s.userState[jid := MainMenu]), LookupReplies(number, lookup), [FetchOrder(number)])
  }

  /** The replies of an order lookup: the search notice, then one detail per
      returned line in the order received, or a single error. */
  function LookupReplies(number: string, lookup: Lookup): (rs: seq<Reply>)
    ensures |rs| >= 2 && rs[0] == Searching(number)
    ensures lookup.LookupItems? && |lookup.items| > 0 ==>
      && |rs| == 1 + |lookup.items|
      && forall i :: 0 <= i < |lookup.items| ==> rs[i + 1] == OrderDetail(Orders.Render(lookup.items[i]))
    ensures lookup.LookupItems? && |lookup.items| == 0 ==> rs == [Searching(number), NoOrdersFound]
    ensures lookup.LookupFailed? ==> rs == [Searching(number), LookupUnavailable]
  {
    var searching := Searching(number);
    match lookup
    case LookupFailed => [searching, LookupUnavailable]
    case LookupItems(items) =>
      if |items| == 0 then [searching, NoOrdersFound]
      else
        [searching] + seq(|items|, i requires 0 <= i < |items| => OrderDetail(Orders.Render(items[i])))
  }

  /** Free text in the menu goes to the language model and its answer (or the
      fixed fallback when it has no content) is relayed; nothing is stored.
      A throwing model aborts the turn before any reply. */
  function AskLanguageModel(s: Store, jid: string, text: string, completion: Completion): (t: Turn)
    ensures t.store == s
    ensures t.calls == [AskModel(text, ModelUserName)]
    ensures completion.CompletionThrew? ==> t.replies == []
    ensures completion.Completed? ==> |t.replies| == 1 && t.replies[0].ModelAnswer?
    ensures completion.Completed? && completion.content.Some? && completion.content.value != "" ==>
      t.replies == [ModelAnswer(completion.content.value)]
    ensures completion.Completed? && (completion.content.None? || completion.content.value == "") ==>
      t.replies == [ModelAnswer(ModelFallback)]
  {
    var calls := [AskModel(text, ModelUserName)];
    match completion
    case CompletionThrew => Turn(s, [], calls)
    case Completed(content) =>
      var answer := if content.Some? && content.value != "" then content.value else ModelFallback;
      Turn(s, [ModelAnswer(answer)], calls)
  }

  /** Menu option 2: ask for a date. `tempData` is not cleared here. */
  function StartScheduling(s: Store, jid: string): (t: Turn)
    ensures StateOf(t.store, jid) == Some(AwaitingDate)
    ensures t.store.tempData == s.tempData
    ensures t.replies == [AskDate] && t.calls == []
  {
    Turn(s.(userState := s.userState[jid := AwaitingDate]), [AskDate], [])
  }

  /** The check of the availability error's message for the two markers of a
      missing calendar authorisation. */
  predicate IsAuthError(message: string) {
    Contains(message, "Usuario no autenticado") || Contains(message, "/auth/login")
  }

  /** The date arrives. The first parsed instant starts a one-hour slot; only a
      free slot is stored and advances to the name. Every other outcome gives
      one reply and changes nothing. */
  function ChooseDate(s: Store, jid: string, text: string, parsed: seq<int>, availability: Availability): (t: Turn)
    ensures |t.replies| == 1
    ensures |parsed| == 0 ==> t.store == s && t.replies == [DateNotUnderstood] && t.calls == [ParseDate(text)]
    ensures |parsed| > 0 ==> t.calls == [ParseDate(text), CheckSlot(parsed[0], parsed[0] + SlotMs)]
    ensures |parsed| > 0 && availability == Answered(true) ==>
      && StateOf(t.store, jid) == Some(AwaitingName)
      && Get(t.store.tempData, jid) == Some(Scratch(Some(parsed[0]), Some(parsed[0] + SlotMs), None))
      && t.replies == [SlotFree(parsed[0])]
    ensures |parsed| > 0 && availability != Answered(true) ==> t.store == s
    ensures |parsed| > 0 && availability == Answered(false) ==> t.replies == [SlotTaken]
    ensures |parsed| > 0 && availability.CheckFailed? ==>
      t.replies == [if IsAuthError(availability.message) then NotAuthenticated else AvailabilityError]
  {
    if |parsed| == 0 then Turn(s, [DateNotUnderstood], [ParseDate(text)])
    else
      var start := parsed[0];
      var end := start + SlotMs;
      var calls := [ParseDate(text), CheckSlot(start, end)];
      match availability
      case CheckFailed(message) =>
        Turn(s, [if IsAuthError(message) then NotAuthenticated else AvailabilityError], calls)
      case Answered(free) =>
        if free then
          Turn(Store(s.userState[jid := AwaitingName], s.tempData[jid := Scratch(Some(start), Some(end), None)]),
               [SlotFree(start)], calls)
        else Turn(s, [SlotTaken], calls)
  }

  /** The name arrives: stored verbatim beside whatever the record already
      held (`{ ...data, name: text }`), and the email is asked for. */
  function TakeName(s: Store, jid: string, text: string): (t: Turn)
    ensures StateOf(t.store, jid) == Some(AwaitingEmail)
    ensures jid in t.store.tempData && t.store.tempData[jid].name == Some(text)
    ensures jid in s.tempData ==>
      t.store.tempData[jid].start == s.tempData[jid].start && t.store.tempData[jid].end == s.tempData[jid].end
    ensures jid !in s.tempData ==> t.store.tempData[jid] == Scratch(None, None, Some(text))
    ensures t.replies == [AskEmail] && t.calls == []
  {
    var data := if jid in s.tempData then s.tempData[jid] else Scratch(None, None, None);
    Turn(Store(s.userState[jid := AwaitingEmail], s.tempData[jid := data.(name := Some(text))]), [AskEmail], [])
  }

  /** The email arrives. A text outside the mailbox pattern is re-asked for
      and nothing changes. Otherwise the event is created from the record,
      the text and the phone part of the address, and both entries of the
      counterpart are deleted whatever the calendar answered. */
  function TakeEmail(s: Store, jid: string, text: string, creation: Creation): (t: Turn)
    ensures !EmailSyntax.Matches(text) ==> t.store == s && t.replies == [InvalidEmail] && t.calls == []
    ensures EmailSyntax.Matches(text) ==>
      && t.store == Store(s.userState - {jid}, s.tempData - {jid})
      && |t.replies| == 1
      && (jid in s.tempData ==>
            var d := s.tempData[jid];
            t.calls == [CreateEvent("Cita: " + Show(d.name), d.start, d.end, text, JidAddress.PhoneOf(jid), d.name)])
      && (jid !in s.tempData ==> t.calls == [] && t.replies == [BookingFailed])
      && (t.replies[0].Booked? <==> jid in s.tempData && creation == Created && s.tempData[jid].start.Some?)
  {
    if !EmailSyntax.Matches(text) then Turn(s, [InvalidEmail], [])
    else
      var phone := JidAddress.PhoneOf(jid);
      var cleared := Store(s.userState - {jid}, s.tempData - {jid});
      if jid !in s.tempData then
        // Reading `data.name` of a missing record throws inside the `try`.
        Turn(cleared, [BookingFailed], [])
      else
        var d := s.tempData[jid];
        var call := CreateEvent("Cita: " + Show(d.name), d.start, d.end, text, phone, d.name);
        if creation == Created && d.start.Some? then
          Turn(cleared, [Booked(d.start.value, Show(d.name), text, phone)], [call])
        else
          // A failed creation, or a confirmation that cannot format a missing
          // start, both end in the `catch`.
          Turn(cleared, [BookingFailed], [call])
  }

  /** The branch of `handleMessages` a text takes. */
  datatype Route =
    | ToGreeting
    | ToOrderStart
    | ToOrderLookup
    | ToModel
    | ToScheduling
    | ToDate
    | ToName
    | ToEmail
    | ToNowhere

  /** Dispatch on the greeting, the raw text and the state read at the start
      of the turn. The source tests these in sequence without returning after
      the order lookup; the later tests read the state captured before the
      lookup (`AWAITING_ORDER_NUMBER`), so none of them fires after it and the
      chain below is equivalent. */
  function RouteOf(state: Option<State>, text: string): Route {
    if IsGreeting(text) then ToGreeting
    else if text == "1" && state == Some(MainMenu) then ToOrderStart
    else if state == Some(AwaitingOrderNumber) then ToOrderLookup
    else if state == Some(MainMenu) && text !in {"1", "2", "3"} then ToModel
    else if text == "2" && state == Some(MainMenu) then ToScheduling
    else if state == Some(AwaitingDate) then ToDate
    else if state == Some(AwaitingName) then ToName
    else if state == Some(AwaitingEmail) then ToEmail
    else ToNowhere
  }

  /** The turn of a text from `jid`, by the branch it takes. */
  function Handle(s: Store, jid: string, text: string, o: Outcomes): Turn {
    match RouteOf(StateOf(s, jid), text)
    case ToGreeting => Greet(s, jid)
    case ToOrderStart => StartOrderLookup(s, jid)
    case ToOrderLookup => LookupOrder(s, jid, text, o.lookup)
    case ToModel => AskLanguageModel(s, jid, text, o.completion)
    case ToScheduling => StartScheduling(s, jid)
    case ToDate => ChooseDate(s, jid, text, o.parsed, o.availability)
    case ToName => TakeName(s, jid, text)
    case ToEmail => TakeEmail(s, jid, text, o.creation)
    case ToNowhere => Silent(s)
  }

  /** One turn of `handleMessages`: a message without a sender address or
      without text is ignored. */
  function Step(s: Store, msg: Message, o: Outcomes): Turn {
    var text := TextOf(msg);
    match (msg.remoteJid, text)
    case (Some(jid), Some(t)) => if jid == "" || t == "" then Silent(s) else Handle(s, jid, t, o)
    case _ => Silent(s)
  }

  /** A sequence of turns, each with its own outcomes; replies and calls are
      concatenated in turn order. */
  function Run(s: Store, script: seq<(Message, Outcomes)>): Turn
    decreases |script|
  {
    if script == [] then Silent(s)
    else
      var t := Step(s, script[0].0, script[0].1);
      var rest := Run(t.store, script[1..]);
      Turn(rest.store, t.replies + rest.replies, t.calls + rest.calls)
  }
}
