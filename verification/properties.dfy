/** Properties of the conversation state machine that span a whole turn or
    several turns. */
module ConversationProperties {
  import opened Wrappers
  import opened JsText
  import opened Conversation
  import EmailSyntax
  import JidAddress
  import Duration

  /** A plain text message from `jid`. */
  function Say(jid: string, text: string): Message {
    Message(Some(jid), Some(text), None)
  }

  /** A message without a sender address or without text changes nothing,
      says nothing and calls nothing. */
  lemma IgnoresIncompleteMessages(s: Store, msg: Message, o: Outcomes)
    requires msg.remoteJid.None? || msg.remoteJid == Some("") || TextOf(msg).None? || TextOf(msg) == Some("")
    ensures Step(s, msg, o) == Turn(s, [], [])
  {
  }

  /** A turn writes only the sender's entries: every other address keeps its
      state and its record, present or absent. */
  lemma StepIsLocal(s: Store, msg: Message, o: Outcomes, k: string)
    requires msg.remoteJid != Some(k)
    ensures Get(Step(s, msg, o).store.userState, k) == Get(s.userState, k)
    ensures Get(Step(s, msg, o).store.tempData, k) == Get(s.tempData, k)
  {
    if msg.remoteJid.Some? && TextOf(msg).Some? && msg.remoteJid.value != "" && TextOf(msg).value != "" {
      HandleIsLocal(s, msg.remoteJid.value, TextOf(msg).value, o, k);
    }
  }

  /** Every handler writes only the entries of its own address. */
  lemma HandleIsLocal(s: Store, jid: string, text: string, o: Outcomes, k: string)
    requires jid != k
    ensures Get(Handle(s, jid, text, o).store.userState, k) == Get(s.userState, k)
    ensures Get(Handle(s, jid, text, o).store.tempData, k) == Get(s.tempData, k)
  {
    var t := Handle(s, jid, text, o);
    match RouteOf(StateOf(s, jid), text)
    case ToGreeting => assert t.store == Greet(s, jid).store;
    case ToOrderStart => assert t.store == StartOrderLookup(s, jid).store;
    case ToOrderLookup => assert t.store == LookupOrder(s, jid, text, o.lookup).store;
    case ToModel => assert t.store == AskLanguageModel(s, jid, text, o.completion).store;
    case ToScheduling => assert t.store == StartScheduling(s, jid).store;
    case ToDate => assert t.store == ChooseDate(s, jid, text, o.parsed, o.availability).store;
    case ToName => assert t.store == TakeName(s, jid, text).store;
    case ToEmail => assert t.store == TakeEmail(s, jid, text, o.creation).store;
    case ToNowhere => assert t.store == Silent(s).store;
  }

  /** A greeting, in any letter case, enters the menu from every state and
      from none, sends the menu alone and leaves the record as it was. */
  lemma GreetingEntersMenu(s: Store, jid: string, text: string, o: Outcomes)
    requires jid != "" && IsGreeting(text)
    ensures StateOf(Step(s, Say(jid, text), o).store, jid) == Some(MainMenu)
    ensures Step(s, Say(jid, text), o).store.tempData == s.tempData
    ensures Step(s, Say(jid, text), o).replies == [MenuText]
  {
  }

  /** The greeting test ignores letter case but nothing else. */
  lemma GreetingIgnoresCase()
    ensures IsGreeting("HOLA") && IsGreeting("Menu")
    ensures !IsGreeting("hola ") && !IsGreeting("1")
  {
    assert LowerAscii("HOLA") == "hola";
    assert LowerAscii("Menu") == "menu";
  }

  /** Menu options are compared with the raw text: "1" and "2" advance. */
  lemma MenuOptions(s: Store, jid: string, o: Outcomes)
    requires jid != "" && StateOf(s, jid) == Some(MainMenu)
    ensures StateOf(Step(s, Say(jid, "1"), o).store, jid) == Some(AwaitingOrderNumber)
    ensures Step(s, Say(jid, "1"), o).replies == [AskOrderNumber]
    ensures StateOf(Step(s, Say(jid, "2"), o).store, jid) == Some(AwaitingDate)
    ensures Step(s, Say(jid, "2"), o).replies == [AskDate]
  {
    assert !IsGreeting("1") && !IsGreeting("2");
  }

  /** Option 3 in the menu is matched nowhere: no reply, no change. */
  lemma MenuThreeIsSilent(s: Store, jid: string, o: Outcomes)
    requires jid != "" && StateOf(s, jid) == Some(MainMenu)
    ensures Step(s, Say(jid, "3"), o) == Turn(s, [], [])
  {
    assert !IsGreeting("3");
  }

  /** Before the first greeting nothing but a greeting is answered, not even
      a menu option. */
  lemma NoStateIsSilent(s: Store, jid: string, text: string, o: Outcomes)
    requires jid != "" && text != "" && jid !in s.userState && !IsGreeting(text)
    ensures Step(s, Say(jid, text), o) == Turn(s, [], [])
  {
  }

  /** Any text other than a greeting, sent while an order number is awaited,
      is taken as the order number. */
  lemma OrderLookupTurn(s: Store, jid: string, text: string, o: Outcomes)
    requires jid != "" && text != "" && StateOf(s, jid) == Some(AwaitingOrderNumber) && !IsGreeting(text)
    ensures Step(s, Say(jid, text), o) == LookupOrder(s, jid, text, o.lookup)
  {
  }

  /** Free text in the menu is answered by the language model alone and never
      moves the conversation: the reply is the model's content, the fallback
      for empty content, or nothing when the model throws. */
  lemma ModelNeverMoves(s: Store, jid: string, text: string, o: Outcomes)
    requires jid != "" && text != "" && StateOf(s, jid) == Some(MainMenu)
    requires text !in {"1", "2", "3"} && !IsGreeting(text)
    ensures Step(s, Say(jid, text), o).store == s
    ensures Step(s, Say(jid, text), o).calls == [AskModel(text, ModelUserName)]
    ensures o.completion.Completed? ==> |Step(s, Say(jid, text), o).replies| == 1
    ensures Step(s, Say(jid, text), o) == AskLanguageModel(s, jid, text, o.completion)
  {
  }

  /** In the date step only a free slot moves the conversation on; the slot
      is the first parsed instant and lasts an hour. */
  lemma DateTurn(s: Store, jid: string, text: string, o: Outcomes)
    requires jid != "" && text != "" && StateOf(s, jid) == Some(AwaitingDate) && !IsGreeting(text)
    ensures |Step(s, Say(jid, text), o).replies| == 1
    ensures !(|o.parsed| > 0 && o.availability == Answered(true)) ==> Step(s, Say(jid, text), o).store == s
    ensures |o.parsed| > 0 && o.availability == Answered(true) ==>
      && StateOf(Step(s, Say(jid, text), o).store, jid) == Some(AwaitingName)
      && Get(Step(s, Say(jid, text), o).store.tempData, jid) == Some(Scratch(Some(o.parsed[0]), Some(o.parsed[0] + SlotMs), None))
  {
  }

  /** The error message test finds either marker anywhere in the text, and
      an empty message has neither. */
  lemma AuthMarkers(pre: string, post: string)
    ensures IsAuthError(pre + "Usuario no autenticado" + post)
    ensures IsAuthError(pre + "/auth/login" + post)
    ensures !IsAuthError("")
  {
    var m1 := pre + "Usuario no autenticado" + post;
    assert m1[|pre|..|pre| + |"Usuario no autenticado"|] == "Usuario no autenticado";
    assert OccursAt(m1, "Usuario no autenticado", |pre|);
    var m2 := pre + "/auth/login" + post;
    assert m2[|pre|..|pre| + |"/auth/login"|] == "/auth/login";
    assert OccursAt(m2, "/auth/login", |pre|);
  }

  /** The record of `k` holds a one-hour slot. */
  predicate HoldsSlot(s: Store, k: string) {
    && k in s.tempData
    && s.tempData[k].start.Some?
    && s.tempData[k].end == Some(s.tempData[k].start.value + SlotMs)
  }

  /** Waiting for a name implies a slot in the record; waiting for an email
      implies a slot and a name. */
  predicate ScratchFits(s: Store) {
    forall k :: k in s.userState ==>
      && (s.userState[k] == AwaitingName ==> HoldsSlot(s, k))
      && (s.userState[k] == AwaitingEmail ==> HoldsSlot(s, k) && s.tempData[k].name.Some?)
  }

  lemma ScratchFitsInitially()
    ensures ScratchFits(EmptyStore)
  {
  }

  /** Entering a state that needs no record keeps the store fitting. */
  lemma EnterPlainStateFits(s: Store, jid: string, st: State)
    requires ScratchFits(s) && st != AwaitingName && st != AwaitingEmail
    ensures ScratchFits(s.(userState := s.userState[jid := st]))
  {
  }

  lemma ForgetFits(s: Store, jid: string)
    requires ScratchFits(s)
    ensures ScratchFits(Store(s.userState - {jid}, s.tempData - {jid}))
  {
  }

  lemma ChooseDateFits(s: Store, jid: string, text: string, parsed: seq<int>, availability: Availability)
    requires ScratchFits(s)
    ensures ScratchFits(ChooseDate(s, jid, text, parsed, availability).store)
  {
    if |parsed| > 0 && availability == Answered(true) {
      var t := ChooseDate(s, jid, text, parsed, availability);
      assert t.store.userState == s.userState[jid := AwaitingName];
      assert HoldsSlot(t.store, jid);
    }
  }

  lemma TakeNameFits(s: Store, jid: string, text: string)
    requires ScratchFits(s) && StateOf(s, jid) == Some(AwaitingName)
    ensures ScratchFits(TakeName(s, jid, text).store)
  {
    assert HoldsSlot(s, jid);
    var t := TakeName(s, jid, text);
    assert t.store.userState == s.userState[jid := AwaitingEmail];
    assert HoldsSlot(t.store, jid);
  }

  lemma HandleKeepsScratchFit(s: Store, jid: string, text: string, o: Outcomes)
    requires ScratchFits(s)
    ensures ScratchFits(Handle(s, jid, text, o).store)
  {
    var t := Handle(s, jid, text, o);
    match RouteOf(StateOf(s, jid), text)
    case ToGreeting =>
      EnterPlainStateFits(s, jid, MainMenu);
      assert t == Greet(s, jid);
    case ToOrderStart =>
      EnterPlainStateFits(s, jid, AwaitingOrderNumber);
      assert t == StartOrderLookup(s, jid);
    case ToOrderLookup =>
      EnterPlainStateFits(s, jid, MainMenu);
      assert t == LookupOrder(s, jid, text, o.lookup);
    case ToModel =>
      assert t == AskLanguageModel(s, jid, text, o.completion);
    case ToScheduling =>
      EnterPlainStateFits(s, jid, AwaitingDate);
      assert t == StartScheduling(s, jid);
    case ToDate =>
      ChooseDateFits(s, jid, text, o.parsed, o.availability);
      assert t == ChooseDate(s, jid, text, o.parsed, o.availability);
    case ToName =>
      TakeNameFits(s, jid, text);
      assert t == TakeName(s, jid, text);
    case ToEmail =>
      ForgetFits(s, jid);
      assert t == TakeEmail(s, jid, text, o.creation);
    case ToNowhere =>
  }

  /** Every turn keeps the records consistent with the states. */
  lemma StepKeepsScratchFit(s: Store, msg: Message, o: Outcomes)
    requires ScratchFits(s)
    ensures ScratchFits(Step(s, msg, o).store)
  {
    if msg.remoteJid.Some? && TextOf(msg).Some? && msg.remoteJid.value != "" && TextOf(msg).value != "" {
      HandleKeepsScratchFit(s, msg.remoteJid.value, TextOf(msg).value, o);
    }
  }

  /** So does any sequence of turns, from the empty store or any fitting one. */
  lemma {:induction false} RunKeepsScratchFit(s: Store, script: seq<(Message, Outcomes)>)
    requires ScratchFits(s)
    ensures ScratchFits(Run(s, script).store)
    decreases |script|
  {
    if script != [] {
      StepKeepsScratchFit(s, script[0].0, script[0].1);
      RunKeepsScratchFit(Step(s, script[0].0, script[0].1).store, script[1..]);
    }
  }

  /** One turn, then the turns after it, from the store it left. */
  function Then(first: Turn, rest: Turn): Turn {
    Turn(rest.store, first.replies + rest.replies, first.calls + rest.calls)
  }

  lemma ThenIsAssociative(x: Turn, y: Turn, z: Turn)
    ensures Then(x, Then(y, z)) == Then(Then(x, y), z)
  {
    assert x.replies + (y.replies + z.replies) == (x.replies + y.replies) + z.replies;
    assert x.calls + (y.calls + z.calls) == (x.calls + y.calls) + z.calls;
  }

  lemma RunUnfolds(s: Store, script: seq<(Message, Outcomes)>)
    requires script != []
    ensures var t := Step(s, script[0].0, script[0].1);
      Run(s, script) == Then(t, Run(t.store, script[1..]))
  {
  }

  /** A batch split in two runs as its first part, then its second from the
      store the first part left; replies and calls keep batch order. */
  lemma {:induction false} RunAppend(s: Store, a: seq<(Message, Outcomes)>, b: seq<(Message, Outcomes)>)
    ensures Run(s, a + b) == Then(Run(s, a), Run(Run(s, a).store, b))
    decreases |a|
  {
    if a == [] {
      assert a + b == b;
    } else {
      var ab := a + b;
      assert ab[0] == a[0] && ab[1..] == a[1..] + b;
      var t := Step(s, a[0].0, a[0].1);
      var first := Run(t.store, a[1..]);
      RunUnfolds(s, a);
      RunUnfolds(s, ab);
      RunAppend(t.store, a[1..], b);
      ThenIsAssociative(t, first, Run(first.store, b));
    }
  }

  /** A greeting is never a mailbox, so the greeting test cannot hide an
      email. */
  lemma GreetingIsNoMailbox(text: string)
    ensures IsGreeting(text) ==> !EmailSyntax.Matches(text)
  {
    EmailSyntax.MatchesIffShape(text);
  }

  /** In a reachable store a valid email books the held slot: the event is
      titled after the name, spans the stored hour, carries the email, the
      phone part of the address and the name; `calculateDuration` of the
      held slot gives "1 hora"; both entries go whatever the calendar says. */
  lemma BookingUsesHeldSlot(s: Store, jid: string, text: string, o: Outcomes)
    requires ScratchFits(s) && jid != "" && StateOf(s, jid) == Some(AwaitingEmail)
    requires EmailSyntax.Matches(text)
    ensures var d := s.tempData[jid];
      && d.start.Some? && d.name.Some?
      && Step(s, Say(jid, text), o).calls ==
           [CreateEvent("Cita: " + d.name.value, d.start, Some(d.start.value + SlotMs), text,
                        JidAddress.PhoneOf(jid), d.name)]
      && Duration.CalculateDuration(d.start.value, d.start.value + SlotMs) == "1 hora"
    ensures jid !in Step(s, Say(jid, text), o).store.userState
    ensures jid !in Step(s, Say(jid, text), o).store.tempData
    ensures Step(s, Say(jid, text), o).replies ==
      if o.creation == Created
      then [Booked(s.tempData[jid].start.value, s.tempData[jid].name.value, text, JidAddress.PhoneOf(jid))]
      else [BookingFailed]
  {
    assert HoldsSlot(s, jid) && s.tempData[jid].name.Some?;
    EmailTurn(s, jid, text, o);
    HeldSlotBooking(s, jid, text, o.creation);
    Duration.OneHourEvent(s.tempData[jid].start.value);
  }

  /** `BookingUsesHeldSlot` for the email handler itself. */
  lemma HeldSlotBooking(s: Store, jid: string, text: string, creation: Creation)
    requires HoldsSlot(s, jid) && s.tempData[jid].name.Some? && EmailSyntax.Matches(text)
    ensures var d := s.tempData[jid];
      TakeEmail(s, jid, text, creation).calls ==
        [CreateEvent("Cita: " + d.name.value, d.start, Some(d.start.value + SlotMs), text, JidAddress.PhoneOf(jid), d.name)]
    ensures TakeEmail(s, jid, text, creation).replies ==
      if creation == Created
      then [Booked(s.tempData[jid].start.value, s.tempData[jid].name.value, text, JidAddress.PhoneOf(jid))]
      else [BookingFailed]
  {
  }

  /** The dispatch: exactly the greetings go to the menu, every waiting state
      takes any other text as its answer, and only two cases are silent: no
      state at all, and "3" in the menu. */
  lemma RouteChoice(state: Option<State>, text: string)
    ensures RouteOf(state, text) == ToGreeting <==> IsGreeting(text)
    ensures !IsGreeting(text) && state == Some(AwaitingOrderNumber) ==> RouteOf(state, text) == ToOrderLookup
    ensures !IsGreeting(text) && state == Some(AwaitingDate) ==> RouteOf(state, text) == ToDate
    ensures !IsGreeting(text) && state == Some(AwaitingName) ==> RouteOf(state, text) == ToName
    ensures !IsGreeting(text) && state == Some(AwaitingEmail) ==> RouteOf(state, text) == ToEmail
    ensures RouteOf(state, text) == ToNowhere <==>
      !IsGreeting(text) && (state == None || (state == Some(MainMenu) && text == "3"))
    ensures !IsGreeting(text) && text !in {"1", "2", "3"} ==> RouteOf(Some(MainMenu), text) == ToModel
    ensures RouteOf(Some(MainMenu), "1") == ToOrderStart
    ensures RouteOf(Some(MainMenu), "2") == ToScheduling
  {
    assert !IsGreeting("1") && !IsGreeting("2");
    if RouteOf(state, text) == ToNowhere && state.Some? {
      assert state.value.MainMenu?;
      assert text in {"1", "2", "3"} && text != "1" && text != "2";
    }
  }

  /** While a name is awaited, every non-greeting text is taken as the name. */
  lemma NameTurn(s: Store, jid: string, text: string, o: Outcomes)
    requires jid != "" && text != "" && StateOf(s, jid) == Some(AwaitingName) && !IsGreeting(text)
    ensures Step(s, Say(jid, text), o) == TakeName(s, jid, text)
  {
  }

  /** While an email is awaited, a non-greeting text that fails the mailbox
      test gets the one "invalid email" reply and changes nothing. */
  lemma InvalidEmailTurn(s: Store, jid: string, text: string, o: Outcomes)
    requires jid != "" && text != "" && StateOf(s, jid) == Some(AwaitingEmail) && !IsGreeting(text)
    requires !EmailSyntax.Matches(text)
    ensures Step(s, Say(jid, text), o) == Turn(s, [InvalidEmail], [])
  {
  }

  /** While an email is awaited, a text that passes the mailbox test is
      taken as the email (it cannot be a greeting). */
  lemma EmailTurn(s: Store, jid: string, text: string, o: Outcomes)
    requires jid != "" && StateOf(s, jid) == Some(AwaitingEmail) && EmailSyntax.Matches(text)
    ensures Step(s, Say(jid, text), o) == TakeEmail(s, jid, text, o.creation)
  {
    GreetingIsNoMailbox(text);
    assert RouteOf(StateOf(s, jid), text) == ToEmail;
  }

  /** Outcomes where every outside call answers the happy way; `start` is the
      instant the parser finds and `creation` the calendar's answer. */
  function Smooth(start: int, creation: Creation): Outcomes {
    Outcomes([start], Answered(true), LookupItems([]), creation, Completed(None))
  }

  /** A whole booking from the menu: option 2, a date whose slot is free, a
      name, an email. The event gets the parsed start, an end an hour later,
      the name, the email and the phone part of the address, and the
      counterpart is left with no entries at all. */
  lemma BookingConversation(jid: string, date: string, name: string, email: string, start: int)
    requires jid != "" && date != "" && name != ""
    requires !IsGreeting(date) && !IsGreeting(name) && EmailSyntax.Matches(email)
    ensures var o := Smooth(start, Created);
      Run(Store(map[jid := MainMenu], map[]), [(Say(jid, "2"), o), (Say(jid, date), o), (Say(jid, name), o), (Say(jid, email), o)])
      == Turn(EmptyStore,
              [AskDate, SlotFree(start), AskEmail, Booked(start, name, email, JidAddress.PhoneOf(jid))],
              [ParseDate(date), CheckSlot(start, start + SlotMs),
               CreateEvent("Cita: " + name, Some(start), Some(start + SlotMs), email, JidAddress.PhoneOf(jid), Some(name))])
  {
    var o := Smooth(start, Created);
    var s1 := Store(map[jid := MainMenu], map[]);
    var s2 := Store(map[jid := AwaitingDate], map[]);
    var script := [(Say(jid, "2"), o), (Say(jid, date), o), (Say(jid, name), o), (Say(jid, email), o)];
    var tail := BookingTail(jid, date, name, email, start);
    BookingFirstTurn(jid, o);
    assert script[1..] == [(Say(jid, date), o), (Say(jid, name), o), (Say(jid, email), o)];
    var all := RunFirst(s1, script, Turn(s2, [AskDate], []), tail);
  }

  /** The last three turns of `BookingConversation`, from the date on. */
  lemma BookingTail(jid: string, date: string, name: string, email: string, start: int) returns (tail: Turn)
    requires jid != "" && date != "" && name != ""
    requires !IsGreeting(date) && !IsGreeting(name) && EmailSyntax.Matches(email)
    ensures var o := Smooth(start, Created);
      Run(Store(map[jid := AwaitingDate], map[]), [(Say(jid, date), o), (Say(jid, name), o), (Say(jid, email), o)]) == tail
    ensures tail == Turn(EmptyStore, [SlotFree(start), AskEmail, Booked(start, name, email, JidAddress.PhoneOf(jid))],
                         [ParseDate(date), CheckSlot(start, start + SlotMs),
                          CreateEvent("Cita: " + name, Some(start), Some(start + SlotMs), email, JidAddress.PhoneOf(jid), Some(name))])
  {
    var o := Smooth(start, Created);
    var phone := JidAddress.PhoneOf(jid);
    var slot := Scratch(Some(start), Some(start + SlotMs), None);
    var s2 := Store(map[jid := AwaitingDate], map[]);
    var s3 := Store(map[jid := AwaitingName], map[jid := slot]);
    var s4 := Store(map[jid := AwaitingEmail], map[jid := slot.(name := Some(name))]);
    var t3 := Turn(s3, [SlotFree(start)], [ParseDate(date), CheckSlot(start, start + SlotMs)]);
    var t4 := Turn(s4, [AskEmail], []);
    var t5 := Turn(EmptyStore, [Booked(start, name, email, phone)],
                   [CreateEvent("Cita: " + name, Some(start), Some(start + SlotMs), email, phone, Some(name))]);
    BookingDateTurn(jid, date, start);
    BookingNameTurn(jid, name, start);
    BookingEmailTurn(jid, name, email, start);
    var script := [(Say(jid, date), o), (Say(jid, name), o), (Say(jid, email), o)];
    assert script[1..][1..] == [(Say(jid, email), o)];
    assert script[1..][1..][1..] == [];
    var r5 := RunFirst(s4, script[1..][1..], t5, Silent(EmptyStore));
    var r4 := RunFirst(s3, script[1..], t4, r5);
    tail := RunFirst(s2, script, t3, r4);
  }

  /** Running a script is running its first turn, then the rest: the first
      turn's replies and calls come first. Returns the combined turn. */
  lemma RunFirst(s: Store, script: seq<(Message, Outcomes)>, first: Turn, tail: Turn) returns (all: Turn)
    requires |script| > 0
    requires Step(s, script[0].0, script[0].1) == first && Run(first.store, script[1..]) == tail
    ensures all == Turn(tail.store, first.replies + tail.replies, first.calls + tail.calls)
    ensures Run(s, script) == all
  {
    all := Turn(tail.store, first.replies + tail.replies, first.calls + tail.calls);
  }

  lemma BookingFirstTurn(jid: string, o: Outcomes)
    requires jid != ""
    ensures Step(Store(map[jid := MainMenu], map[]), Say(jid, "2"), o) == Turn(Store(map[jid := AwaitingDate], map[]), [AskDate], [])
  {
    assert !IsGreeting("2");
  }

  lemma BookingDateTurn(jid: string, date: string, start: int)
    requires jid != "" && date != "" && !IsGreeting(date)
    ensures Step(Store(map[jid := AwaitingDate], map[]), Say(jid, date), Smooth(start, Created))
      == Turn(Store(map[jid := AwaitingName], map[jid := Scratch(Some(start), Some(start + SlotMs), None)]),
              [SlotFree(start)], [ParseDate(date), CheckSlot(start, start + SlotMs)])
  {
    var s2 := Store(map[jid := AwaitingDate], map[]);
    assert Step(s2, Say(jid, date), Smooth(start, Created)) == ChooseDate(s2, jid, date, [start], Answered(true));
  }

  lemma BookingNameTurn(jid: string, name: string, start: int)
    requires jid != "" && name != "" && !IsGreeting(name)
    ensures var slot := Scratch(Some(start), Some(start + SlotMs), None);
      Step(Store(map[jid := AwaitingName], map[jid := slot]), Say(jid, name), Smooth(start, Created))
      == Turn(Store(map[jid := AwaitingEmail], map[jid := slot.(name := Some(name))]), [AskEmail], [])
  {
    var slot := Scratch(Some(start), Some(start + SlotMs), None);
    var s3 := Store(map[jid := AwaitingName], map[jid := slot]);
    assert RouteOf(Some(AwaitingName), name) == ToName;
    assert Step(s3, Say(jid, name), Smooth(start, Created)) == TakeName(s3, jid, name);
  }

  lemma BookingEmailTurn(jid: string, name: string, email: string, start: int)
    requires jid != "" && EmailSyntax.Matches(email)
    ensures var s4 := Store(map[jid := AwaitingEmail], map[jid := Scratch(Some(start), Some(start + SlotMs), Some(name))]);
      Step(s4, Say(jid, email), Smooth(start, Created))
      == Turn(EmptyStore, [Booked(start, name, email, JidAddress.PhoneOf(jid))],
              [CreateEvent("Cita: " + name, Some(start), Some(start + SlotMs), email, JidAddress.PhoneOf(jid), Some(name))])
  {
    var s4 := Store(map[jid := AwaitingEmail], map[jid := Scratch(Some(start), Some(start + SlotMs), Some(name))]);
    EmailTurn(s4, jid, email, Smooth(start, Created));
    assert s4.userState - {jid} == map[];
    assert s4.tempData - {jid} == map[];
  }
}
