/** The conversation state of the chat widget: the message list, the draft
    input, the theme flag and the loading / typing flags, and the transitions
    `sendMessage`, `toggleDarkMode`, `fetchMessages` and the input's change
    handler make on them.

    `sendMessage` is an async function with three suspension points (the two
    POSTs and the 1500 ms timer). Each resumption is one transition here, and
    `Phase` records where a send is suspended together with the values its
    closure holds. The network replies are success/failure parameters, the
    timer is the `DelayElapsed` transition, `Math.random` is an index `r`, and
    `new Date()` is an opaque `Instant` parameter. */
module Chat {
  import opened Strings
  import opened Responder

  /** A point in time, kept opaque (the source stores a `Date`). */
  type Instant = int

  datatype Message = Message(text: string, isBot: bool, timestamp: Instant)

  /** Where an in-flight send is suspended. `submitted` is the draft text the
      send captured when it started; the bot reply is computed from it, not
      from the (already cleared) input field. */
  datatype Phase =
    | Idle
    | PostingUser(submitted: string)   // awaiting the POST of the user message
    | Typing(submitted: string)        // awaiting the simulated thinking delay
    | PostingBot(reply: Message)       // awaiting the POST of the bot message

  datatype State = State(
    messages: seq<Message>,
    input: string,
    isDarkMode: bool,
    isLoading: bool,
    isTyping: bool,
    phase: Phase)

  /** How one complete send ended; the two failures show the alert. */
  datatype Outcome = Ignored | Delivered | UserPostFailed | BotPostFailed

  /** The guard of `sendMessage`: `input.trim() && !isLoading`. */
  predicate CanSend(input: string, isLoading: bool)
  {
    Trim(input) != "" && !isLoading
  }

  /** The submit button's `disabled` attribute: `isLoading || !input.trim()`. */
  function SubmitDisabled(input: string, isLoading: bool): (disabled: bool)
    ensures disabled <==> isLoading || AllWhitespace(input)
    ensures disabled <==> !CanSend(input, isLoading)
  {
    TrimEmptyIffBlank(input);
    isLoading || Trim(input) == ""
  }

  /** What the widget keeps true between events: loading exactly while a send
      is in flight, typing exactly during the thinking delay, a captured draft
      is never blank, a pending reply is a canned bot message, and every user
      message in the list has non-blank text. */
  ghost predicate Consistent(s: State)
  {
    (s.isLoading <==> !s.phase.Idle?) &&
    (s.isTyping <==> s.phase.Typing?) &&
    ((s.phase.PostingUser? || s.phase.Typing?) ==> !AllWhitespace(s.phase.submitted)) &&
    (s.phase.PostingBot? ==> s.phase.reply.isBot && s.phase.reply.text in AllResponses()) &&
    (forall i :: 0 <= i < |s.messages| && !s.messages[i].isBot ==> !AllWhitespace(s.messages[i].text))
  }

  /** The state after mounting: the `useState` initial values, with the dark
      theme switched on when the user's colour-scheme preference asks for it. */
  function Mounted(prefersDark: bool): (s: State)
    ensures Consistent(s)
    ensures s.messages == [] && s.input == "" && !s.isLoading && !s.isTyping
    ensures s.isDarkMode == prefersDark
  {
    State([], "", prefersDark, false, false, Idle)
  }

  // ---------------------------------------------------------------------
  // Transitions

  /** The synchronous start of `sendMessage`: when the guard holds, raise
      loading, append the user message, clear the draft and await the POST. */
  function Submit(s: State, now: Instant): State
  {
    if CanSend(s.input, s.isLoading) then
      s.(isLoading := true,
         messages := s.messages + [Message(s.input, false, now)],
         input := "",
         phase := PostingUser(s.input))
    else s
  }

  /** The first POST settles: on success show the typing indicator and wait;
      on failure the `finally` clears loading and the send ends. */
  function UserPostSettled(s: State, ok: bool): State
    requires s.phase.PostingUser?
  {
    if ok then s.(isTyping := true, phase := Typing(s.phase.submitted))
    else s.(isLoading := false, phase := Idle)
  }

  /** The delay ends: hide the typing indicator and build the bot reply from
      the submitted text with drawn index r. */
  function DelayElapsed(s: State, r: nat, now: Instant): State
    requires s.phase.Typing?
    requires r < |Table(Classify(s.phase.submitted))|
  {
    s.(isTyping := false,
       phase := PostingBot(Message(SimulateBotResponse(s.phase.submitted, r), true, now)))
  }

  /** The second POST settles: on success append the bot reply; either way
      the `finally` clears loading. */
  function BotPostSettled(s: State, ok: bool): State
    requires s.phase.PostingBot?
  {
    if ok then s.(messages := s.messages + [s.phase.reply], isLoading := false, phase := Idle)
    else s.(isLoading := false, phase := Idle)
  }

  /** The input's change handler. */
  function Edit(s: State, text: string): State
  {
    s.(input := text)
  }

  /** `toggleDarkMode`. */
  function ToggleTheme(s: State): (t: State)
    ensures t.isDarkMode != s.isDarkMode
    ensures t.(isDarkMode := s.isDarkMode) == s
  {
    s.(isDarkMode := !s.isDarkMode)
  }

  /** The mapping `fetchMessages` applies to the server's list: every message
      keeps its text and time and is marked as a bot message. */
  function FromServer(data: seq<Message>): (loaded: seq<Message>)
    ensures |loaded| == |data|
    ensures forall i :: 0 <= i < |data| ==>
      loaded[i].isBot && loaded[i].text == data[i].text && loaded[i].timestamp == data[i].timestamp
  {
    if data == [] then []
    else [Message(data[0].text, true, data[0].timestamp)] + FromServer(data[1..])
  }

  /** `fetchMessages`: on success replace the list with the mapped history;
      on failure (logged only) leave the state as it was. */
  function LoadHistory(s: State, ok: bool, data: seq<Message>): State
  {
    if ok then s.(messages := FromServer(data)) else s
  }

  /** One whole `sendMessage` call, with no other event in between. */
  function SendRoundTrip(s: State, ok1: bool, ok2: bool, r: nat, sentAt: Instant, repliedAt: Instant): State
    requires r < |Table(Classify(s.input))|
  {
    if !CanSend(s.input, s.isLoading) then s
    else
      var posted := UserPostSettled(Submit(s, sentAt), ok1);
      if !ok1 then posted
      else BotPostSettled(DelayElapsed(posted, r, repliedAt), ok2)
  }

  function SendOutcome(s: State, ok1: bool, ok2: bool): Outcome
  {
    if !CanSend(s.input, s.isLoading) then Ignored
    else if !ok1 then UserPostFailed
    else if !ok2 then BotPostFailed
    else Delivered
  }

  // ---------------------------------------------------------------------
  // Properties of the transitions

  /** A send is a no-op exactly when the draft is blank or a send is already
      loading, which is exactly when the submit button is disabled. */
  lemma SendIgnoredIffDisabled(s: State, ok1: bool, ok2: bool, r: nat, sentAt: Instant, repliedAt: Instant)
    requires r < |Table(Classify(s.input))|
    ensures SendRoundTrip(s, ok1, ok2, r, sentAt, repliedAt) == s <==> SubmitDisabled(s.input, s.isLoading)
    ensures Submit(s, sentAt) == s <==> SubmitDisabled(s.input, s.isLoading)
  {
    if CanSend(s.input, s.isLoading) {
      var t := SendRoundTrip(s, ok1, ok2, r, sentAt, repliedAt);
      assert |t.messages| > |s.messages|;
      assert |Submit(s, sentAt).messages| > |s.messages|;
    }
  }

  /** A fully successful send appends the user message and then the bot
      reply to the submitted text, clears the draft and ends with loading and
      typing off; nothing else changes. */
  lemma SendDelivers(s: State, r: nat, sentAt: Instant, repliedAt: Instant)
    requires Consistent(s)
    requires !s.isLoading && !AllWhitespace(s.input)
    requires r < 3
    ensures var t := SendRoundTrip(s, true, true, r, sentAt, repliedAt);
      t == s.(messages := s.messages + [Message(s.input, false, sentAt),
                                        Message(SimulateBotResponse(s.input, r), true, repliedAt)],
              input := "") &&
      !t.isLoading && !t.isTyping
    ensures SendOutcome(s, true, true) == Delivered
  {
    assert CanSend(s.input, s.isLoading) by { TrimEmptyIffBlank(s.input); }
    var user := Message(s.input, false, sentAt);
    var bot := Message(SimulateBotResponse(s.input, r), true, repliedAt);
    var posting := Submit(s, sentAt);
    assert posting == State(s.messages + [user], "", s.isDarkMode, true, s.isTyping, PostingUser(s.input));
    var waiting := UserPostSettled(posting, true);
    assert waiting == State(s.messages + [user], "", s.isDarkMode, true, true, Typing(s.input));
    var replying := DelayElapsed(waiting, r, repliedAt);
    assert replying == State(s.messages + [user], "", s.isDarkMode, true, false, PostingBot(bot));
    var done := BotPostSettled(replying, true);
    assert done == State(s.messages + [user] + [bot], "", s.isDarkMode, false, false, Idle);
    assert s.messages + [user] + [bot] == s.messages + [user, bot];
  }

  /** When the first POST fails the user message stays, no reply is added,
      typing was never shown and loading is cleared again. */
  lemma SendUserPostFails(s: State, ok2: bool, r: nat, sentAt: Instant, repliedAt: Instant)
    requires Consistent(s)
    requires !s.isLoading && !AllWhitespace(s.input)
    requires r < 3
    ensures var t := SendRoundTrip(s, false, ok2, r, sentAt, repliedAt);
      t == s.(messages := s.messages + [Message(s.input, false, sentAt)], input := "") &&
      !t.isLoading && !t.isTyping
    ensures !Submit(s, sentAt).isTyping && !UserPostSettled(Submit(s, sentAt), false).isTyping
    ensures SendOutcome(s, false, ok2) == UserPostFailed
  {
    assert CanSend(s.input, s.isLoading) by { TrimEmptyIffBlank(s.input); }
  }

  /** When the second POST fails the user message stays, the reply is
      dropped, typing has already been hidden and loading is cleared. */
  lemma SendBotPostFails(s: State, r: nat, sentAt: Instant, repliedAt: Instant)
    requires Consistent(s)
    requires !s.isLoading && !AllWhitespace(s.input)
    requires r < 3
    ensures var t := SendRoundTrip(s, true, false, r, sentAt, repliedAt);
      t == s.(messages := s.messages + [Message(s.input, false, sentAt)], input := "") &&
      !t.isLoading && !t.isTyping
    ensures UserPostSettled(Submit(s, sentAt), true).isTyping
    ensures !DelayElapsed(UserPostSettled(Submit(s, sentAt), true), r, repliedAt).isTyping
    ensures SendOutcome(s, true, false) == BotPostFailed
  {
    assert CanSend(s.input, s.isLoading) by { TrimEmptyIffBlank(s.input); }
  }

  /** While a send is in flight a second one is refused, even after the user
      has typed a new, non-blank draft; the captured text is not affected. */
  lemma OneSendInFlight(s: State, text: string, now: Instant)
    requires Consistent(s)
    requires !s.phase.Idle?
    ensures Submit(Edit(s, text), now) == Edit(s, text)
    ensures Edit(s, text).phase == s.phase
  {
  }

  /** Toggling the theme twice restores the state; the messages never change. */
  lemma ToggleTwiceRestores(s: State)
    ensures ToggleTheme(ToggleTheme(s)) == s
    ensures ToggleTheme(s).messages == s.messages
  {
  }

  /** A successful send of a text that mentions a greeting (such as "Hi",
      see `Responder.HiIsAGreeting`) ends with that user message followed by a
      bot reply drawn from the greetings. */
  lemma SendGreetingGreets(s: State, r: nat, sentAt: Instant, repliedAt: Instant)
    requires Consistent(s)
    requires !s.isLoading && !AllWhitespace(s.input) && MentionsGreeting(s.input)
    requires r < 3
    ensures var t := SendRoundTrip(s, true, true, r, sentAt, repliedAt);
      |t.messages| == |s.messages| + 2 &&
      t.messages[|s.messages|] == Message(s.input, false, sentAt) &&
      t.messages[|s.messages| + 1].isBot &&
      t.messages[|s.messages| + 1].text in Greetings
  {
    SendDelivers(s, r, sentAt, repliedAt);
  }

  // Each transition keeps the state consistent.

  lemma SubmitConsistent(s: State, now: Instant)
    requires Consistent(s)
    ensures Consistent(Submit(s, now))
  {
    if CanSend(s.input, s.isLoading) {
      TrimEmptyIffBlank(s.input);
      var t := Submit(s, now);
      assert t.messages == s.messages + [Message(s.input, false, now)];
      forall i | 0 <= i < |t.messages| && !t.messages[i].isBot
        ensures !AllWhitespace(t.messages[i].text)
      {
        if i < |s.messages| {
          assert t.messages[i] == s.messages[i];
        }
      }
    }
  }

  lemma UserPostSettledConsistent(s: State, ok: bool)
    requires Consistent(s) && s.phase.PostingUser?
    ensures Consistent(UserPostSettled(s, ok))
  {
  }

  lemma DelayElapsedConsistent(s: State, r: nat, now: Instant)
    requires Consistent(s) && s.phase.Typing?
    requires r < |Table(Classify(s.phase.submitted))|
    ensures Consistent(DelayElapsed(s, r, now))
  {
    ReplyIdentifiesCategory(s.phase.submitted, r, Greeting);
  }

  lemma BotPostSettledConsistent(s: State, ok: bool)
    requires Consistent(s) && s.phase.PostingBot?
    ensures Consistent(BotPostSettled(s, ok))
  {
    var t := BotPostSettled(s, ok);
    forall i | 0 <= i < |t.messages| && !t.messages[i].isBot
      ensures !AllWhitespace(t.messages[i].text)
    {
      assert i < |s.messages| && t.messages[i] == s.messages[i];
    }
  }

  lemma LoadHistoryConsistent(s: State, ok: bool, data: seq<Message>)
    requires Consistent(s)
    ensures Consistent(LoadHistory(s, ok, data))
  {
  }

  // ---------------------------------------------------------------------
  // The widget object

  class ChatApp {
    var messages: seq<Message>
    var input: string
    var isDarkMode: bool
    var isLoading: bool
    var isTyping: bool
    /** The suspended continuation of an in-flight `sendMessage`. */
    var phase: Phase

    function Snapshot(): State
      reads this
    {
      State(messages, input, isDarkMode, isLoading, isTyping, phase)
    }

    ghost predicate Valid()
      reads this
    {
      Consistent(Snapshot())
    }

    /** Mounting: initial state, then the colour-scheme preference. The
        history fetch started on mount completes later, as `FetchMessages`. */
    constructor (prefersDark: bool)
      ensures Valid()
      ensures Snapshot() == Mounted(prefersDark)
    {
      messages := [];
      input := "";
      isDarkMode := false;
      isLoading := false;
      isTyping := false;
      phase := Idle;
      if prefersDark {
        isDarkMode := true;
      }
    }

    /** The submit button's disabled state. */
    function SubmitIsDisabled(): (disabled: bool)
      reads this
      ensures disabled <==> isLoading || AllWhitespace(input)
    {
      SubmitDisabled(input, isLoading)
    }

    method SetInput(text: string)
      requires Valid()
      modifies this
      ensures Valid()
      ensures Snapshot() == Edit(old(Snapshot()), text)
    {
      input := text;
    }

    method ToggleDarkMode()
      requires Valid()
      modifies this
      ensures Valid()
      ensures Snapshot() == ToggleTheme(old(Snapshot()))
    {
      isDarkMode := !isDarkMode;
    }

    /** The completion of the history GET, with its result. */
    method FetchMessages(ok: bool, data: seq<Message>)
      requires Valid()
      modifies this
      ensures Valid()
      ensures Snapshot() == LoadHistory(old(Snapshot()), ok, data)
    {
      LoadHistoryConsistent(Snapshot(), ok, data);
      if ok {
        messages := FromServer(data);
      }
    }

    /** The synchronous part of `sendMessage`, up to the first `await`. */
    method StartSend(now: Instant) returns (started: bool)
      requires Valid()
      modifies this
      ensures Valid()
      ensures started == CanSend(old(input), old(isLoading))
      ensures Snapshot() == Submit(old(Snapshot()), now)
    {
      SubmitConsistent(Snapshot(), now);
      started := Trim(input) != "" && !isLoading;
      if started {
        isLoading := true;
        var newMessage := Message(input, false, now);
        messages := messages + [newMessage];
        phase := PostingUser(input);
        input := "";
      }
    }

    /** Resumption after the user message's POST; returns whether the alert
        is shown. */
    method OnUserPost(ok: bool) returns (alerted: bool)
      requires Valid() && phase.PostingUser?
      modifies this
      ensures Valid()
      ensures alerted == !ok
      ensures Snapshot() == UserPostSettled(old(Snapshot()), ok)
    {
      UserPostSettledConsistent(Snapshot(), ok);
      alerted := !ok;
      if ok {
        isTyping := true;
        phase := Typing(phase.submitted);
      } else {
        isLoading := false;
        phase := Idle;
      }
    }

    /** Resumption after the thinking delay, with the drawn index r. */
    method OnDelayElapsed(r: nat, now: Instant)
      requires Valid() && phase.Typing?
      requires r < |Table(Classify(phase.submitted))|
      modifies this
      ensures Valid()
      ensures Snapshot() == DelayElapsed(old(Snapshot()), r, now)
    {
      DelayElapsedConsistent(Snapshot(), r, now);
      isTyping := false;
      var botResponse := SimulateBotResponse(phase.submitted, r);
      phase := PostingBot(Message(botResponse, true, now));
    }

    /** Resumption after the bot message's POST; returns whether the alert
        is shown. */
    method OnBotPost(ok: bool) returns (alerted: bool)
      requires Valid() && phase.PostingBot?
      modifies this
      ensures Valid()
      ensures alerted == !ok
      ensures Snapshot() == BotPostSettled(old(Snapshot()), ok)
    {
      BotPostSettledConsistent(Snapshot(), ok);
      alerted := !ok;
      if ok {
        messages := messages + [phase.reply];
      }
      isLoading := false;
      phase := Idle;
    }

    /** One whole `sendMessage` call with the given POST results, drawn index
        and clock readings, and no other event in between. */
    method SendMessage(ok1: bool, ok2: bool, r: nat, sentAt: Instant, repliedAt: Instant)
      returns (outcome: Outcome)
      requires Valid()
      requires r < |Table(Classify(input))|
      modifies this
      ensures Valid()
      ensures outcome == SendOutcome(old(Snapshot()), ok1, ok2)
      ensures Snapshot() == SendRoundTrip(old(Snapshot()), ok1, ok2, r, sentAt, repliedAt)
    {
      var started := StartSend(sentAt);
      if !started {
        return Ignored;
      }
      var failed := OnUserPost(ok1);
      if failed {
        return UserPostFailed;
      }
      OnDelayElapsed(r, repliedAt);
      failed := OnBotPost(ok2);
      outcome := if failed then BotPostFailed else Delivered;
    }
  }
}
