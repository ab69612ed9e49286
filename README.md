# Chat widget: response simulator and conversation state

A Dafny model of the logic inside the single React component `App` of a chat
widget (`src/App.jsx`). Two parts of it are modelled:

- **Response simulator** (`responder.dfy`, module `Responder`):
  `simulateBotResponse` lower-cases the user's text and picks a table. It
  uses the greetings when the text contains `"hello"` or `"hi"`, the
  small-talk table when it contains `"how are you"`, and the default table
  otherwise. `randomResponse` then picks an entry. The random pick is an index
  parameter `r < |table|`. The `"hi"` test is a plain substring test, so
  `"This"` or `"which"` are answered as greetings. The model keeps that
  behaviour (`Responder.ThisIsAGreeting`).
- **Conversation state** (`chat.dfy`, module `Chat`): the message list, the
  draft `input`, and the flags `isLoading`, `isTyping` and `isDarkMode`.
  The operations on it are `sendMessage` and its guard, the submit button's
  disabled condition, `toggleDarkMode`, `fetchMessages` and the input's change
  handler. `sendMessage` is async and stops at three `await`s: the POST of the
  user message, the 1500 ms timer, and the POST of the bot message. Each
  resumption is a transition function on a `State` value. A `Phase` field
  records where a send is waiting and what its closure holds. That includes
  the submitted text, from which the reply is built. The class
  `Chat.ChatApp` holds the same fields as mutable state. Each of its methods
  ensures that the new `Snapshot()` equals the transition function applied to
  the old one, and that the invariant `Consistent` still holds.
  `SendMessage(ok1, ok2, r, sentAt, repliedAt)` runs one whole send with no
  other event in between. The lemmas give its exact post-state for each
  outcome: ignored, delivered, first POST failed, second POST failed.
- `strings.dfy` (module `Strings`) models the three JavaScript string
  operations the widget uses: `toLowerCase`, `includes`, and `trim` with the
  ECMAScript whitespace set.

The two network requests are replaced by success/failure parameters, the
clock (`new Date()`) by opaque `Instant` parameters, and `Math.random` by the
index `r`. The user's colour-scheme preference (`matchMedia`) is a
constructor parameter.

Notes on the code's behaviour:

- History loading marks every loaded message as a bot message, whatever the
  server sent (`src/App.jsx:24-28`).
- A failed history load leaves the list as it was (`src/App.jsx:30-32`), so
  the list starts empty only when the load runs at mount.
- The typing indicator is hidden before the bot message is POSTed. The bot
  message is appended to the list only after a successful POST.

Some transition functions carry no contract of their own; their lemmas state
what they mean:

- `Chat.Submit` (`src/App.jsx:67-75`) is characterised by `SendIgnoredIffDisabled`, `OneSendInFlight` and `SubmitConsistent`.
- `Chat.UserPostSettled` (`src/App.jsx:78-102`) is characterised by `SendUserPostFails`, `SendBotPostFails` and `UserPostSettledConsistent`.
- `Chat.DelayElapsed` (`src/App.jsx:84-91`) is characterised by `SendBotPostFails`, `SendDelivers` and `DelayElapsedConsistent`.
- `Chat.BotPostSettled` (`src/App.jsx:94-102`) is characterised by `SendDelivers`, `SendBotPostFails` and `BotPostSettledConsistent`.
- `Chat.LoadHistory` (`src/App.jsx:20-33`) is characterised by `FromServer`'s contract and `LoadHistoryConsistent`.
- `Chat.SendRoundTrip` (`src/App.jsx:65-105`) is characterised by `SendDelivers`, `SendUserPostFails`, `SendBotPostFails`, `SendIgnoredIffDisabled` and `SendGreetingGreets`.
- `Chat.Edit` (`src/App.jsx:348`) is characterised by `OneSendInFlight`.
- `Strings.Includes` (`src/App.jsx:124-126`) is characterised by `IncludesIffOccurs` and `AbsentPairExcludes`.
- `Strings.Trim` (`src/App.jsx:67`) is characterised by the contracts of `TrimStart` and `TrimEnd` and by `TrimEmptyIffBlank`.

## Model

| member | source | states |
|---|---|---|
| `Strings.Lower` | src/App.jsx:122 | `toLowerCase` keeps the length and lowers each character in place |
| `Strings.LowerIdempotent` | src/App.jsx:122 | lowering twice is the same as lowering once |
| `Strings.IncludesIffOccurs` | src/App.jsx:124-126 | `s.includes(t)` holds exactly when some window `s[i..i+|t|]` equals `t` |
| `Strings.AbsentPairExcludes` | src/App.jsx:124-126 | a text in which the first two letters of a keyword never stand side by side does not include that keyword |
| `Strings.TrimStart` | src/App.jsx:67 | the result is a suffix, everything dropped is whitespace, the result is empty or starts with a non-space |
| `Strings.TrimEnd` | src/App.jsx:67 | the result is a prefix, everything dropped is whitespace, the result is empty or ends with a non-space |
| `Strings.TrimEmptyIffBlank` | src/App.jsx:67 | `input.trim()` is the empty (falsy) string exactly when every character is whitespace |
| `Responder.Table` | src/App.jsx:108-120 | each of the three response tables holds three replies |
| `Responder.Classify` | src/App.jsx:122-130 | greetings exactly when the lowered text contains "hello" or "hi"; small talk exactly when it contains neither but contains "how are you"; default exactly when it contains none of them |
| `Responder.RandomResponse` | src/App.jsx:133-136 | with an index in `[0, |a|)` the reply is an element of `a` |
| `Responder.SimulateBotResponse` | src/App.jsx:107-131 | a text with "hello"/"hi" gets a greeting; otherwise one with "how are you" gets small talk; otherwise a default reply |
| `Responder.CannedRepliesDistinct` | src/App.jsx:108-120 | the nine canned replies are pairwise distinct |
| `Responder.ReplyIdentifiesCategory` | src/App.jsx:107-135 | every reply is one of the nine canned strings, and it lies in table `c` exactly when the text is classified as `c` |
| `Responder.EveryEntryReachable` | src/App.jsx:133-135 | a string is in the chosen table exactly when some index `r < 3` yields it, and index `r` yields exactly the table's `r`-th entry |
| `Responder.ClassifyIgnoresCase` | src/App.jsx:122 | a text and its lower-cased form are answered from the same table |
| `Responder.HiIsAGreeting` | src/App.jsx:124-125 | "Hi" is answered from the greetings |
| `Responder.ThisIsAGreeting` | src/App.jsx:124-125 | "This", containing "hi" only inside a word, is answered as a greeting |
| `Responder.SmallTalkPhraseOnly` | src/App.jsx:124-127 | "how are you?" contains the small-talk phrase and neither greeting keyword |
| `Responder.HowAreYouIsSmallTalk` | src/App.jsx:126-127 | "How are you?" on its own reaches the small-talk table |
| `Chat.SubmitDisabled` | src/App.jsx:361 | the button is disabled exactly when loading or the draft is all whitespace, which is exactly when the send guard at line 67 fails |
| `Chat.Mounted` | src/App.jsx:11-41 | the initial state is empty, not loading, not typing, consistent, and dark exactly when the user prefers a dark scheme |
| `Chat.ToggleTheme` | src/App.jsx:138-140 | the theme flag flips and no other field changes |
| `Chat.FromServer` | src/App.jsx:23-28 | the loaded history has the fetched count and order, keeps each text and time, and marks every message as a bot message |
| `Chat.SendIgnoredIffDisabled` | src/App.jsx:67 | a send (and its synchronous start) leaves the state unchanged exactly when the submit button is disabled: blank draft or already loading |
| `Chat.SendDelivers` | src/App.jsx:65-105 | a fully successful send appends the user message and then the bot reply to the submitted text, clears the draft, ends with loading and typing off, and changes nothing else |
| `Chat.SendUserPostFails` | src/App.jsx:72-103 | if the first POST fails, only the user message is appended, the draft is cleared, typing is never shown (neither after the start nor after the failed POST), loading is off again, nothing else changes |
| `Chat.SendBotPostFails` | src/App.jsx:81-103 | if the second POST fails, only the user message is appended, typing is shown after the first POST and hidden when the delay ends, loading is off again, nothing else changes |
| `Chat.OneSendInFlight` | src/App.jsx:67 | while a send is in flight a new submit is refused even after a non-blank draft is typed, and the captured text is untouched |
| `Chat.ToggleTwiceRestores` | src/App.jsx:138-140 | toggling twice restores the state; toggling never touches the messages |
| `Chat.SendGreetingGreets` | src/App.jsx:74-97 | a successful send of a text mentioning a greeting ends with that user message followed by a bot reply from the greetings |
| `Chat.SubmitConsistent` | src/App.jsx:67-75 | the start of a send keeps the invariant: loading while in flight, captured draft non-blank, user messages non-blank |
| `Chat.UserPostSettledConsistent` | src/App.jsx:78-102 | settling the first POST keeps the invariant: typing on only while waiting for the timer, loading off when the send ends |
| `Chat.DelayElapsedConsistent` | src/App.jsx:84-91 | the end of the delay keeps the invariant: typing off, the pending reply a canned bot message |
| `Chat.BotPostSettledConsistent` | src/App.jsx:94-102 | settling the second POST keeps the invariant; loading is off |
| `Chat.LoadHistoryConsistent` | src/App.jsx:20-33 | loading the history keeps the invariant, because every loaded message is a bot message |
| `Chat.ChatApp.constructor` | src/App.jsx:11-41 | the object starts in the mounted state |
| `Chat.ChatApp.SubmitIsDisabled` | src/App.jsx:361 | disabled exactly when loading or the draft is all whitespace |
| `Chat.ChatApp.SetInput` | src/App.jsx:348 | the draft becomes the typed text; nothing else changes |
| `Chat.ChatApp.ToggleDarkMode` | src/App.jsx:138-140 | the new state is the old one with the theme flipped |
| `Chat.ChatApp.FetchMessages` | src/App.jsx:20-33 | on success the list becomes the mapped history; on failure nothing changes |
| `Chat.ChatApp.StartSend` | src/App.jsx:67-75 | reports whether the guard held; if so loading is on, the user message is appended and the draft cleared |
| `Chat.ChatApp.OnUserPost` | src/App.jsx:78-102 | on success typing is shown; on failure the alert is reported and loading cleared |
| `Chat.ChatApp.OnDelayElapsed` | src/App.jsx:84-91 | typing is hidden and the bot reply to the submitted text is built |
| `Chat.ChatApp.OnBotPost` | src/App.jsx:94-102 | on success the bot reply is appended; on failure the alert is reported; loading is cleared in both cases |
| `Chat.ChatApp.SendMessage` | src/App.jsx:65-105 | one whole send: the new state is `SendRoundTrip` of the old one and the outcome says which of the four cases happened |

## Left out

- The HTTP requests (the GET and the two POSTs to the message store) are network I/O. Each one's result is a success/failure parameter, and the GET's result is a sequence of messages. A response that `map` cannot be applied to counts as a failed load.
- The 1500 ms `setTimeout` and the event loop are timer concurrency. The timer's expiry is the `DelayElapsed` transition, and any other transition may happen in between. React's batching of state updates and the render that follows them are not modelled. The send guard reads the latest state.
- If the widget unmounts during the delay, the timer is not cleaned up. The model has no unmount.
- `Math.random` / `Math.floor` are floating point. The model replaces them with an index `r` below the table's length.
- `new Date()` and the `HH:mm` formatting are clock and library calls. Timestamps are opaque integers.
- The effects that add or remove the document's `dark` class, `scrollIntoView`, the react-spring animations (including their endless loops) and all JSX rendering are DOM and presentation. Only the `isDarkMode` flag they read is modelled.
- `console.error` logging and the text of the alert are not modelled. That an alert is shown is modelled as the `Outcome` and the methods' `alerted` result.
- Fields of a fetched message other than `text` and `timestamp` are not modelled. The source copies them with the object spread.
- Strings.Lower: models only the ASCII letters of `toLowerCase`, because the model has no Unicode case tables. Other characters are left unchanged. A text such as "H" followed by U+0130 is therefore a greeting in the source but not in the model.
