# Chat-turn state machine of the DSA chat client

This project models the state machine inside the `Chat` React component of the DSA tutoring chat
client. The component keeps five pieces of React state: the conversation `messages`, the pending
`input` text, and the `isTyping`, `showSuggestions` and `isListening` flags. It also keeps the
optional signed-in `user`. Its handlers change that state:

- `sendMessage` appends the user's message optimistically, clears the input, switches the typing
  indicator on and calls the inference service. Its success continuation appends the bot's reply,
  switches the indicator off and posts a history record. Its failure path only switches the
  indicator off.
- `handleKeyPress` sends on Enter.
- `handleSuggestionClick` and the suggestion toggle drive the panel of canned prompts.
- `handleMicClick` turns dictation on and off.
- An effect copies every new dictation transcript into the input.

The model has four modules:

- `Text` (text.dfy) models `String.prototype.trim` and proves what the send guard tests: the
  trimmed input is empty exactly when every character is white space.
- `ChatMachine` (chat_machine.dfy) gives the component's state as a value, `ChatState`. It has one
  transition function per handler. Each returns the new state and the outside requests the handler
  made (`Infer` for the inference POST, `Save` for the history POST, `StartListening` or
  `StopListening` for the dictation library).
- `ChatTraces` (chat_traces.dfy) lists every event the component reacts to and runs sequences of
  them. Its lemmas hold for every run:
  - The conversation only grows at its end.
  - The user messages a run adds are exactly the texts it sent for inference, in order.
  - The bot messages it adds are exactly the replies it sent to the history backend, in order.
  - No more replies are saved than sends were made.
  - The typing indicator is on only while a reply is awaited.
  - Every history record pairs the reply with a user message that is on screen.
  - A failed history write can be dropped from any run without changing anything.
- `ChatComponent` (chat_component.dfy) is the component as a class `Chat`. Each field is one piece
  of state. Each handler is a method with `modifies this`. Every method is proved to move the
  object's `State()` exactly as the matching `ChatMachine` function moves the value, and to issue
  the same requests. Every method also keeps `Valid()` (the invariant `Consistent`).

Asynchrony is modelled as events. `sendMessage` suspends at its `await`. While it is suspended, the
runtime holds its closure. That closure has captured the untrimmed input and the `user` of the
render it came from, and its history record reads `user?.id` from that capture (Chat.js:91), not
from the current state. The state field `inFlight` holds, for every such closure, oldest first, a
`Pending` value with the captured text and the captured user id. `ReplyArrived(k, response)` and
`RequestFailed(k)` resume the `k`-th of them. Replies may therefore arrive in any order. The
inference response and the 1000 ms timer that follows it are one event: nothing in the state can
tell them apart.

Three points where the code behaves differently from what a turn-based chat client would do:

- **No in-flight guard.** A client with an in-flight guard would refuse a send while a reply is
  awaited. This code tests only `input.trim()` (Chat.js:65). So a second send is accepted and
  both calls are awaited (`OverlappingSendsScenario`). The first reply to arrive then switches the typing
  indicator off. This is true even though the other send is still awaited
  (`TypingClearedWhileAwaiting`). What does hold is the one-way invariant
  `isTyping ==> |inFlight| > 0`.
- **Transcript overwrites the input.** A client that tied dictation to the mic would let the
  transcript drive the input only while dictation is on. This code's effect (Chat.js:36-38) overwrites the input on every new transcript
  value, whatever `isListening` is (`TranscriptOverwritesInput`).
- **Missing user id.** A client that tagged every record would send a null user tag when nobody
  is signed in. This code sends `user?.id`, which is `undefined`, so the field is left out of the
  JSON body. The model writes this as `userId == None`. Because the id is read from the send's
  capture, a message sent before `/api/me` answers is saved without a user id even when the user
  is known by the time its reply arrives (`EarlierSendsStayUntagged`).

## Model

| member | source | states |
|---|---|---|
| Text.Trim | client/src/components/Chat.js:65 | the trimmed text is empty exactly when every character is white space; otherwise it starts and ends with a non-space character |
| Text.TrimStart | client/src/components/Chat.js:65 | the result is the suffix left after a blank prefix, and it does not start with white space |
| Text.TrimEnd | client/src/components/Chat.js:65 | the result is the prefix left before a blank suffix, and it does not end with white space |
| Text.TrimIsInfix | client/src/components/Chat.js:65 | the trimmed text is a contiguous piece of the input with only white space before and after it |
| Text.TrimIdempotent | client/src/components/Chat.js:65 | trimming twice gives the same text as trimming once |
| ChatMachine.Initial | client/src/components/Chat.js:17-22 | the mount state: no messages, empty input and transcript, every flag off, no user, nothing awaited |
| ChatMachine.UserId | client/src/components/Chat.js:91 | `user?.id`: the record's user id is present exactly when a user is known, and it is that user's id |
| ChatMachine.SendMessage | client/src/components/Chat.js:64-78 | blank input: nothing changes and no request is made; otherwise exactly one user message with the untrimmed input is appended after the old ones, input and transcript are cleared, the indicator is on, the send is awaited with the untrimmed text and the id of the user known now, and one inference call carries the untrimmed text; no guard on `isTyping` |
| ChatMachine.SendGuardIsTrim | client/src/components/Chat.js:65 | the send leaves everything unchanged and calls nobody exactly when `input.trim()` is empty |
| ChatMachine.SendTwiceSendsOnce | client/src/components/Chat.js:65-68 | an accepted send clears the input, so an immediate second send is refused |
| ChatMachine.ReplySucceeded | client/src/components/Chat.js:81-92 | exactly one bot message with the response is appended after the old ones, the indicator is off, that send is no longer awaited, and one record `{userMessage: captured text, botMessage: response, userId: id captured by that send}` is sent; input, transcript, user and the panel and mic flags are untouched |
| ChatMachine.ReplyFailed | client/src/components/Chat.js:97-100 | no message is appended (the user's message stays), nothing is sent, the indicator is off and that send is no longer awaited |
| ChatMachine.HandleKeyPress | client/src/components/Chat.js:104-108 | Enter behaves exactly as `sendMessage`; any other key changes nothing and sends nothing |
| ChatMachine.InputChangeSetsInput | client/src/components/Chat.js:573 | typing replaces the input and nothing else |
| ChatMachine.TranscriptOverwritesInput | client/src/components/Chat.js:36-38 | a new transcript value becomes the input whether or not dictation is on; a repeated value changes nothing |
| ChatMachine.MicClickTwice | client/src/components/Chat.js:54-62 | a mic click flips `isListening` alone, starts dictation exactly when it was off and stops it otherwise; two clicks restore the state |
| ChatMachine.SuggestionClickSetsInput | client/src/components/Chat.js:135-137 | the input becomes exactly the suggestion, the panel is hidden, the messages are unchanged, nothing is sent |
| ChatMachine.SuggestionThenSend | client/src/components/Chat.js:29-34 | each canned prompt passes the send guard: clicking it and sending appends it as a user message and sends it for inference |
| ChatMachine.ToggleSuggestionsTwice | client/src/components/Chat.js:530 | the toggle flips `showSuggestions` alone and sends nothing; two toggles restore the state |
| ChatMachine.SetUserTagsLaterSends | client/src/components/Chat.js:43-46 | a fetched user is stored; a send accepted afterwards captures its id; the record of a send already awaited is unchanged by the fetch |
| ChatTraces.ApplyAccounts | client/src/components/Chat.js:64-102 | one event keeps the old messages as a prefix; the user messages it adds are its inference texts, the bot messages it adds are its saved replies, and it saves no more replies than it resolves sends |
| ChatTraces.RunAccounts | client/src/components/Chat.js:64-102 | the same over any run: messages only grow at the end; added user texts equal the inference texts and added bot texts equal the saved replies, in order; saved replies plus still-awaited sends never exceed awaited-at-start plus sent |
| ChatTraces.ApplyPreservesConsistent | client/src/components/Chat.js:64-100 | every event keeps the invariant: indicator on only while a send is awaited, and each awaited text is on screen as a user message |
| ChatTraces.RunPreservesConsistent | client/src/components/Chat.js:64-100 | any run from a consistent state ends in a consistent state |
| ChatTraces.ReachableConsistent | client/src/components/Chat.js:17-22 | every state reachable from mount is consistent: the typing indicator is on only while a send is awaited (it never sticks), and every awaited text is on screen |
| ChatTraces.RecordPairsShownMessages | client/src/components/Chat.js:87-92 | in a consistent state, a success continuation's record pairs a user message that is on screen with the response it appended |
| ChatTraces.SaveFailureIsInert | client/src/components/Chat.js:93-95 | removing a failed history write from any run changes neither the final state nor the requests |
| ChatTraces.RunAppend | client/src/components/Chat.js:64-102 | running two event sequences one after the other is the same as running their concatenation |
| ChatTraces.TypeAndSend | client/src/components/Chat.js:64-70 | typing a non-blank text and sending it appends one user message, clears input and transcript, turns the indicator on, awaits the send with the current user id and makes one inference call |
| ChatTraces.OneTurnScenario | client/src/components/Chat.js:64-92 | typing "Explain binary search complexity", sending it and receiving "It's O(log n)..." yields exactly [user question, bot answer], one inference call, one record with no user id, and the indicator off |
| ChatTraces.OverlappingSendsScenario | client/src/components/Chat.js:64-70 | two sends before any reply are both accepted: both user messages appended in order, two inference calls, both awaited, indicator on |
| ChatTraces.UserTagsLaterSends | client/src/components/Chat.js:43-46 | after the user is fetched, typing, sending and receiving the reply saves the record with that user's id |
| ChatTraces.EarlierSendsStayUntagged | client/src/components/Chat.js:81-92 | a send accepted while nobody is signed in is saved without a user id, even when the user is fetched before its reply arrives |
| ChatTraces.TypingClearedWhileAwaiting | client/src/components/Chat.js:81-84 | with two sends awaited, the first reply switches the indicator off while a send is still awaited |
| ChatTraces.DictationScenario | client/src/components/Chat.js:36-62 | transcripts "sort", "sorting", "sorting algo" leave the input at "sorting algo"; after the mic is switched off a typed edit stands, and a later transcript value still overwrites it |
| ChatComponent.Chat.constructor | client/src/components/Chat.js:17-22 | the object starts in the mount state and satisfies Valid() |
| ChatComponent.Chat.SendMessage | client/src/components/Chat.js:64-78 | the object's new state and the requests equal ChatMachine.SendMessage of the old state; the guard is `Trim(input) != ""`; Valid() is kept |
| ChatComponent.Chat.HandleKeyPress | client/src/components/Chat.js:104-108 | new state and requests equal ChatMachine.HandleKeyPress; Enter runs the SendMessage method |
| ChatComponent.Chat.ReplySucceeded | client/src/components/Chat.js:81-95 | new state equals ChatMachine.ReplySucceeded, and the returned record is the one the history POST carries: its user text is a user message on screen, its bot text is the response, its user id is the one that send captured; Valid() is kept |
| ChatComponent.Chat.ReplyFailed | client/src/components/Chat.js:97-100 | new state equals ChatMachine.ReplyFailed; nothing is sent; Valid() is kept |
| ChatComponent.Chat.OnInputChange | client/src/components/Chat.js:573 | new state equals ChatMachine.OnInputChange |
| ChatComponent.Chat.OnTranscript | client/src/components/Chat.js:36-38 | new state equals ChatMachine.OnTranscript |
| ChatComponent.Chat.HandleMicClick | client/src/components/Chat.js:54-62 | new state equals ChatMachine.HandleMicClick, and the returned call is the library call it makes |
| ChatComponent.Chat.HandleSuggestionClick | client/src/components/Chat.js:135-139 | new state equals ChatMachine.HandleSuggestionClick |
| ChatComponent.Chat.ToggleSuggestions | client/src/components/Chat.js:530 | new state equals ChatMachine.ToggleSuggestions |
| ChatComponent.Chat.SetUser | client/src/components/Chat.js:40-52 | new state equals ChatMachine.SetUser (a failed fetch changes nothing and is the `UserFetchFailed` event) |

## Left out

- Rendering, animation and the typed banner (Chat.js:141-616) are presentation, so they are left out. The same goes for the random floating-point positions of the background symbols (Chat.js:184-219).
- The HTTP calls to `/chat`, `/api/chat`, `/api/me` and `/api/logout` are made by axios and are not modelled. The model records what each request carries (`Infer`, `Save`). Their outcomes are event arguments: `ReplyArrived`, `RequestFailed`, `SaveFailed`, `UserFetched`, `UserFetchFailed`.
- The 1000 ms `setTimeout` (Chat.js:81) is not modelled, because time is not part of the model. Reply arrival is a single event.
- A malformed inference response is not modelled. If `response.data.response` is missing, the code appends a message whose text is `undefined`. The model's response is always a string.
- `handleLogout` and its navigation through `window.location` (Chat.js:122-133) end the chat, so they are outside its state.
- The `console.error` logging of failed calls (Chat.js:48, 94, 98, 131) is output only, so it is left out. The failures themselves are the events `UserFetchFailed`, `SaveFailed` and `RequestFailed`.
- The mic button that calls `handleMicClick` is commented out (Chat.js:581-590), so in the shipped component no control reaches it: `isListening` stays false and the transcript never changes. `handleMicClick` is modelled anyway, as the `MicClicked` event, so `DictationScenario` describes a path the rendered page does not offer.
- `scrollToBottom` (Chat.js:110-116) and focusing the input (Chat.js:138) are DOM effects with no state, so they are left out.
- The speech-recognition library and its browser-support check (Chat.js:118-120) are not modelled. The library's transcript is any string given to `OnTranscript`. The support check only stops rendering: the state hooks have already run.
- React's scheduling is not modelled. Line 67 builds the list from the `messages` its render captured, while line 83 uses a functional update. The two differ only under overlapping renders. The model is sequential, and it treats both as appending to the current list. The `user` a send's closure captured is modelled, in `Pending`.
- The white-space set of `IsSpace` covers space, tab, line feed, carriage return, vertical tab, form feed, no-break space, the line and paragraph separators and the byte-order mark. It leaves out the other Unicode space separators that JavaScript's `trim` also removes.
- A reply event for a send that is not awaited is a no-op in `Apply`. Such an event cannot occur. The class methods instead require `k < |inFlight|`.
