/**
 * The chat-turn state machine of the `Chat` component, as values: the component's state,
 * the requests it issues to the outside world, and one transition function per handler.
 * The class in ChatComponent is proved to follow these functions step by step.
 */
module ChatMachine {
  import opened Text

  datatype Option<T> = None | Some(value: T)

  /** Who wrote a message: the `sender` field, "user" or "bot". */
  datatype Sender = UserSender | BotSender

  /** One entry of the conversation, `{ text, sender }`. */
  datatype Message = Message(text: string, sender: Sender)

  /** The signed-in user as returned by the identity service; only its id is read. */
  datatype User = User(id: string)

  /** The body sent to the history backend: `{ userMessage, botMessage, userId }`; `None` is an absent `userId`. */
  datatype ChatRecord = ChatRecord(userMessage: string, botMessage: string, userId: Option<string>)

  /**
   * What a suspended `sendMessage` call has captured: the untrimmed input it sent and the `userId`
   * of the user its render saw, which is what its history record will carry.
   */
  datatype Pending = Pending(text: string, userId: Option<string>)

  /** What a handler asks of the outside world. */
  datatype Request =
    | Infer(message: string)       // POST to the inference service with `{ message }`
    | Save(record: ChatRecord)     // fire-and-forget POST to the history backend
    | StartListening               // continuous dictation switched on
    | StopListening                // dictation switched off

  /**
   * The component's state. `inFlight` holds, oldest first, what each `sendMessage` call whose
   * inference request has not yet resolved has captured: the continuations the runtime keeps
   * waiting. `transcript` is the dictation library's live transcript.
   */
  datatype ChatState = ChatState(
    messages: seq<Message>,
    input: string,
    isListening: bool,
    user: Option<User>,
    isTyping: bool,
    showSuggestions: bool,
    transcript: string,
    inFlight: seq<Pending>)

  /** The new state after one handler and the requests it issued, in order. */
  datatype Transition = Transition(next: ChatState, sent: seq<Request>)

  /** The canned prompts of the suggestion panel. */
  const DemoSuggestions: seq<string> := [
    "Explain binary search complexity",
    "How do I implement a bubble sort?",
    "What's the best way to " + "solve this sorting problem?",  // split: a literal this long is opaque to the verifier
    "Help me understand merge sort"
  ]

  /** The state the component mounts with: nothing typed, every flag off, no user yet. */
  function Initial(): (s: ChatState)
    ensures s.messages == [] && s.input == "" && s.transcript == "" && s.inFlight == []
    ensures !s.isListening && !s.isTyping && !s.showSuggestions && s.user == None
  {
    ChatState([], "", false, None, false, false, "", [])
  }

  /** The `userId` of the history record: the user's id, absent when nobody is signed in (`user?.id`). */
  function UserId(u: Option<User>): (id: Option<string>)
    ensures id.Some? <==> u.Some?
    ensures u.Some? ==> id.value == u.value.id
  {
    match u
    case None => None
    case Some(v) => Some(v.id)
  }

  /** The invariant every handler keeps: the typing indicator is on only while some reply is awaited. */
  predicate TypingAwaitsReply(s: ChatState) {
    s.isTyping ==> |s.inFlight| > 0
  }

  /**
   * What holds in every reachable state: the typing indicator is on only while a reply is awaited,
   * and every awaited send's text is already on screen as a user message.
   */
  predicate Consistent(s: ChatState) {
    TypingAwaitsReply(s) &&
    forall i :: 0 <= i < |s.inFlight| ==> Message(s.inFlight[i].text, UserSender) in s.messages
  }

  /** `s` without its element at `k`. */
  function RemoveAt<T>(s: seq<T>, k: nat): (r: seq<T>)
    requires k < |s|
    ensures |r| == |s| - 1
    ensures forall i :: 0 <= i < k ==> r[i] == s[i]
    ensures forall i :: k <= i < |r| ==> r[i] == s[i + 1]
  {
    s[..k] + s[k + 1..]
  }

  /**
   * `sendMessage` up to its first `await`. The guard tests the trimmed input only (`IsBlank` is
   * `Trim(input) == ""`, see SendGuardIsTrim): it does not look at `isTyping`, so a send while a
   * reply is awaited is accepted. The stored and transmitted text is the untrimmed input, and the
   * suspended call keeps it together with the id of the user known at this moment.
   */
  function SendMessage(s: ChatState): (t: Transition)
    ensures IsBlank(s.input) ==> t == Transition(s, [])
    ensures !IsBlank(s.input) ==>
      t.sent == [Infer(s.input)] &&
      t.next == s.(messages := s.messages + [Message(s.input, UserSender)],
                   input := "", transcript := "", isTyping := true,
                   inFlight := s.inFlight + [Pending(s.input, UserId(s.user))])
  {
    if IsBlank(s.input) then Transition(s, [])
    else
      Transition(s.(messages := s.messages + [Message(s.input, UserSender)],
                    input := "", transcript := "", isTyping := true,
                    inFlight := s.inFlight + [Pending(s.input, UserId(s.user))]),
                 [Infer(s.input)])
  }

  /**
   * The success continuation of the `k`-th awaited send: the bot's reply is appended, the typing
   * indicator is cleared (even if other sends are still awaited) and one history record is sent,
   * pairing the text captured by that send with the reply and tagged with the user id that send
   * captured, not the user known now.
   */
  function ReplySucceeded(s: ChatState, k: nat, response: string): (t: Transition)
    requires k < |s.inFlight|
    ensures t.next.messages == s.messages + [Message(response, BotSender)]
    ensures !t.next.isTyping
    ensures t.next.inFlight == RemoveAt(s.inFlight, k)
    ensures t.sent == [Save(ChatRecord(s.inFlight[k].text, response, s.inFlight[k].userId))]
    ensures t.next.input == s.input && t.next.transcript == s.transcript && t.next.user == s.user
    ensures t.next.isListening == s.isListening && t.next.showSuggestions == s.showSuggestions
  {
    var record := ChatRecord(s.inFlight[k].text, response, s.inFlight[k].userId);
    Transition(s.(messages := s.messages + [Message(response, BotSender)], isTyping := false,
                  inFlight := RemoveAt(s.inFlight, k)),
               [Save(record)])
  }

  /** The failure path of the `k`-th awaited send: no message, no record, the indicator cleared. */
  function ReplyFailed(s: ChatState, k: nat): (t: Transition)
    requires k < |s.inFlight|
    ensures t.sent == [] && t.next == s.(isTyping := false, inFlight := RemoveAt(s.inFlight, k))
  {
    Transition(s.(isTyping := false, inFlight := RemoveAt(s.inFlight, k)), [])
  }

  /** The send is refused, changing nothing and calling nobody, exactly when the trimmed input is empty. */
  lemma SendGuardIsTrim(s: ChatState)
    ensures SendMessage(s) == Transition(s, []) <==> Trim(s.input) == ""
  {
  }

  /** `handleKeyPress`: Enter sends, every other key leaves everything as it was. */
  function HandleKeyPress(s: ChatState, key: string): (t: Transition)
    ensures key == "Enter" ==> t == SendMessage(s)
    ensures key != "Enter" ==> t == Transition(s, [])
  {
    if key == "Enter" then SendMessage(s) else Transition(s, [])
  }

  /** The input field's `onChange`: the buffer becomes what was typed. */
  function OnInputChange(s: ChatState, text: string): (t: Transition)
  {
    Transition(s.(input := text), [])
  }

  /**
   * The transcript effect: whenever the transcript takes a new value the buffer is overwritten with
   * it, whether or not dictation is on. A repeated value does not re-run the effect.
   */
  function OnTranscript(s: ChatState, transcript: string): (t: Transition)
  {
    if transcript == s.transcript then Transition(s, [])
    else Transition(s.(transcript := transcript, input := transcript), [])
  }

  /** `handleMicClick`: flips `isListening`, starting or stopping dictation accordingly. */
  function HandleMicClick(s: ChatState): (t: Transition)
  {
    if s.isListening then Transition(s.(isListening := false), [StopListening])
    else Transition(s.(isListening := true), [StartListening])
  }

  /** `handleSuggestionClick`: the buffer becomes the suggestion and the panel closes. */
  function HandleSuggestionClick(s: ChatState, suggestion: string): (t: Transition)
  {
    Transition(s.(input := suggestion, showSuggestions := false), [])
  }

  /** The suggestion toggle button: flips `showSuggestions`. */
  function ToggleSuggestions(s: ChatState): (t: Transition)
  {
    Transition(s.(showSuggestions := !s.showSuggestions), [])
  }

  /** `fetchUser` on success: the user is remembered (on failure nothing changes). */
  function SetUser(s: ChatState, u: User): (t: Transition)
  {
    Transition(s.(user := Some(u)), [])
  }

  // Properties of single handlers.

  /** Two clicks of the suggestion toggle restore the panel; the first one flips it and touches nothing else. */
  lemma ToggleSuggestionsTwice(s: ChatState)
    ensures ToggleSuggestions(s).next.showSuggestions == !s.showSuggestions
    ensures ToggleSuggestions(s).next.(showSuggestions := s.showSuggestions) == s
    ensures ToggleSuggestions(s).sent == []
    ensures ToggleSuggestions(ToggleSuggestions(s).next).next == s
  {
  }

  /** Two mic clicks restore `isListening`; each click starts dictation exactly when it was off. */
  lemma MicClickTwice(s: ChatState)
    ensures HandleMicClick(s).next == s.(isListening := !s.isListening)
    ensures HandleMicClick(s).sent == [if s.isListening then StopListening else StartListening]
    ensures HandleMicClick(HandleMicClick(s).next).next == s
  {
  }

  /** A suggestion click makes the buffer exactly that suggestion, closes the panel and sends nothing. */
  lemma SuggestionClickSetsInput(s: ChatState, suggestion: string)
    ensures HandleSuggestionClick(s, suggestion).next.input == suggestion
    ensures !HandleSuggestionClick(s, suggestion).next.showSuggestions
    ensures HandleSuggestionClick(s, suggestion).next.messages == s.messages
    ensures HandleSuggestionClick(s, suggestion).sent == []
  {
  }

  /** Every canned prompt passes the send guard: clicking one and sending appends it as a user message. */
  lemma {:induction false} SuggestionThenSend(s: ChatState, k: nat)
    requires k < |DemoSuggestions|
    ensures SendMessage(HandleSuggestionClick(s, DemoSuggestions[k]).next).next.messages
            == s.messages + [Message(DemoSuggestions[k], UserSender)]
    ensures SendMessage(HandleSuggestionClick(s, DemoSuggestions[k]).next).sent == [Infer(DemoSuggestions[k])]
  {
    var text := DemoSuggestions[k];
    assert !IsSpace(text[0]) by {
      if k == 0 { assert text == "Explain binary search complexity"; assert text[0] == 'E'; }
      else if k == 1 { assert text == "How do I implement a bubble sort?"; assert text[0] == 'H'; }
      else if k == 2 {
        assert text[0] == 'W';
      } else { assert text == "Help me understand merge sort"; assert text[0] == 'H'; }
    }
    assert !IsBlank(text);
  }

  /** A new transcript value overwrites the buffer, also when dictation is off; a repeated one changes nothing. */
  lemma TranscriptOverwritesInput(s: ChatState, transcript: string)
    ensures OnTranscript(s, transcript).sent == []
    ensures transcript != s.transcript ==>
      OnTranscript(s, transcript).next == s.(input := transcript, transcript := transcript)
    ensures transcript == s.transcript ==> OnTranscript(s, transcript).next == s
  {
  }

  /** Typing replaces the buffer and nothing else. */
  lemma InputChangeSetsInput(s: ChatState, text: string)
    ensures OnInputChange(s, text) == Transition(s.(input := text), [])
  {
  }

  /**
   * A resolved user is stored; sends accepted from then on capture its id, while the records of
   * sends that were already awaited keep the id those sends captured.
   */
  lemma SetUserTagsLaterSends(s: ChatState, u: User, k: nat, response: string)
    ensures SetUser(s, u).next == s.(user := Some(u))
    ensures !IsBlank(s.input) ==>
      SendMessage(SetUser(s, u).next).next.inFlight == s.inFlight + [Pending(s.input, Some(u.id))]
    ensures k < |s.inFlight| ==>
      ReplySucceeded(SetUser(s, u).next, k, response).sent == ReplySucceeded(s, k, response).sent
  {
  }

  /** An accepted send clears the buffer, so sending again straight away is refused by the guard. */
  lemma SendTwiceSendsOnce(s: ChatState)
    requires !IsBlank(s.input)
    ensures SendMessage(SendMessage(s).next) == Transition(SendMessage(s).next, [])
  {
  }
}
