/**
 * The `Chat` component as an object: one field per piece of state the handlers update, and one
 * method per handler. Each method is proved to move the object exactly as the corresponding
 * transition of ChatMachine moves its state, to issue the same requests, and to keep Valid().
 */
module ChatComponent {
  import opened Text
  import opened ChatMachine
  import opened ChatTraces

  class Chat {
    var messages: seq<Message>
    var input: string
    var isListening: bool
    var user: Option<User>
    var isTyping: bool
    var showSuggestions: bool
    /** The dictation library's live transcript. */
    var transcript: string
    /** What each send whose inference call is still awaited has captured, oldest first. */
    var inFlight: seq<Pending>

    /** The object's state as a value. */
    function State(): ChatState
      reads this
    {
      ChatState(messages, input, isListening, user, isTyping, showSuggestions, transcript, inFlight)
    }

    ghost predicate Valid()
      reads this
    {
      Consistent(State())
    }

    /** Mounting: the initial `useState` values. */
    constructor ()
      ensures Valid() && State() == Initial()
    {
      messages, input, isListening, user := [], "", false, None;
      isTyping, showSuggestions, transcript, inFlight := false, false, "", [];
    }

    /**
     * `sendMessage` up to its first `await`: a non-blank input is appended as a user message,
     * the buffer and transcript are cleared, the indicator is switched on and the call is issued.
     */
    method SendMessage() returns (sent: seq<Request>)
      requires Valid()
      modifies this
      ensures Valid()
      ensures Transition(State(), sent) == ChatMachine.SendMessage(old(State()))
    {
      ghost var before := State();
      if Trim(input) != "" {
        var newMessage := Message(input, UserSender);
        messages := messages + [newMessage];
        inFlight := inFlight + [Pending(input, UserId(user))];
        sent := [Infer(input)];
        input := "";
        transcript := "";
        isTyping := true;
      } else {
        sent := [];
      }
      ApplyPreservesConsistent(before, SendClicked);
    }

    /** `handleKeyPress`: Enter sends, any other key does nothing. */
    method HandleKeyPress(key: string) returns (sent: seq<Request>)
      requires Valid()
      modifies this
      ensures Valid()
      ensures Transition(State(), sent) == ChatMachine.HandleKeyPress(old(State()), key)
    {
      if key == "Enter" {
        sent := SendMessage();
      } else {
        sent := [];
      }
    }

    /**
     * The success continuation of the `k`-th awaited send: the reply is appended, the indicator
     * cleared, and the history record the fire-and-forget POST carries is returned: it pairs a
     * user message that is on screen with the reply, tagged with the id that send captured.
     */
    method ReplySucceeded(k: nat, response: string) returns (record: ChatRecord)
      requires Valid() && k < |inFlight|
      modifies this
      ensures Valid()
      ensures Transition(State(), [Save(record)]) == ChatMachine.ReplySucceeded(old(State()), k, response)
      ensures Message(record.userMessage, UserSender) in messages && record.botMessage == response
      ensures record.userId == old(inFlight[k].userId)
    {
      ghost var before := State();
      var botMessage := Message(response, BotSender);
      record := ChatRecord(inFlight[k].text, botMessage.text, inFlight[k].userId);
      messages := messages + [botMessage];
      isTyping := false;
      inFlight := inFlight[..k] + inFlight[k + 1..];
      ApplyPreservesConsistent(before, ReplyArrived(k, response));
      RecordPairsShownMessages(before, k, response);
    }

    /** The failure path of the `k`-th awaited send: only the indicator is cleared. */
    method ReplyFailed(k: nat)
      requires Valid() && k < |inFlight|
      modifies this
      ensures Valid()
      ensures Transition(State(), []) == ChatMachine.ReplyFailed(old(State()), k)
    {
      ghost var before := State();
      isTyping := false;
      inFlight := inFlight[..k] + inFlight[k + 1..];
      ApplyPreservesConsistent(before, RequestFailed(k));
    }

    /** The input field's `onChange`. */
    method OnInputChange(text: string)
      requires Valid()
      modifies this
      ensures Valid()
      ensures Transition(State(), []) == ChatMachine.OnInputChange(old(State()), text)
    {
      input := text;
    }

    /** The transcript effect, run when the transcript takes a new value. */
    method OnTranscript(newTranscript: string)
      requires Valid()
      modifies this
      ensures Valid()
      ensures Transition(State(), []) == ChatMachine.OnTranscript(old(State()), newTranscript)
    {
      if newTranscript != transcript {
        transcript := newTranscript;
        input := newTranscript;
      }
    }

    /** `handleMicClick`: returns the call made to the dictation library. */
    method HandleMicClick() returns (request: Request)
      requires Valid()
      modifies this
      ensures Valid()
      ensures Transition(State(), [request]) == ChatMachine.HandleMicClick(old(State()))
    {
      if isListening {
        request := StopListening;
        isListening := false;
      } else {
        request := StartListening;
        isListening := true;
      }
    }

    /** `handleSuggestionClick`. */
    method HandleSuggestionClick(suggestion: string)
      requires Valid()
      modifies this
      ensures Valid()
      ensures Transition(State(), []) == ChatMachine.HandleSuggestionClick(old(State()), suggestion)
    {
      input := suggestion;
      showSuggestions := false;
    }

    /** The suggestion toggle button. */
    method ToggleSuggestions()
      requires Valid()
      modifies this
      ensures Valid()
      ensures Transition(State(), []) == ChatMachine.ToggleSuggestions(old(State()))
    {
      showSuggestions := !showSuggestions;
    }

    /** `fetchUser` on success. */
    method SetUser(u: User)
      requires Valid()
      modifies this
      ensures Valid()
      ensures Transition(State(), []) == ChatMachine.SetUser(old(State()), u)
    {
      user := Some(u);
    }
  }
}
