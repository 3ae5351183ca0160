/**
 * Runs of the chat-turn state machine: every event the component reacts to, the state a
 * sequence of them leads to, and what holds of every such run.
 */
module ChatTraces {
  import opened Text
  import opened ChatMachine

  /** What can happen to the component, in the order it happens. */
  datatype Event =
    | Typed(text: string)                    // the input field's onChange
    | KeyPressed(key: string)                // a key press in the input field
    | SendClicked                            // the send button
    | ReplyArrived(k: nat, response: string) // the k-th awaited inference call answered (after the delay)
    | RequestFailed(k: nat)                  // the k-th awaited inference call failed
    | SaveFailed                             // a history write failed (it is only logged)
    | SuggestionClicked(suggestion: string)
    | SuggestionsToggled
    | MicClicked
    | TranscriptUpdated(transcript: string)  // the dictation library published a transcript
    | UserFetched(u: User)                   // the identity service answered
    | UserFetchFailed                        // the identity service failed (it is only logged)

  /** The handler that reacts to `e`. A reply to a call that is not awaited cannot occur and does nothing. */
  function Apply(s: ChatState, e: Event): Transition {
    match e
    case Typed(text) => OnInputChange(s, text)
    case KeyPressed(key) => HandleKeyPress(s, key)
    case SendClicked => SendMessage(s)
    case ReplyArrived(k, response) =>
      if k < |s.inFlight| then ReplySucceeded(s, k, response) else Transition(s, [])
    case RequestFailed(k) => if k < |s.inFlight| then ReplyFailed(s, k) else Transition(s, [])
    case SaveFailed => Transition(s, [])
    case SuggestionClicked(suggestion) => HandleSuggestionClick(s, suggestion)
    case SuggestionsToggled => ToggleSuggestions(s)
    case MicClicked => HandleMicClick(s)
    case TranscriptUpdated(transcript) => OnTranscript(s, transcript)
    case UserFetched(u) => SetUser(s, u)
    case UserFetchFailed => Transition(s, [])
  }

  /** The state after the events `evs`, one after the other, and every request issued on the way. */
  function Run(s: ChatState, evs: seq<Event>): Transition
    decreases |evs|
  {
    if evs == [] then Transition(s, [])
    else
      var first := Apply(s, evs[0]);
      var rest := Run(first.next, evs[1..]);
      Transition(rest.next, first.sent + rest.sent)
  }

  /** The texts of the messages from `who`, in order. */
  function TextsFrom(ms: seq<Message>, who: Sender): seq<string>
    decreases |ms|
  {
    if ms == [] then []
    else (if ms[0].sender == who then [ms[0].text] else []) + TextsFrom(ms[1..], who)
  }

  /** The texts sent to the inference service, in order. */
  function Inferred(rs: seq<Request>): seq<string>
    decreases |rs|
  {
    if rs == [] then [] else (if rs[0].Infer? then [rs[0].message] else []) + Inferred(rs[1..])
  }

  /** The records sent to the history backend, in order. */
  function Saved(rs: seq<Request>): seq<ChatRecord>
    decreases |rs|
  {
    if rs == [] then [] else (if rs[0].Save? then [rs[0].record] else []) + Saved(rs[1..])
  }

  /** The bot replies a sequence of history records carries, in order. */
  function Replies(records: seq<ChatRecord>): (r: seq<string>)
    ensures |r| == |records|
    ensures forall i :: 0 <= i < |r| ==> r[i] == records[i].botMessage
    decreases |records|
  {
    if records == [] then [] else [records[0].botMessage] + Replies(records[1..])
  }

  // Distribution of the observers over concatenation.

  lemma {:induction false} TextsFromAppend(a: seq<Message>, b: seq<Message>, who: Sender)
    ensures TextsFrom(a + b, who) == TextsFrom(a, who) + TextsFrom(b, who)
    decreases |a|
  {
    if a == [] {
      assert a + b == b;
    } else {
      assert (a + b)[0] == a[0];
      assert (a + b)[1..] == a[1..] + b;
      TextsFromAppend(a[1..], b, who);
    }
  }

  lemma {:induction false} RequestsAppend(a: seq<Request>, b: seq<Request>)
    ensures Inferred(a + b) == Inferred(a) + Inferred(b)
    ensures Saved(a + b) == Saved(a) + Saved(b)
    decreases |a|
  {
    if a == [] {
      assert a + b == b;
    } else {
      assert (a + b)[0] == a[0];
      assert (a + b)[1..] == a[1..] + b;
      RequestsAppend(a[1..], b);
    }
  }

  lemma RepliesAppend(a: seq<ChatRecord>, b: seq<ChatRecord>)
    ensures Replies(a + b) == Replies(a) + Replies(b)
  {
  }

  // One event.

  /**
   * `t` leaves the messages of `s` in place and adds after them exactly the user messages whose
   * texts it sends for inference and the bot messages whose texts it saves to the history backend;
   * it saves no more replies than it resolves awaited sends.
   */
  predicate Accounts(s: ChatState, t: Transition) {
    s.messages <= t.next.messages &&
    TextsFrom(t.next.messages, UserSender) == TextsFrom(s.messages, UserSender) + Inferred(t.sent) &&
    TextsFrom(t.next.messages, BotSender) == TextsFrom(s.messages, BotSender) + Replies(Saved(t.sent)) &&
    |Saved(t.sent)| + |t.next.inFlight| <= |s.inFlight| + |Inferred(t.sent)|
  }

  /** A transition that adds no message, sends nothing to either backend and awaits no more. */
  lemma QuietAccounts(s: ChatState, t: Transition)
    requires t.next.messages == s.messages && |t.next.inFlight| <= |s.inFlight|
    requires forall i :: 0 <= i < |t.sent| ==> t.sent[i] == StartListening || t.sent[i] == StopListening
    requires |t.sent| <= 1
    ensures Accounts(s, t)
  {
  }

  /** An accepted or refused send accounts for what it does. */
  lemma {:induction false} SendAccounts(s: ChatState)
    ensures Accounts(s, SendMessage(s))
  {
    var t := SendMessage(s);
    if IsBlank(s.input) {
      QuietAccounts(s, t);
    } else {
      var m := Message(s.input, UserSender);
      TextsFromAppend(s.messages, [m], UserSender);
      TextsFromAppend(s.messages, [m], BotSender);
      assert TextsFrom([m], UserSender) == [s.input];
      assert TextsFrom([m], BotSender) == [];
      assert t.sent[1..] == [];
      assert Inferred(t.sent) == [s.input];
      assert Saved(t.sent) == [];
    }
  }

  /** A successful reply accounts for what it does. */
  lemma {:induction false} ReplyAccounts(s: ChatState, k: nat, response: string)
    requires k < |s.inFlight|
    ensures Accounts(s, ReplySucceeded(s, k, response))
  {
    var t := ReplySucceeded(s, k, response);
    var m := Message(response, BotSender);
    TextsFromAppend(s.messages, [m], UserSender);
    TextsFromAppend(s.messages, [m], BotSender);
    assert TextsFrom([m], UserSender) == [];
    assert TextsFrom([m], BotSender) == [response];
    assert t.sent[1..] == [];
    assert Inferred(t.sent) == [];
    assert Saved(t.sent) == [t.sent[0].record];
  }

  /** Every event accounts for what it does. */
  lemma {:induction false} ApplyAccounts(s: ChatState, e: Event)
    ensures Accounts(s, Apply(s, e))
  {
    var t := Apply(s, e);
    match e
    case SendClicked => SendAccounts(s);
    case KeyPressed(key) =>
      if key == "Enter" { SendAccounts(s); } else { QuietAccounts(s, t); }
    case ReplyArrived(k, response) =>
      if k < |s.inFlight| { ReplyAccounts(s, k, response); } else { QuietAccounts(s, t); }
    case _ => QuietAccounts(s, t);
  }

  /** Two transitions in a row account for what they do together. */
  lemma {:induction false} AccountsThen(s: ChatState, t1: Transition, t2: Transition)
    requires Accounts(s, t1) && Accounts(t1.next, t2)
    ensures Accounts(s, Transition(t2.next, t1.sent + t2.sent))
  {
    RequestsAppend(t1.sent, t2.sent);
    UserTextsThen(s, t1, t2);
    BotTextsThen(s, t1, t2);
  }

  lemma {:induction false} UserTextsThen(s: ChatState, t1: Transition, t2: Transition)
    requires Accounts(s, t1) && Accounts(t1.next, t2)
    ensures TextsFrom(t2.next.messages, UserSender)
            == TextsFrom(s.messages, UserSender) + Inferred(t1.sent + t2.sent)
  {
    RequestsAppend(t1.sent, t2.sent);
  }

  lemma {:induction false} BotTextsThen(s: ChatState, t1: Transition, t2: Transition)
    requires Accounts(s, t1) && Accounts(t1.next, t2)
    ensures TextsFrom(t2.next.messages, BotSender)
            == TextsFrom(s.messages, BotSender) + Replies(Saved(t1.sent + t2.sent))
  {
    RequestsAppend(t1.sent, t2.sent);
    RepliesAppend(Saved(t1.sent), Saved(t2.sent));
  }

  /** Every event keeps the state consistent. */
  lemma ApplyPreservesConsistent(s: ChatState, e: Event)
    requires Consistent(s)
    ensures Consistent(Apply(s, e).next)
  {
  }

  // Whole runs.

  /**
   * Over any run the conversation only grows at its end; the user messages it adds are exactly the
   * texts sent for inference and the bot messages it adds exactly the replies sent to the history
   * backend, each in order, and no more replies are saved than sends were awaited or made.
   */
  lemma {:induction false} RunAccounts(s: ChatState, evs: seq<Event>)
    ensures s.messages <= Run(s, evs).next.messages
    ensures TextsFrom(Run(s, evs).next.messages, UserSender)
            == TextsFrom(s.messages, UserSender) + Inferred(Run(s, evs).sent)
    ensures TextsFrom(Run(s, evs).next.messages, BotSender)
            == TextsFrom(s.messages, BotSender) + Replies(Saved(Run(s, evs).sent))
    ensures |Saved(Run(s, evs).sent)| + |Run(s, evs).next.inFlight|
            <= |s.inFlight| + |Inferred(Run(s, evs).sent)|
    decreases |evs|
  {
    if evs == [] {
      assert Inferred([]) == [] && Saved([]) == [];
    } else {
      var first := Apply(s, evs[0]);
      ApplyAccounts(s, evs[0]);
      RunAccounts(first.next, evs[1..]);
      AccountsThen(s, first, Run(first.next, evs[1..]));
    }
  }

  /** Every run from a consistent state ends in one. */
  lemma {:induction false} RunPreservesConsistent(s: ChatState, evs: seq<Event>)
    requires Consistent(s)
    ensures Consistent(Run(s, evs).next)
    decreases |evs|
  {
    if evs != [] {
      ApplyPreservesConsistent(s, evs[0]);
      RunPreservesConsistent(Apply(s, evs[0]).next, evs[1..]);
    }
  }

  /**
   * Every state the component can reach is consistent: the typing indicator is never left on with
   * nothing awaited, and every awaited send's text is on screen.
   */
  lemma {:induction false} ReachableConsistent(evs: seq<Event>)
    ensures Consistent(Run(Initial(), evs).next)
  {
    RunPreservesConsistent(Initial(), evs);
  }

  /** A failed history write can be dropped from any run without changing its outcome. */
  lemma {:induction false} SaveFailureIsInert(s: ChatState, before: seq<Event>, after: seq<Event>)
    ensures Run(s, before + [SaveFailed] + after) == Run(s, before + after)
    decreases |before|
  {
    if before == [] {
      assert before + [SaveFailed] + after == [SaveFailed] + after;
      assert ([SaveFailed] + after)[0] == SaveFailed;
      assert ([SaveFailed] + after)[1..] == after;
      assert before + after == after;
      assert [] + Run(s, after).sent == Run(s, after).sent;
    } else {
      var first := Apply(s, before[0]);
      assert (before + [SaveFailed] + after)[0] == before[0];
      assert (before + [SaveFailed] + after)[1..] == before[1..] + [SaveFailed] + after;
      assert (before + after)[0] == before[0];
      assert (before + after)[1..] == before[1..] + after;
      SaveFailureIsInert(first.next, before[1..], after);
    }
  }

  /** A history record pairs the reply with a user message that is on screen, and the reply is the last message. */
  lemma RecordPairsShownMessages(s: ChatState, k: nat, response: string)
    requires Consistent(s) && k < |s.inFlight|
    ensures Message(ReplySucceeded(s, k, response).sent[0].record.userMessage, UserSender)
            in ReplySucceeded(s, k, response).next.messages
    ensures ReplySucceeded(s, k, response).sent[0].record.botMessage == response
  {
  }

  // Scenarios.

  /** Runs of two or more events, taken one event at a time. */
  lemma RunCons(s: ChatState, e: Event, evs: seq<Event>)
    ensures Run(s, [e] + evs)
            == Transition(Run(Apply(s, e).next, evs).next, Apply(s, e).sent + Run(Apply(s, e).next, evs).sent)
  {
  }

  /** Regrouping the requests of three consecutive runs (kept apart from RunAppend to keep it small). */
  lemma RequestsAssoc(x: seq<Request>, y: seq<Request>, z: seq<Request>)
    ensures x + (y + z) == (x + y) + z
  {
  }

  /** Running two event sequences one after the other is running their concatenation. */
  lemma {:induction false} RunAppend(s: ChatState, a: seq<Event>, b: seq<Event>)
    ensures Run(s, a + b) ==
      Transition(Run(Run(s, a).next, b).next, Run(s, a).sent + Run(Run(s, a).next, b).sent)
    decreases |a|
  {
    if a == [] {
      assert a + b == b;
    } else {
      var first := Apply(s, a[0]);
      var mid := Run(first.next, a[1..]);
      var last := Run(mid.next, b);
      assert (a + b)[0] == a[0] && (a + b)[1..] == a[1..] + b;
      assert Run(s, a) == Transition(mid.next, first.sent + mid.sent);
      RunAppend(first.next, a[1..], b);
      assert Run(first.next, a[1..] + b) == Transition(last.next, mid.sent + last.sent);
      assert Run(s, a + b) == Transition(last.next, first.sent + (mid.sent + last.sent));
      RequestsAssoc(first.sent, mid.sent, last.sent);
    }
  }

  /** A run that starts with `e`, given what `e` does and what the rest of the run does. */
  lemma RunStep(s: ChatState, e: Event, evs: seq<Event>, first: Transition, rest: Transition)
    requires Apply(s, e) == first && Run(first.next, evs) == rest
    ensures Run(s, [e] + evs) == Transition(rest.next, first.sent + rest.sent)
  {
  }

  /**
   * One full turn: a question is typed and sent, the answer arrives. The conversation holds the
   * question and then the answer, and exactly one inference call and one history record were sent
   * (with no `userId`, nobody being signed in).
   */
  lemma {:induction false} OneTurnScenario()
    ensures var q, a := "Explain binary search complexity", "It's O(log n)...";
      var t := Run(Initial(), [Typed(q), SendClicked, ReplyArrived(0, a)]);
      t.next.messages == [Message(q, UserSender), Message(a, BotSender)] &&
      t.sent == [Infer(q), Save(ChatRecord(q, a, None))] &&
      !t.next.isTyping && t.next.inFlight == []
  {
    var q, a := "Explain binary search complexity", "It's O(log n)...";
    var s1 := Apply(Initial(), Typed(q));
    assert s1.next.input == q && !IsSpace(q[0]);
    var s2 := Apply(s1.next, SendClicked);
    assert s2.next == ChatState([Message(q, UserSender)], "", false, None, true, false, "", [Pending(q, None)]);
    assert s2.sent == [Infer(q)];
    var s3 := Apply(s2.next, ReplyArrived(0, a));
    assert s3.next.messages == [Message(q, UserSender), Message(a, BotSender)];
    assert s3.sent == [Save(ChatRecord(q, a, None))];
    assert Run(s3.next, []) == Transition(s3.next, []);
    RunCons(s2.next, ReplyArrived(0, a), []);
    RunCons(s1.next, SendClicked, [ReplyArrived(0, a)]);
    RunCons(Initial(), Typed(q), [SendClicked] + [ReplyArrived(0, a)]);
    assert [Typed(q), SendClicked, ReplyArrived(0, a)] == [Typed(q)] + ([SendClicked] + [ReplyArrived(0, a)]);
  }

  /**
   * Typing a non-blank text and sending it: one optimistic user message, one inference call, and
   * the send awaited with the id of the user known now.
   */
  lemma {:induction false} TypeAndSend(s: ChatState, text: string)
    requires !IsBlank(text)
    ensures Run(s, [Typed(text), SendClicked]) ==
      Transition(s.(messages := s.messages + [Message(text, UserSender)], input := "", transcript := "",
                    isTyping := true, inFlight := s.inFlight + [Pending(text, UserId(s.user))]),
                 [Infer(text)])
  {
    var s1 := OnInputChange(s, text).next;
    var s2 := SendMessage(s1).next;
    assert Apply(s, Typed(text)) == Transition(s1, []);
    assert Apply(s1, SendClicked) == Transition(s2, [Infer(text)]);
    RunStep(s1, SendClicked, [], Transition(s2, [Infer(text)]), Transition(s2, []));
    assert [SendClicked] + [] == [SendClicked];
    RunStep(s, Typed(text), [SendClicked], Transition(s1, []), Transition(s2, [Infer(text)] + []));
    assert [Typed(text)] + [SendClicked] == [Typed(text), SendClicked];
  }

  /**
   * Two sends before the first answer, from any state with nothing awaited: both are accepted (the
   * send guard does not look at the typing indicator) and both calls are awaited.
   */
  lemma {:induction false} OverlappingSendsScenario(s: ChatState, a: string, b: string)
    requires s.inFlight == [] && !IsBlank(a) && !IsBlank(b)
    ensures var t := Run(s, [Typed(a), SendClicked, Typed(b), SendClicked]);
      t.next.messages == s.messages + [Message(a, UserSender), Message(b, UserSender)] &&
      t.sent == [Infer(a), Infer(b)] && t.next.isTyping &&
      t.next.inFlight == [Pending(a, UserId(s.user)), Pending(b, UserId(s.user))]
  {
    TypeAndSend(s, a);
    var s2 := Run(s, [Typed(a), SendClicked]).next;
    TypeAndSend(s2, b);
    var s4 := Run(s2, [Typed(b), SendClicked]).next;
    RunAppend(s, [Typed(a), SendClicked], [Typed(b), SendClicked]);
    assert [Typed(a), SendClicked] + [Typed(b), SendClicked] == [Typed(a), SendClicked, Typed(b), SendClicked];
    assert s4.messages == s.messages + [Message(a, UserSender)] + [Message(b, UserSender)];
    assert s4.inFlight == [Pending(a, UserId(s.user)), Pending(b, UserId(s.user))];
  }

  /** A send accepted after the user is fetched is saved with that user's id. */
  lemma {:induction false} UserTagsLaterSends(s: ChatState, u: User, q: string, a: string)
    requires !IsBlank(q)
    ensures Run(s, [UserFetched(u), Typed(q), SendClicked, ReplyArrived(|s.inFlight|, a)]).sent
            == [Infer(q), Save(ChatRecord(q, a, Some(u.id)))]
  {
    var k := |s.inFlight|;
    var s1 := SetUser(s, u).next;
    TypeAndSend(s1, q);
    var s3 := Run(s1, [Typed(q), SendClicked]).next;
    assert s3.inFlight[k] == Pending(q, Some(u.id));
    var reply := ReplySucceeded(s3, k, a);
    RunStep(s3, ReplyArrived(k, a), [], reply, Transition(reply.next, []));
    assert [ReplyArrived(k, a)] + [] == [ReplyArrived(k, a)];
    RunAppend(s1, [Typed(q), SendClicked], [ReplyArrived(k, a)]);
    assert [Typed(q), SendClicked] + [ReplyArrived(k, a)] == [Typed(q), SendClicked, ReplyArrived(k, a)];
    var rest := Run(s1, [Typed(q), SendClicked, ReplyArrived(k, a)]);
    assert rest.sent == [Infer(q)] + ([Save(ChatRecord(q, a, Some(u.id)))] + []);
    RunStep(s, UserFetched(u), [Typed(q), SendClicked, ReplyArrived(k, a)], Transition(s1, []), rest);
    assert [UserFetched(u)] + [Typed(q), SendClicked, ReplyArrived(k, a)]
           == [UserFetched(u), Typed(q), SendClicked, ReplyArrived(k, a)];
  }

  /**
   * A send accepted while nobody is signed in is saved without a user id, even when the user is
   * fetched before its reply arrives: the continuation uses the user its send captured.
   */
  lemma {:induction false} EarlierSendsStayUntagged(s: ChatState, u: User, q: string, a: string)
    requires s.user == None && !IsBlank(q)
    ensures var t := Run(s, [Typed(q), SendClicked, UserFetched(u), ReplyArrived(|s.inFlight|, a)]);
      t.sent == [Infer(q), Save(ChatRecord(q, a, None))] && t.next.user == Some(u)
  {
    var k := |s.inFlight|;
    TypeAndSend(s, q);
    var s2 := Run(s, [Typed(q), SendClicked]).next;
    var s3 := SetUser(s2, u).next;
    assert s3.inFlight[k] == Pending(q, None);
    var reply := ReplySucceeded(s3, k, a);
    RunStep(s3, ReplyArrived(k, a), [], reply, Transition(reply.next, []));
    assert [ReplyArrived(k, a)] + [] == [ReplyArrived(k, a)];
    var last := Run(s3, [ReplyArrived(k, a)]);
    RunStep(s2, UserFetched(u), [ReplyArrived(k, a)], Transition(s3, []), last);
    assert [UserFetched(u)] + [ReplyArrived(k, a)] == [UserFetched(u), ReplyArrived(k, a)];
    RunAppend(s, [Typed(q), SendClicked], [UserFetched(u), ReplyArrived(k, a)]);
    assert [Typed(q), SendClicked] + [UserFetched(u), ReplyArrived(k, a)]
           == [Typed(q), SendClicked, UserFetched(u), ReplyArrived(k, a)];
    assert [Infer(q)] + ([] + ([Save(ChatRecord(q, a, None))] + [])) == [Infer(q), Save(ChatRecord(q, a, None))];
  }

  /**
   * With two sends awaited, the first answer to arrive switches the typing indicator off although
   * the other is still awaited: the indicator is on only while a reply is awaited, not whenever one is.
   */
  lemma TypingClearedWhileAwaiting(s: ChatState, k: nat, response: string)
    requires k < |s.inFlight| && |s.inFlight| >= 2
    ensures !ReplySucceeded(s, k, response).next.isTyping
    ensures |ReplySucceeded(s, k, response).next.inFlight| == |s.inFlight| - 1 > 0
  {
  }

  /**
   * Dictation: successive transcripts "sort", "sorting", "sorting algo" leave the buffer at the last
   * one; after the mic is switched off a typed edit stands, but a further transcript value would
   * still overwrite it.
   */
  lemma {:induction false} DictationScenario()
    ensures var t := Run(Initial(), [MicClicked, TranscriptUpdated("sort"), TranscriptUpdated("sorting"),
                                     TranscriptUpdated("sorting algo")]);
      t.next.input == "sorting algo" && t.next.isListening && t.sent == [StartListening] &&
      var u := Run(t.next, [MicClicked, Typed("sorting algorithms")]);
      u.next.input == "sorting algorithms" && !u.next.isListening && u.sent == [StopListening] &&
      Apply(u.next, TranscriptUpdated("sorting algo!")).next.input == "sorting algo!"
  {
    var s0 := Initial();
    var s1 := Apply(s0, MicClicked).next;
    var s2 := Apply(s1, TranscriptUpdated("sort")).next;
    var s3 := Apply(s2, TranscriptUpdated("sorting")).next;
    var s4 := Apply(s3, TranscriptUpdated("sorting algo")).next;
    assert Run(s4, []) == Transition(s4, []);
    RunCons(s3, TranscriptUpdated("sorting algo"), []);
    RunCons(s2, TranscriptUpdated("sorting"), [TranscriptUpdated("sorting algo")]);
    RunCons(s1, TranscriptUpdated("sort"), [TranscriptUpdated("sorting"), TranscriptUpdated("sorting algo")]);
    RunCons(s0, MicClicked, [TranscriptUpdated("sort"), TranscriptUpdated("sorting"), TranscriptUpdated("sorting algo")]);
    assert [TranscriptUpdated("sorting algo")] + [] == [TranscriptUpdated("sorting algo")];
    assert [TranscriptUpdated("sorting")] + [TranscriptUpdated("sorting algo")]
           == [TranscriptUpdated("sorting"), TranscriptUpdated("sorting algo")];
    assert [TranscriptUpdated("sort")] + [TranscriptUpdated("sorting"), TranscriptUpdated("sorting algo")]
           == [TranscriptUpdated("sort"), TranscriptUpdated("sorting"), TranscriptUpdated("sorting algo")];
    assert [MicClicked] + [TranscriptUpdated("sort"), TranscriptUpdated("sorting"), TranscriptUpdated("sorting algo")]
           == [MicClicked, TranscriptUpdated("sort"), TranscriptUpdated("sorting"), TranscriptUpdated("sorting algo")];
    var s5 := Apply(s4, MicClicked).next;
    var s6 := Apply(s5, Typed("sorting algorithms")).next;
    assert Run(s6, []) == Transition(s6, []);
    RunCons(s5, Typed("sorting algorithms"), []);
    RunCons(s4, MicClicked, [Typed("sorting algorithms")]);
    assert [Typed("sorting algorithms")] + [] == [Typed("sorting algorithms")];
    assert [MicClicked] + [Typed("sorting algorithms")] == [MicClicked, Typed("sorting algorithms")];
  }
}
