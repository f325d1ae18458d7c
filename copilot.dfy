/** The chat panel: a transcript that starts with a greeting, grows by a user
    message on each send and by one canned reply per send when that send's
    timer fires, and is cut back to the greeting by "New Contract". */
module Copilot {
  import opened Text

  datatype Author = User | Ai

  /** A transcript entry; the timestamp is left out. */
  datatype Message = Message(id: string, author: Author, content: string)

  const Greeting: Message := Message("1", Ai,
    "Hello! I'm your AI Contract Assistant. I can help you create, review, and customize legal contracts. What type of contract would you like to work on today?")

  /** The one reply text; it does not depend on what the user wrote. */
  const ReplyText: string :=
    "I'll help you create that contract. Let me generate a draft based on your requirements. I'll include all the essential clauses and terms that are commonly used for this type of agreement."

  /** The component's state as a value: the transcript, the input box, the
      typing indicator, and how many reply timers are scheduled and have not
      fired. */
  datatype Chat = Chat(messages: seq<Message>, input: string, typing: bool, pendingReplies: nat)

  const Initial: Chat := Chat([Greeting], "", false, 0)

  /** The transcript still opens with the greeting. */
  predicate StartsWithGreeting(c: Chat) {
    |c.messages| >= 1 && c.messages[0] == Greeting
  }

  /** The send guard: `inputValue.trim()` is not empty. */
  predicate CanSend(input: string) {
    Trim(input) != []
  }

  /** `handleSendMessage` up to the timer: append the input verbatim as a user
      message, clear the box, show the indicator, schedule one reply. */
  function Send(c: Chat, id: string): Chat {
    if !CanSend(c.input) then c
    else Chat(c.messages + [Message(id, User, c.input)], "", true, c.pendingReplies + 1)
  }

  /** One reply timer fires: append the canned reply, hide the indicator. */
  function Reply(c: Chat, id: string): Chat
    requires c.pendingReplies > 0
  {
    Chat(c.messages + [Message(id, Ai, ReplyText)], c.input, false, c.pendingReplies - 1)
  }

  /** "New Contract": the transcript becomes its first message alone. Pending
      reply timers are not cancelled and the indicator is left as it is. */
  function ResetTranscript(c: Chat): Chat
    requires c.messages != []
  {
    c.(messages := [c.messages[0]])
  }

  /** The user events and timer firings that drive the panel. */
  datatype Event = Type(text: string) | SendMessage(id: string) | ReplyArrives(id: string) | Reset

  /** An event can happen in `c`: a reply only when one is scheduled, a reset
      only on a non-empty transcript. */
  predicate Enabled(c: Chat, e: Event) {
    match e
    case ReplyArrives(_) => c.pendingReplies > 0
    case Reset => c.messages != []
    case _ => true
  }

  function Step(c: Chat, e: Event): Chat
    requires Enabled(c, e)
  {
    match e
    case Type(text) => c.(input := text)
    case SendMessage(id) => Send(c, id)
    case ReplyArrives(id) => Reply(c, id)
    case Reset => ResetTranscript(c)
  }

  /** Every event of `es` is enabled when it happens. */
  predicate Runs(c: Chat, es: seq<Event>)
    decreases |es|
  {
    es == [] || (Enabled(c, es[0]) && Runs(Step(c, es[0]), es[1..]))
  }

  function Run(c: Chat, es: seq<Event>): Chat
    requires Runs(c, es)
    decreases |es|
  {
    if es == [] then c else Run(Step(c, es[0]), es[1..])
  }

  /** How many messages of the transcript the given author wrote. */
  function CountBy(ms: seq<Message>, a: Author): (n: nat)
    ensures n <= |ms|
  {
    if ms == [] then 0 else (if ms[0].author == a then 1 else 0) + CountBy(ms[1..], a)
  }

  lemma {:induction false} CountByAppend(ms: seq<Message>, m: Message, a: Author)
    ensures CountBy(ms + [m], a) == CountBy(ms, a) + (if m.author == a then 1 else 0)
  {
    if ms != [] {
      assert (ms + [m])[1..] == ms[1..] + [m];
      CountByAppend(ms[1..], m, a);
    }
  }

  /** The send guard: sending changes nothing exactly when the input is only
      whitespace. */
  lemma SendGuard(c: Chat, id: string)
    ensures Send(c, id) == c <==> forall i :: 0 <= i < |c.input| ==> IsSpace(c.input[i])
  {
    if CanSend(c.input) {
      assert |Send(c, id).messages| == |c.messages| + 1;
    }
  }

  /** A successful send appends one user message carrying the input verbatim,
      keeps every earlier message, empties the input box, turns the typing
      indicator on and schedules one reply. */
  lemma SendAppends(c: Chat, id: string)
    requires CanSend(c.input)
    ensures var r := Send(c, id);
      |r.messages| == |c.messages| + 1 && r.messages[..|c.messages|] == c.messages
      && r.messages[|c.messages|] == Message(id, User, c.input)
      && r.input == "" && r.typing && r.pendingReplies == c.pendingReplies + 1
  {
  }

  /** A reply appends one AI message with the canned text, keeps every earlier
      message, and turns the typing indicator off. */
  lemma ReplyAppends(c: Chat, id: string)
    requires c.pendingReplies > 0
    ensures var r := Reply(c, id);
      |r.messages| == |c.messages| + 1 && r.messages[..|c.messages|] == c.messages
      && r.messages[|c.messages|] == Message(id, Ai, ReplyText)
      && !r.typing && r.input == c.input
  {
  }

  /** "New Contract" on a transcript that opens with the greeting leaves
      exactly the greeting. */
  lemma NewContractKeepsGreeting(c: Chat)
    requires StartsWithGreeting(c)
    ensures ResetTranscript(c).messages == [Greeting]
  {
  }

  /** Every event keeps the greeting at index 0. */
  lemma StepKeepsGreeting(c: Chat, e: Event)
    requires StartsWithGreeting(c) && Enabled(c, e)
    ensures StartsWithGreeting(Step(c, e))
  {
  }

  /** Through any run of events, the greeting stays first. */
  lemma {:induction false} RunKeepsGreeting(c: Chat, es: seq<Event>)
    requires StartsWithGreeting(c) && Runs(c, es)
    ensures StartsWithGreeting(Run(c, es))
    decreases |es|
  {
    if es != [] {
      StepKeepsGreeting(c, es[0]);
      RunKeepsGreeting(Step(c, es[0]), es[1..]);
    }
  }

  /** Every user message has been answered or has its reply scheduled. */
  predicate Balanced(c: Chat) {
    CountBy(c.messages, User) + 1 == CountBy(c.messages, Ai) + c.pendingReplies
  }

  /** Typing, sending and replies keep the balance. */
  lemma StepKeepsBalance(c: Chat, e: Event)
    requires Balanced(c) && Enabled(c, e) && !e.Reset?
    ensures Balanced(Step(c, e))
  {
    match e
    case Type(_) =>
    case SendMessage(id) =>
      if CanSend(c.input) {
        CountByAppend(c.messages, Message(id, User, c.input), User);
        CountByAppend(c.messages, Message(id, User, c.input), Ai);
      }
    case ReplyArrives(id) =>
      CountByAppend(c.messages, Message(id, Ai, ReplyText), User);
      CountByAppend(c.messages, Message(id, Ai, ReplyText), Ai);
  }

  /** Each send schedules its own reply: in a run without resets, replies
      shown plus replies pending equal the user messages sent, so once no
      reply is pending there are as many replies as sends. */
  lemma {:induction false} RunKeepsBalance(c: Chat, es: seq<Event>)
    requires Balanced(c) && Runs(c, es)
    requires forall k :: 0 <= k < |es| ==> !es[k].Reset?
    ensures Balanced(Run(c, es))
    decreases |es|
  {
    if es != [] {
      StepKeepsBalance(c, es[0]);
      RunKeepsBalance(Step(c, es[0]), es[1..]);
    }
  }

  /** From the opening state, a run without resets that leaves no reply
      pending shows exactly one AI message per user message, plus the
      greeting: n sends yield n replies. */
  lemma RepliesMatchSends(es: seq<Event>)
    requires Runs(Initial, es)
    requires forall k :: 0 <= k < |es| ==> !es[k].Reset?
    requires Run(Initial, es).pendingReplies == 0
    ensures CountBy(Run(Initial, es).messages, Ai) == CountBy(Run(Initial, es).messages, User) + 1
  {
    RunKeepsBalance(Initial, es);
  }

  /** Every user message on screen is answered or has its reply scheduled;
      unlike the balance, this survives "New Contract". */
  predicate Answered(c: Chat) {
    CountBy(c.messages, User) + 1 <= CountBy(c.messages, Ai) + c.pendingReplies
  }

  lemma StepKeepsAnswered(c: Chat, e: Event)
    requires Answered(c) && StartsWithGreeting(c) && Enabled(c, e)
    ensures Answered(Step(c, e))
  {
    match e
    case Type(_) =>
    case SendMessage(id) =>
      if CanSend(c.input) {
        CountByAppend(c.messages, Message(id, User, c.input), User);
        CountByAppend(c.messages, Message(id, User, c.input), Ai);
      }
    case ReplyArrives(id) =>
      CountByAppend(c.messages, Message(id, Ai, ReplyText), User);
      CountByAppend(c.messages, Message(id, Ai, ReplyText), Ai);
    case Reset =>
      assert ResetTranscript(c).messages == [Greeting];
      assert CountBy([Greeting], Ai) == 1;
  }

  lemma {:induction false} RunKeepsAnswered(c: Chat, es: seq<Event>)
    requires Answered(c) && StartsWithGreeting(c) && Runs(c, es)
    ensures Answered(Run(c, es))
    decreases |es|
  {
    if es != [] {
      StepKeepsAnswered(c, es[0]);
      StepKeepsGreeting(c, es[0]);
      RunKeepsAnswered(Step(c, es[0]), es[1..]);
    }
  }

  lemma InitialBalanced()
    ensures Balanced(Initial) && StartsWithGreeting(Initial)
  {
  }

  /** "New Contract" does not cancel scheduled replies: a reply that fires
      after the reset lands right after the greeting. */
  lemma ReplyAfterReset(c: Chat, id: string)
    requires StartsWithGreeting(c) && c.pendingReplies > 0
    ensures Reply(ResetTranscript(c), id).messages == [Greeting, Message(id, Ai, ReplyText)]
  {
  }

  /** The typing indicator is a single flag: after two sends, the first reply
      turns it off although the second reply is still scheduled. */
  lemma TypingOffWhileReplyPending(c: Chat, text: string, first: string, second: string, reply: string)
    requires CanSend(c.input) && CanSend(text)
    ensures var es := [SendMessage(first), Type(text), SendMessage(second), ReplyArrives(reply)];
      Runs(c, es) && !Run(c, es).typing && Run(c, es).pendingReplies == c.pendingReplies + 1
  {
    var es := [SendMessage(first), Type(text), SendMessage(second), ReplyArrives(reply)];
    var c1 := Step(c, es[0]);
    var c2 := Step(c1, es[1]);
    var c3 := Step(c2, es[2]);
    var c4 := Step(c3, es[3]);
    assert Runs(c4, es[4..]);
    assert Runs(c3, es[3..]);
    assert Runs(c2, es[2..]);
    assert Runs(c1, es[1..]);
    assert Run(c, es) == Run(c1, es[1..]) == Run(c2, es[2..]) == Run(c3, es[3..]) == c4;
  }

  /** The component's state. */
  class ContractCopilot {
    var messages: seq<Message>
    var inputValue: string
    var isTyping: bool
    var pendingReplies: nat

    function State(): Chat
      reads this
    {
      Chat(messages, inputValue, isTyping, pendingReplies)
    }

    ghost predicate Valid()
      reads this
    {
      StartsWithGreeting(State())
    }

    constructor ()
      ensures Valid() && State() == Initial
    {
      messages := [Greeting];
      inputValue := "";
      isTyping := false;
      pendingReplies := 0;
    }

    /** The input box's `onChange`. */
    method SetInputValue(text: string)
      requires Valid()
      modifies this
      ensures Valid() && State() == Step(old(State()), Type(text))
      ensures inputValue == text
    {
      inputValue := text;
    }

    /** `handleSendMessage()`; `id` is the id drawn for the user message. */
    method HandleSendMessage(id: string)
      requires Valid()
      modifies this
      ensures Valid() && State() == Send(old(State()), id)
      ensures !CanSend(old(inputValue)) ==> unchanged(this)
      ensures CanSend(old(inputValue)) ==>
        messages == old(messages) + [Message(id, User, old(inputValue))]
        && inputValue == "" && isTyping && pendingReplies == old(pendingReplies) + 1
    {
      if Trim(inputValue) == [] {
        return;
      }
      var userMessage := Message(id, User, inputValue);
      messages := messages + [userMessage];
      inputValue := "";
      isTyping := true;
      pendingReplies := pendingReplies + 1;
    }

    /** One scheduled reply timer fires; `id` is the id drawn for the reply. */
    method DeliverReply(id: string)
      requires Valid() && pendingReplies > 0
      modifies this
      ensures Valid() && State() == Reply(old(State()), id)
      ensures messages == old(messages) + [Message(id, Ai, ReplyText)]
      ensures !isTyping && inputValue == old(inputValue) && pendingReplies == old(pendingReplies) - 1
    {
      messages := messages + [Message(id, Ai, ReplyText)];
      isTyping := false;
      pendingReplies := pendingReplies - 1;
    }

    /** The "New Contract" button. */
    method NewContract()
      requires Valid()
      modifies this
      ensures Valid() && State() == ResetTranscript(old(State()))
      ensures messages == [Greeting]
      ensures inputValue == old(inputValue) && isTyping == old(isTyping) && pendingReplies == old(pendingReplies)
    {
      messages := [messages[0]];
    }
  }
}
