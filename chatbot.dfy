/**
 * The floating assistant: a message log that starts with two greetings and
 * only grows, quick actions that post the user's choice and, after a short
 * delay, the canned answer for it, and an open/closed toggle. Message ids
 * come from the clock and are taken here as a parameter.
 */
module Chatbot {

  datatype Sender = User | Bot

  datatype Message = Message(id: int, text: string, sender: Sender)

  datatype QuickAction = QuickAction(caption: string, value: string)

  const INITIAL_MESSAGES: seq<Message> := [
    Message(1, "Hi there! 👋 I'm your IntervAI Assistant.", Bot),
    Message(2, "I can help you navigate the platform or give you quick interview tips. What's on your mind?", Bot)
  ]

  const QUICK_ACTIONS: seq<QuickAction> := [
    QuickAction("🚀 Start Mock Interview", "start_mock"),
    QuickAction("📄 Resume Feedback", "resume_help"),
    QuickAction("💡 Quick Tips", "interview_tips"),
    QuickAction("⚙️ How it works", "how_it_works")
  ]

  const BOT_RESPONSES: map<string, string> := map[
    "start_mock" := "Great choice! Head over to the 'Mock Interviews' tab in the sidebar to configure your session. You can choose your role, difficulty, and focus areas there.",
    "resume_help" := "You can upload your resume in the 'Resumes' section. Our AI will analyze it against common job descriptions and give you a score!",
    "interview_tips" := "Quick tip: Always follow the STAR method (Situation, Task, Action, Result) for behavioral questions. It keeps your answers structured and impactful!",
    "how_it_works" := "IntervAI uses advanced AI to simulate real-world interviews. We provide voice-based interaction, real-time feedback, and performance analytics to help you improve."
  ]

  /** The answer for a value with no (or an empty) canned response. */
  const FALLBACK: string := "I'm not sure about that, but I'm learning every day!"

  /** `BOT_RESPONSES[value] || FALLBACK`. */
  function Reply(value: string): (r: string)
    ensures r != ""
    ensures value in BOT_RESPONSES ==> r == BOT_RESPONSES[value]
    ensures value !in BOT_RESPONSES ==> r == FALLBACK
  {
    if value in BOT_RESPONSES && BOT_RESPONSES[value] != "" then BOT_RESPONSES[value] else FALLBACK
  }

  /** Every quick action has a canned answer, so none of them gets the fallback. */
  lemma QuickActionsAnswered()
    ensures forall a :: a in QUICK_ACTIONS ==> a.value in BOT_RESPONSES && Reply(a.value) != FALLBACK
  {
  }

  /** The number of messages from one sender. */
  function CountFrom(ms: seq<Message>, s: Sender): nat
    decreases |ms|
  {
    if ms == [] then 0
    else CountFrom(ms[..|ms| - 1], s) + (if ms[|ms| - 1].sender == s then 1 else 0)
  }

  /** Appending a message adds one to its sender's count and nothing to the other's. */
  lemma CountFromAppend(ms: seq<Message>, m: Message, s: Sender)
    ensures CountFrom(ms + [m], s) == CountFrom(ms, s) + (if m.sender == s then 1 else 0)
  {
    assert (ms + [m])[..|ms|] == ms;
  }

  class ChatbotWidget {
    var isOpen: bool
    var messages: seq<Message>
    /** Values of the actions whose 600 ms reply timeout is still scheduled, oldest first. */
    var pendingReplies: seq<string>

    /**
     * The log keeps the two greetings at its head, and every user message is
     * answered by one bot message, either already posted or still pending.
     */
    ghost predicate Valid()
      reads this
    {
      && INITIAL_MESSAGES <= messages
      && CountFrom(messages, User) + |INITIAL_MESSAGES| == CountFrom(messages, Bot) + |pendingReplies|
    }

    constructor ()
      ensures Valid()
      ensures !isOpen && messages == INITIAL_MESSAGES && pendingReplies == []
    {
      isOpen, messages, pendingReplies := false, INITIAL_MESSAGES, [];
      assert INITIAL_MESSAGES[..1] == [INITIAL_MESSAGES[0]];
    }

    /** `handleAction`: post the action's caption as the user, and schedule the reply. */
    method HandleAction(action: QuickAction, now: int)
      requires Valid()
      modifies this`messages, this`pendingReplies
      ensures Valid()
      ensures messages == old(messages) + [Message(now, action.caption, User)]
      ensures pendingReplies == old(pendingReplies) + [action.value]
    {
      CountFromAppend(messages, Message(now, action.caption, User), User);
      CountFromAppend(messages, Message(now, action.caption, User), Bot);
      messages := messages + [Message(now, action.caption, User)];
      pendingReplies := pendingReplies + [action.value];
    }

    /** The oldest scheduled reply fires and posts the answer as the bot. */
    method BotReplyDue(now: int)
      requires Valid() && pendingReplies != []
      modifies this`messages, this`pendingReplies
      ensures Valid()
      ensures messages == old(messages) + [Message(now + 1, Reply(old(pendingReplies)[0]), Bot)]
      ensures pendingReplies == old(pendingReplies)[1..]
    {
      var m := Message(now + 1, Reply(pendingReplies[0]), Bot);
      CountFromAppend(messages, m, User);
      CountFromAppend(messages, m, Bot);
      messages := messages + [m];
      pendingReplies := pendingReplies[1..];
    }

    /** `toggleChat`. */
    method ToggleChat()
      modifies this`isOpen
      ensures isOpen == !old(isOpen)
    {
      isOpen := !isOpen;
    }
  }

  /**
   * One quick action from the mounted widget, followed by its reply: the log
   * is the greetings, the caption and the canned answer, in that order; and
   * opening and closing the window leaves it closed.
   */
  method QuickActionExchange(k: nat, now: int, later: int) returns (log: seq<Message>, open: bool)
    requires k < |QUICK_ACTIONS|
    ensures log == INITIAL_MESSAGES + [Message(now, QUICK_ACTIONS[k].caption, User),
                                      Message(later + 1, BOT_RESPONSES[QUICK_ACTIONS[k].value], Bot)]
    ensures !open
  {
    var w := new ChatbotWidget();
    w.ToggleChat();
    w.HandleAction(QUICK_ACTIONS[k], now);
    w.BotReplyDue(later);
    w.ToggleChat();
    log, open := w.messages, w.isOpen;
  }
}
