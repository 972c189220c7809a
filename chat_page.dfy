/** The discovery chat page: a scripted interviewer that opens with the
    first of five fixed questions, asks each of the other four in reply to
    one message, and then answers every further message with the same
    closing summary.

    app/chat/page.tsx */
module ChatPage {
  import opened JsStrings

  datatype Role = User | Assistant

  datatype Message = Message(role: Role, content: string)

  const DiscoveryQuestions: seq<string> := [
    "Hey! I'm Scout, your AI market research agent. I'm here to help you understand your market and find your ideal customers. What are you building?",
    "Great! Tell me more about the problem you're solving. Who currently struggles with this problem the most?",
    "Interesting! What's your target market? Are you focused on B2B, B2C, or both?",
    "Got it. Do you have any idea who your main competitors are? Or what alternatives people currently use?",
    "Perfect! Based on what you've shared, I can help you with:\n\n1. Detailed ICP personas with pain points\n2. Competitive analysis\n3. Market size estimation\n4. Go-to-market channel recommendations\n\nWhat would you like to dive into first?"
  ]

  /** The closing message, character for character as the page has it
      (including its mis-decoded emoji). */
  const FinalSummary: string :=
    "Thanks for sharing all that! Based on our conversation, here's a quick summary:\n"
    + "\n"
    + "\U{00F0}\U{0178}\U{201C}\U{0160} **What I learned:**\n"
    + "- Your product targets a specific pain point\n"
    + "- You have a clear value proposition\n"
    + "- There's competition but also opportunity\n"
    + "\n"
    + "\U{00F0}\U{0178}\U{2019}\U{00A1} **Next Steps:**\n"
    + "\n"
    + "To give you a complete market research report with detailed ICP personas, competitive analysis, and market sizing, I'll need to do a deep dive. This typically includes:\n"
    + "\n"
    + "1. Analyzing 50+ competitors\n"
    + "2. Generating 3-5 detailed personas\n"
    + "3. Calculating TAM/SAM/SOM\n"
    + "4. Identifying best distribution channels\n"
    + "\n"
    + "**Note:** This demo shows Scout's conversational approach. In the full version, Scout uses real AI (Claude API) to generate comprehensive market research based on your specific business.\n"
    + "\n"
    + "Want to upgrade to get your full research report? \U{00F0}\U{0178}\U{0161}\U{20AC}"

  /** The contents of the assistant's messages, in order. */
  function AssistantContents(messages: seq<Message>): (contents: seq<string>)
    ensures |contents| <= |messages|
  {
    if messages == [] then []
    else if messages[0].role == Assistant then [messages[0].content] + AssistantContents(messages[1..])
    else AssistantContents(messages[1..])
  }

  /** Appending a message adds its content exactly when the assistant
      sent it. */
  lemma {:induction false} AssistantContentsAppend(messages: seq<Message>, m: Message)
    ensures AssistantContents(messages + [m]) ==
      AssistantContents(messages) + (if m.role == Assistant then [m.content] else [])
  {
    if messages != [] {
      assert (messages + [m])[1..] == messages[1..] + [m];
      AssistantContentsAppend(messages[1..], m);
    } else {
      assert messages + [m] == [m];
    }
  }

  /** A user message leaves the assistant's side of the conversation, and
      its first message, as they were. */
  lemma UserMessageKeepsScript(messages: seq<Message>, text: string)
    requires messages != []
    ensures AssistantContents(messages + [Message(User, text)]) == AssistantContents(messages)
    ensures (messages + [Message(User, text)])[0] == messages[0]
  {
    AssistantContentsAppend(messages, Message(User, text));
  }

  /** n copies of the closing summary. */
  function Summaries(n: nat): seq<string> {
    seq(n, _ => FinalSummary)
  }

  lemma SummariesSnoc(n: nat)
    ensures Summaries(n + 1) == Summaries(n) + [FinalSummary]
  {
  }

  lemma QuestionsSnoc(k: nat)
    requires k < |DiscoveryQuestions|
    ensures DiscoveryQuestions[..k + 1] == DiscoveryQuestions[..k] + [DiscoveryQuestions[k]]
  {
  }

  class ChatPage {
    var messages: seq<Message>
    var input: string
    var isLoading: bool
    var questionIndex: nat
    /** How many closing summaries have been sent. */
    ghost var summaries: nat

    /** The assistant has asked the questions up to `questionIndex`, in
        order and each once, and after the last one only the summary. */
    ghost predicate Valid()
      reads this
    {
      && questionIndex < |DiscoveryQuestions|
      && messages != [] && messages[0] == Message(Assistant, DiscoveryQuestions[0])
      && AssistantContents(messages) == DiscoveryQuestions[..questionIndex + 1] + Summaries(summaries)
      && (summaries > 0 ==> questionIndex == |DiscoveryQuestions| - 1)
    }

    /** The `useState` initial values: the first question, an empty input,
        nothing loading. */
    constructor ()
      ensures Valid()
      ensures messages == [Message(Assistant, DiscoveryQuestions[0])]
      ensures input == [] && !isLoading && questionIndex == 0
    {
      var greeting := [Message(Assistant, DiscoveryQuestions[0])];
      assert AssistantContents(greeting) == [DiscoveryQuestions[0]] by {
        assert greeting[1..] == [];
      }
      messages := greeting;
      input := [];
      isLoading := false;
      questionIndex := 0;
      summaries := 0;
    }

    /** The input box's `onChange`. */
    method SetInput(value: string)
      modifies this
      ensures input == value
      ensures messages == old(messages) && isLoading == old(isLoading) && questionIndex == old(questionIndex)
      ensures summaries == old(summaries)
    {
      input := value;
    }

    /** `handleSend`: ignored while the input is blank or a reply is
        pending; otherwise the user's text, untrimmed, is appended, the
        input cleared and a reply scheduled (`sent`). */
    method HandleSend() returns (sent: bool)
      requires Valid()
      modifies this
      ensures Valid()
      ensures sent <==> Trim(old(input)) != [] && !old(isLoading)
      ensures !sent ==>
        && messages == old(messages) && input == old(input)
        && isLoading == old(isLoading) && questionIndex == old(questionIndex)
      ensures sent ==>
        && messages == old(messages) + [Message(User, old(input))]
        && input == [] && isLoading && questionIndex == old(questionIndex)
      ensures summaries == old(summaries)
    {
      var blank := Trim(input) == [];
      if blank || isLoading {
        sent := false;
        return;
      }
      UserMessageKeepsScript(messages, input);
      messages := messages + [Message(User, input)];
      input := [];
      isLoading := true;
      sent := true;
    }

    /** The scheduled reply: the next question while there is one (and the
        index moves to it), the closing summary after the last (and the
        index stays). Loading ends either way. */
    method DeliverReply()
      requires Valid() && isLoading
      modifies this
      ensures Valid() && !isLoading
      ensures input == old(input)
      ensures old(questionIndex) + 1 < |DiscoveryQuestions| ==>
        && messages == old(messages) + [Message(Assistant, DiscoveryQuestions[old(questionIndex) + 1])]
        && questionIndex == old(questionIndex) + 1
      ensures old(questionIndex) + 1 >= |DiscoveryQuestions| ==>
        && messages == old(messages) + [Message(Assistant, FinalSummary)]
        && questionIndex == old(questionIndex)
    {
      var nextIndex := questionIndex + 1;
      if nextIndex < |DiscoveryQuestions| {
        var scoutResponse := Message(Assistant, DiscoveryQuestions[nextIndex]);
        AssistantContentsAppend(messages, scoutResponse);
        QuestionsSnoc(nextIndex);
        messages := messages + [scoutResponse];
        questionIndex := nextIndex;
      } else {
        var finalResponse := Message(Assistant, FinalSummary);
        AssistantContentsAppend(messages, finalResponse);
        SummariesSnoc(summaries);
        messages := messages + [finalResponse];
        summaries := summaries + 1;
      }
      isLoading := false;
    }
  }

  /** In any reachable state the assistant's k-th message is the k-th
      question for every question asked so far, and the conversation never
      skips ahead. */
  lemma QuestionsAskedInOrder(page: ChatPage, k: nat)
    requires page.Valid() && k <= page.questionIndex
    ensures k < |AssistantContents(page.messages)|
    ensures AssistantContents(page.messages)[k] == DiscoveryQuestions[k]
  {
  }
}
