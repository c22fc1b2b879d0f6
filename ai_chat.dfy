/** The AI assistant page: a welcome screen with quick prompts, a message
    list, and a canned assistant reply 1.5 seconds after every message.
    `pending` counts the replies scheduled and not yet delivered;
    `ReplyFires` is one such timer going off, with the value
    `Math.random()` returned. */
module AIChat {
  import opened Text

  datatype Kind = UserMessage | AiMessage

  datatype Message = Message(kind: Kind, content: String)

  const QuickPrompts: seq<String> := [
    "Help me refine my startup idea and identify key market opportunities",
    "What qualities should I look for in a co-founder for my tech startup?",
    "Create a go-to-market strategy for my SaaS product",
    "Help me validate my business model and find potential customers"]

  const Responses: seq<String> := [
    "Great question! "
      + "Here's my analysis of your startup challenge:\n\n"
      + "**1. Market Opportunity**: "
      + "First, let's validate the problem you're solving. "
      + "Are you addressing a real pain point that people are willing to pay for?\n\n"
      + "**2. Competitive Landscape**: "
      + "Research who else is in this space. "
      + "What makes your approach unique?\n\n"
      + "**3. Execution Strategy**: "
      + "Focus on building an MVP that tests your core hypothesis with real users.",
    "Based on successful startup patterns, I recommend focusing on:\n\n"
      + "\U{2022} **Customer Discovery**: "
      + "Start with 10-15 customer interviews to validate assumptions\n"
      + "\U{2022} **MVP Development**: "
      + "Build the smallest viable version that delivers core value\n"
      + "\U{2022} **Metrics Setup**: "
      + "Track key performance indicators from day one\n\n"
      + "Would you like me to dive deeper into any of these areas?",
    "Let me break this down strategically:\n\n"
      + "**Short-term (0-3 months):**\n"
      + "- Validate core assumptions through customer interviews\n"
      + "- Build and test initial prototype\n"
      + "- Define your value proposition clearly\n\n"
      + "**Medium-term (3-6 months):**\n"
      + "- Launch beta version to early adopters\n"
      + "- Gather user feedback and iterate\n"
      + "- Start building traction metrics\n\n"
      + "**Long-term (6+ months):**\n"
      + "- Scale based on learnings\n"
      + "- Consider fundraising if needed\n\n"
      + "What's your current stage in this journey?"]

  /** `generateAIResponse(message)`: one of the canned responses, picked by
      a random value `r` in `[0, 1)`; the message itself is not read. */
  function GenerateAIResponse(message: String, r: real): (s: String)
    requires 0.0 <= r < 1.0
    ensures s in Responses
  {
    var k := (r * |Responses| as real).Floor;
    assert 0 <= k < |Responses|;
    Responses[k]
  }

  class AIChatPage {
    var messages: seq<Message>
    var currentMessage: String
    var isTyping: bool
    var showWelcome: bool
    var pending: nat

    /** Once a message is sent the welcome screen stays hidden. */
    ghost predicate Valid()
      reads this
    {
      (messages != [] || pending > 0) ==> !showWelcome
    }

    constructor ()
      ensures Valid()
      ensures messages == [] && currentMessage == [] && !isTyping && showWelcome
      ensures pending == 0
    {
      messages, currentMessage, isTyping, showWelcome := [], [], false, true;
      pending := 0;
    }

    method SetCurrentMessage(value: String)
      modifies this
      ensures currentMessage == value
      ensures messages == old(messages) && isTyping == old(isTyping)
      ensures showWelcome == old(showWelcome) && pending == old(pending)
    {
      currentMessage := value;
    }

    /** `handleSendMessage`: a blank input changes nothing; otherwise the
        welcome screen goes, the text is appended as a user message, the
        input is cleared, the typing indicator comes on and a reply is
        scheduled. */
    method HandleSendMessage()
      requires Valid()
      modifies this
      ensures Valid()
      ensures IsBlank(old(currentMessage)) ==>
        messages == old(messages) && currentMessage == old(currentMessage)
        && isTyping == old(isTyping) && showWelcome == old(showWelcome) && pending == old(pending)
      ensures !IsBlank(old(currentMessage)) ==>
        messages == old(messages) + [Message(UserMessage, old(currentMessage))]
        && currentMessage == [] && isTyping && !showWelcome && pending == old(pending) + 1
    {
      // `!currentMessage.trim()`, which holds exactly when the text is blank
      // (Text.TrimEmptyIffBlank).
      if IsBlank(currentMessage) {
        return;
      }
      if showWelcome {
        showWelcome := false;
      }
      messages := messages + [Message(UserMessage, currentMessage)];
      currentMessage := [];
      isTyping := true;
      pending := pending + 1;
    }

    /** `handleKeyPress`: Enter without Shift sends. */
    method HandleKeyPress(key: String, shift: bool)
      requires Valid()
      modifies this
      ensures Valid()
      ensures !(key == "Enter" && !shift) ==>
        messages == old(messages) && currentMessage == old(currentMessage)
        && isTyping == old(isTyping) && showWelcome == old(showWelcome) && pending == old(pending)
      ensures key == "Enter" && !shift && IsBlank(old(currentMessage)) ==>
        messages == old(messages) && currentMessage == old(currentMessage)
        && isTyping == old(isTyping) && showWelcome == old(showWelcome) && pending == old(pending)
      ensures key == "Enter" && !shift && !IsBlank(old(currentMessage)) ==>
        messages == old(messages) + [Message(UserMessage, old(currentMessage))]
        && currentMessage == [] && isTyping && !showWelcome && pending == old(pending) + 1
    {
      if key == "Enter" && !shift {
        HandleSendMessage();
      }
    }

    /** A scheduled reply arrives: an assistant message at the end of the
        list, and the typing indicator goes off. */
    method ReplyFires(sent: String, r: real)
      requires Valid() && pending > 0 && 0.0 <= r < 1.0
      modifies this
      ensures Valid()
      ensures messages == old(messages) + [Message(AiMessage, GenerateAIResponse(sent, r))]
      ensures !isTyping && !showWelcome && pending == old(pending) - 1
      ensures currentMessage == old(currentMessage)
    {
      messages := messages + [Message(AiMessage, GenerateAIResponse(sent, r))];
      isTyping := false;
      pending := pending - 1;
    }

    /** `handleQuickPrompt(text)` for quick prompt `k`: fills the input and
        sends nothing. */
    method HandleQuickPrompt(k: nat)
      requires k < |QuickPrompts|
      modifies this
      ensures currentMessage == QuickPrompts[k]
      ensures messages == old(messages) && isTyping == old(isTyping)
      ensures showWelcome == old(showWelcome) && pending == old(pending)
    {
      currentMessage := QuickPrompts[k];
    }
  }
}
