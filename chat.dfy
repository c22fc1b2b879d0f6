/** The person-to-person chat page: conversations with a message list
    each, an input box, a typing indicator, and a simulated reply 1.6
    seconds after every message sent. A scheduled reply is an entry of
    `pending` holding the chat it was sent in; `ReplyFires` is that timer
    going off, with the value `Math.random()` returned. */
module Chat {
  import opened Wrappers
  import opened Text
  import opened Lists

  datatype Message = Message(sender: String, content: String, isOwn: bool)

  datatype Conversation = Conversation(id: int, name: String, avatar: String)

  const Conversations: seq<Conversation> := [
    Conversation(1, "Sarah Chen", "SC"),
    Conversation(2, "Marcus Johnson", "MJ"),
    Conversation(3, "Elena Rodriguez", "ER"),
    Conversation(4, "David Kim", "DK")]

  const Responses: seq<String> := [
    "That's a great point! Let me think about that.",
    "I agree! When would be a good time to discuss this further?",
    "Interesting approach. Have you considered the scalability aspects?",
    "I can help with that. Let me check my schedule.",
    "That makes sense. What's the next step?"]

  /** The messages the page starts with, for the first two conversations. */
  const InitialMessages: map<int, seq<Message>> :=
    map[
      1 := [
        Message("Sarah Chen", "Hey! I saw your project idea about the "
          + "AI-powered task management app. Really "
          + "interesting concept!", false),
        Message("You", "Thanks Sarah! I've been thinking about this "
          + "for a while. The current task management "
          + "tools lack intelligent prioritization.", true),
        Message("Sarah Chen", "Exactly! I have experience building ML "
          + "models for productivity apps. Would love to "
          + "discuss potential collaboration.", false),
        Message("You", "That sounds perfect! I was actually looking "
          + "for someone with ML expertise. What kind of "
          + "models have you worked with?", true),
        Message("Sarah Chen", "I've built recommendation systems and NLP "
          + "models for content analysis. Also worked on "
          + "time-series forecasting for resource "
          + "planning.", false),
        Message("You", "Impressive! The time-series forecasting "
          + "could be really useful for deadline "
          + "prediction. Are you available for a call "
          + "this week?", true),
        Message("Sarah Chen", "Absolutely! I'm free Thursday afternoon or "
          + "Friday morning. Which works better for you?", false)],
      2 := [
        Message("Marcus Johnson", "Hi there! I came across your fintech idea "
          + "and I'm really excited about the market "
          + "opportunity.", false),
        Message("You", "Hi Marcus! Great to meet you. I see you have "
          + "extensive marketing experience. That's "
          + "exactly what I need for this project.", true),
        Message("Marcus Johnson", "I've helped scale 3 fintech startups in the "
          + "past 5 years. Happy to share some insights "
          + "and discuss how we could work together.", false)]]

  predicate IsConversation(id: int) {
    exists k :: 0 <= k < |Conversations| && Conversations[k].id == id
  }

  /** `messages[chat] || []`. */
  function ListOf(chats: map<int, seq<Message>>, chat: int): seq<Message> {
    if chat in chats then chats[chat] else []
  }

  /** `{...prev, [chat]: [...(prev[chat] || []), m]}`: one more message at
      the end of one chat's list, created if absent; every other chat
      keeps its list. */
  function AppendTo(chats: map<int, seq<Message>>, chat: int, m: Message): map<int, seq<Message>> {
    chats[chat := ListOf(chats, chat) + [m]]
  }

  lemma AppendToSpec(chats: map<int, seq<Message>>, chat: int, m: Message)
    ensures AppendTo(chats, chat, m).Keys == chats.Keys + {chat}
    ensures ListOf(AppendTo(chats, chat, m), chat) == ListOf(chats, chat) + [m]
    ensures forall c :: c != chat ==> ListOf(AppendTo(chats, chat, m), c) == ListOf(chats, c)
  {
  }

  /** `responses[Math.floor(Math.random() * responses.length)]` for a
      random value `r` in `[0, 1)`. */
  function PickResponse(r: real): (s: String)
    requires 0.0 <= r < 1.0
    ensures s in Responses
  {
    var k := (r * |Responses| as real).Floor;
    assert 0 <= k < |Responses|;
    Responses[k]
  }

  /** The name of the conversation with id `chat`. */
  function NameOf(chat: int): (n: Option<String>)
    ensures n.Some? <==> IsConversation(chat)
  {
    match Find(Conversations, (c: Conversation) => c.id == chat)
    case None => None
    case Some(c) => Some(c.name)
  }

  /** The name found belongs to a conversation with that id. */
  lemma NameOfEntry(chat: int)
    requires IsConversation(chat)
    ensures exists k :: 0 <= k < |Conversations| && Conversations[k] == Conversation(chat, NameOf(chat).value, Conversations[k].avatar)
  {
  }

  class ChatPage {
    var selectedChat: int
    var message: String
    var isTyping: bool
    var messages: map<int, seq<Message>>
    /** The replies scheduled and not yet delivered, oldest first, each
        with the chat it was sent in. */
    var pending: seq<int>

    ghost predicate Valid()
      reads this
    {
      IsConversation(selectedChat)
    }

    constructor ()
      ensures Valid()
      ensures selectedChat == 1 && message == [] && !isTyping
      ensures messages == InitialMessages && pending == []
    {
      selectedChat, message, isTyping := 1, [], false;
      messages, pending := InitialMessages, [];
      assert Conversations[0].id == 1;
    }

    /** `currentMessages`. */
    function CurrentMessages(): (r: seq<Message>)
      reads this
      ensures selectedChat in messages ==> r == messages[selectedChat]
      ensures selectedChat !in messages ==> r == []
    {
      ListOf(messages, selectedChat)
    }

    /** A click on entry `k` of the conversation list. */
    method SelectConversation(k: nat)
      requires Valid() && k < |Conversations|
      modifies this
      ensures Valid()
      ensures selectedChat == Conversations[k].id
      ensures message == old(message) && isTyping == old(isTyping)
      ensures messages == old(messages) && pending == old(pending)
    {
      selectedChat := Conversations[k].id;
    }

    method SetMessage(value: String)
      modifies this
      ensures message == value
      ensures selectedChat == old(selectedChat) && isTyping == old(isTyping)
      ensures messages == old(messages) && pending == old(pending)
    {
      message := value;
    }

    /** `handleSendMessage`: a blank input changes nothing; otherwise the
        text goes to the end of the selected chat as an own message, the
        input is cleared, the typing indicator comes on and a reply is
        scheduled for this chat. */
    method HandleSendMessage()
      requires Valid()
      modifies this
      ensures Valid()
      ensures IsBlank(old(message)) ==>
        message == old(message) && isTyping == old(isTyping)
        && messages == old(messages) && pending == old(pending)
      ensures !IsBlank(old(message)) ==>
        messages == AppendTo(old(messages), old(selectedChat), Message("You", old(message), true))
        && message == [] && isTyping && pending == old(pending) + [old(selectedChat)]
      ensures selectedChat == old(selectedChat)
    {
      // `!message.trim()`, which holds exactly when the text is blank
      // (Text.TrimEmptyIffBlank).
      if IsBlank(message) {
        return;
      }
      messages := AppendTo(messages, selectedChat, Message("You", message, true));
      message := [];
      isTyping := true;
      pending := pending + [selectedChat];
    }

    /** The oldest scheduled reply arrives: a canned response from the
        partner of the chat the message was sent in, appended to that chat,
        and the typing indicator goes off. Were the chat not in the list,
        reading the partner's name would throw and the callback would stop
        before changing anything. */
    method ReplyFires(r: real)
      requires pending != [] && 0.0 <= r < 1.0
      modifies this
      ensures pending == old(pending[1..])
      ensures var chat := old(pending[0]);
        && (IsConversation(chat) ==>
              messages == AppendTo(old(messages), chat, Message(NameOf(chat).value, PickResponse(r), false))
              && !isTyping)
        && (!IsConversation(chat) ==> messages == old(messages) && isTyping == old(isTyping))
      ensures selectedChat == old(selectedChat) && message == old(message)
    {
      var chat := pending[0];
      pending := pending[1..];
      var name := NameOf(chat);
      if name.None? {
        return;
      }
      messages := AppendTo(messages, chat, Message(name.value, PickResponse(r), false));
      isTyping := false;
    }
  }
}
