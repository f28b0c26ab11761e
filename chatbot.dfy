/**
 * The keyword chatbot (src/components/AiChatBot.tsx): an ordered table of
 * keyword rules tried against the lower-cased message, and the message list
 * that sending and the delayed reply append to.
 */
module ChatBot {
  import opened Wrappers
  import opened Text

  const Greeting := "Hello! I'm MindCare AI, your mental health assistant. How can I help you today?"

  const HelloResponse := "Hello! How are you feeling today?"
  const TherapyResponse := "We offer various therapy services. Would you like to schedule an appointment with one of our therapists?"
  const AppointmentResponse := "To schedule an appointment, you can fill out our contact form or call us at (555) 123-4567."
  const AnxietyResponse := "Anxiety is a common feeling. Deep breathing exercises might help in the moment. Our specialists can provide more personalized strategies."
  const DepressionResponse := "I'm sorry to hear you're feeling this way. It's important to talk to a professional. Would you like information about our depression treatments?"
  const HelpResponse := "I'm here to help! I can provide information about our services, help schedule appointments, or offer general mental health resources."
  const DefaultResponse := "Thank you for your message. If you have specific questions about our services or would like to speak with a specialist, please let me know."

  /** The reply chosen for a message: the if/else chain over its lower-cased text. */
  function BotResponse(message: string): string {
    var m := Lower(message);
    if Contains(m, "hello") || Contains(m, "hi") || Contains(m, "hey") then HelloResponse
    else if Contains(m, "therapy") || Contains(m, "therapist") then TherapyResponse
    else if Contains(m, "appointment") || Contains(m, "schedule") then AppointmentResponse
    else if Contains(m, "anxiety") || Contains(m, "anxious") || Contains(m, "worried") then AnxietyResponse
    else if Contains(m, "depress") || Contains(m, "sad") || Contains(m, "down") then DepressionResponse
    else if Contains(m, "help") then HelpResponse
    else DefaultResponse
  }

  /** One rule: any of its keywords as a substring selects its response. */
  datatype Rule = Rule(keywords: seq<string>, response: string)

  /** The rules in the order they are tried. */
  const Rules: seq<Rule> := [
    Rule(["hello", "hi", "hey"], HelloResponse),
    Rule(["therapy", "therapist"], TherapyResponse),
    Rule(["appointment", "schedule"], AppointmentResponse),
    Rule(["anxiety", "anxious", "worried"], AnxietyResponse),
    Rule(["depress", "sad", "down"], DepressionResponse),
    Rule(["help"], HelpResponse)
  ]

  predicate MentionsAny(text: string, keywords: seq<string>) {
    exists k :: 0 <= k < |keywords| && Contains(text, keywords[k])
  }

  /** The response of the first rule with a keyword in `text`, if any rule has one. */
  function FirstMatch(rules: seq<Rule>, text: string): (r: Option<string>)
    ensures r.None? <==> forall i :: 0 <= i < |rules| ==> !MentionsAny(text, rules[i].keywords)
    ensures r.Some? ==> exists i :: 0 <= i < |rules| && r.value == rules[i].response
                                    && MentionsAny(text, rules[i].keywords)
                                    && forall j :: 0 <= j < i ==> !MentionsAny(text, rules[j].keywords)
  {
    if rules == [] then None
    else if MentionsAny(text, rules[0].keywords) then Some(rules[0].response)
    else
      var rest := FirstMatch(rules[1..], text);
      assert forall i :: 1 <= i < |rules| ==> rules[i] == rules[1..][i - 1];
      rest
  }

  /** The chain is the ordered rule table: the first rule that matches answers, and the default answers when none does. */
  lemma BotResponseIsFirstMatch(message: string)
    ensures BotResponse(message) == FirstMatch(Rules, Lower(message)).GetOr(DefaultResponse)
  {
    var m := Lower(message);
    KeywordsOf(m, ["hello", "hi", "hey"]);
    KeywordsOf(m, ["therapy", "therapist"]);
    KeywordsOf(m, ["appointment", "schedule"]);
    KeywordsOf(m, ["anxiety", "anxious", "worried"]);
    KeywordsOf(m, ["depress", "sad", "down"]);
    KeywordsOf(m, ["help"]);
    FirstMatchStep(Rules, 5, m);
    FirstMatchStep(Rules, 4, m);
    FirstMatchStep(Rules, 3, m);
    FirstMatchStep(Rules, 2, m);
    FirstMatchStep(Rules, 1, m);
    FirstMatchStep(Rules, 0, m);
    assert FirstMatch(Rules[6..], m) == None;
  }

  /** Trying the rules from `k` on: rule `k` answers if it matches, otherwise the rules after it. */
  lemma FirstMatchStep(rules: seq<Rule>, k: nat, text: string)
    requires k < |rules|
    ensures FirstMatch(rules[k..], text) ==
      if MentionsAny(text, rules[k].keywords) then Some(rules[k].response) else FirstMatch(rules[k + 1..], text)
  {
    assert rules[k..][1..] == rules[k + 1..];
  }

  /** `MentionsAny` over a literal list of at most three keywords is the disjunction of its members. */
  lemma KeywordsOf(text: string, keywords: seq<string>)
    requires 1 <= |keywords| <= 3
    ensures MentionsAny(text, keywords) <==>
      || Contains(text, keywords[0])
      || (|keywords| > 1 && Contains(text, keywords[1]))
      || (|keywords| > 2 && Contains(text, keywords[2]))
  {
  }

  /** Matching ignores case: messages equal up to ASCII case get the same response. */
  lemma ResponseIgnoresCase(message1: string, message2: string)
    requires Lower(message1) == Lower(message2)
    ensures BotResponse(message1) == BotResponse(message2)
  {
  }

  /** Keywords are matched inside words, and the greeting is tried first: "hi" in "which" wins over "therapist". */
  lemma GreetingShadowsInsideWords()
    ensures BotResponse("Which therapist?") == HelloResponse
  {
    var m := Lower("Which therapist?");
    assert m[1..3] == "hi";
    assert OccursAt(m, "hi", 1);
  }

  /** A message with no keyword at all gets the default. */
  lemma DefaultWhenNothingMatches(message: string)
    requires forall i :: 0 <= i < |Rules| ==> !MentionsAny(Lower(message), Rules[i].keywords)
    ensures BotResponse(message) == DefaultResponse
  {
    BotResponseIsFirstMatch(message);
  }

  datatype Message = Message(id: int, text: string, isBot: bool, timestamp: int)

  /** What the delayed reply remembers from the send: the text sent and the list length at that moment. */
  datatype PendingReply = PendingReply(text: string, lengthAtSend: nat)

  /** The user's message appended, numbered one past the current length. */
  function WithUserMessage(messages: seq<Message>, text: string, now: int): (r: seq<Message>)
    ensures |r| == |messages| + 1 && r[..|messages|] == messages
    ensures r[|messages|] == Message(|messages| + 1, text, false, now)
  {
    messages + [Message(|messages| + 1, text, false, now)]
  }

  /** The reply appended, numbered two past the length the list had when the message was sent. */
  function WithBotMessage(messages: seq<Message>, pending: PendingReply, now: int): (r: seq<Message>)
    ensures |r| == |messages| + 1 && r[..|messages|] == messages
    ensures r[|messages|] == Message(pending.lengthAtSend + 2, BotResponse(pending.text), true, now)
  {
    messages + [Message(pending.lengthAtSend + 2, BotResponse(pending.text), true, now)]
  }

  /** The i-th message (from 0) carries id i + 1. */
  predicate SequentialIds(messages: seq<Message>) {
    forall i :: 0 <= i < |messages| ==> messages[i].id == i + 1
  }

  /** A send answered before the next send keeps the numbering 1, 2, 3, ... */
  lemma SendThenReplyKeepsIds(messages: seq<Message>, text: string, t1: int, t2: int)
    requires SequentialIds(messages)
    ensures SequentialIds(WithBotMessage(WithUserMessage(messages, text, t1),
                                         PendingReply(text, |messages|), t2))
  {
    var sent := WithUserMessage(messages, text, t1);
    var replied := WithBotMessage(sent, PendingReply(text, |messages|), t2);
    forall i | 0 <= i < |replied| ensures replied[i].id == i + 1 {
      if i < |messages| {
        assert replied[i] == sent[..|sent|][i] == messages[i];
      }
    }
  }

  /**
   * Two sends before the first reply give the second message and the first
   * reply the same id, because the reply is numbered from the length the list
   * had when its own message was sent.
   */
  lemma TwoSendsDuplicateId(messages: seq<Message>, text1: string, text2: string, t1: int, t2: int, t3: int)
    ensures var r := WithBotMessage(WithUserMessage(WithUserMessage(messages, text1, t1), text2, t2),
                                    PendingReply(text1, |messages|), t3);
            |r| == |messages| + 3 && r[|messages| + 1].id == r[|messages| + 2].id
  {
    var once := WithUserMessage(messages, text1, t1);
    var twice := WithUserMessage(once, text2, t2);
    var r := WithBotMessage(twice, PendingReply(text1, |messages|), t3);
    assert r[|messages| + 1] == twice[|messages| + 1];
  }

  /** The chat widget's state. */
  class ChatWidget {
    var isOpen: bool
    var inputMessage: string
    var messages: seq<Message>
    var isTyping: bool

    /** A closed widget whose list holds only the bot's greeting, numbered 1. */
    constructor(now: int)
      ensures !isOpen && inputMessage == "" && !isTyping
      ensures messages == [Message(1, Greeting, true, now)]
      ensures SequentialIds(messages)
    {
      isOpen := false;
      inputMessage := "";
      messages := [Message(1, Greeting, true, now)];
      isTyping := false;
    }

    method ToggleChat()
      modifies this`isOpen
      ensures isOpen == !old(isOpen)
    {
      isOpen := !isOpen;
    }

    method HandleInputChange(value: string)
      modifies this`inputMessage
      ensures inputMessage == value
    {
      inputMessage := value;
    }

    /**
     * Sending: a blank input does nothing. Otherwise the trimmed text is
     * appended as the user's message, the input is cleared and the bot is
     * typing; the reply is scheduled with what it will remember.
     */
    method HandleSendMessage(now: int) returns (pending: Option<PendingReply>)
      modifies this`messages, this`inputMessage, this`isTyping
      ensures IsBlank(old(inputMessage)) ==>
        && pending == None && messages == old(messages)
        && inputMessage == old(inputMessage) && isTyping == old(isTyping)
      ensures !IsBlank(old(inputMessage)) ==>
        && pending == Some(PendingReply(Trim(old(inputMessage)), |old(messages)|))
        && messages == WithUserMessage(old(messages), Trim(old(inputMessage)), now)
        && inputMessage == "" && isTyping
    {
      TrimEmptyIffBlank(inputMessage);
      var text := Trim(inputMessage);
      if text == "" {
        return None;
      }
      pending := Some(PendingReply(text, |messages|));
      messages := messages + [Message(|messages| + 1, text, false, now)];
      inputMessage := "";
      isTyping := true;
    }

    /** The delayed reply: the chosen response is appended as a bot message and typing stops. */
    method GenerateBotResponse(pending: PendingReply, now: int)
      modifies this`messages, this`isTyping
      ensures messages == WithBotMessage(old(messages), pending, now)
      ensures messages[..|old(messages)|] == old(messages)
      ensures !isTyping
    {
      messages := messages + [Message(pending.lengthAtSend + 2, BotResponse(pending.text), true, now)];
      isTyping := false;
    }
  }
}
