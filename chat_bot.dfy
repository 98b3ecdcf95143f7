/** The chat widget (src/components/ChatBot.tsx), the near-duplicate of the
    full-page assistant: a second placeholder host in its configuration check,
    the fallback pool also in its `catch` block, no rendering hints. As
    written the file does not parse (`sendMessageToN8N` lacks its closing
    brace and the handlers use an undeclared suggestions feature); this
    module models the evident intent: two sibling functions, no suggestions. */
module ChatBot {
  import opened Js
  import opened Effects
  import opened Webhook
  import AIChatPage

  /** The second placeholder host the widget checks for, besides the page's
      `AIChatPage.Placeholder`, which it shares. */
  const ActualPlaceholder: string := "your-actual-n8n-instance.com"

  /** The guard of `sendMessageToN8N`: the environment variable is set, not
      empty, and contains neither placeholder host. */
  predicate Configured(url: Option<string>) {
    url.Some? && url.value != "" && !Contains(url.value, AIChatPage.Placeholder) && !Contains(url.value, ActualPlaceholder)
  }

  /** The replies drawn from at random, both when the webhook is not
      configured and in the `catch` block. */
  const FallbackResponses: seq<string> := [
    "I can help you with that! Let me suggest some options based on your preferences. What's your ideal travel style - adventure, relaxation, cultural exploration, or a mix?",
    "Excellent choice! I can provide recommendations for accommodations, activities, and local experiences. What's most important to you for this trip?"
  ]

  /** The request `sendMessageToN8N(message)` posts at time `now`: none at all
      when the webhook is not configured. */
  function RequestFor(url: Option<string>, message: string, now: nat): (r: Option<Request>)
    ensures r.Some? <==> Configured(url)
    ensures r.Some? ==> r.value == PostFor(url.value, message, now)
  {
    if Configured(url) then Some(PostFor(url.value, message, now)) else None
  }

  /** A pool entry chosen by one `Math.random()` reading. */
  function Fallback(random: real): (reply: string)
    requires 0.0 <= random < 1.0
    ensures reply in FallbackResponses && reply != ""
  {
    FallbackResponses[RandomIndex(random, |FallbackResponses|)]
  }

  /** `sendMessageToN8N`: once the request has settled, the promise resolves,
      to a non-empty reply; it never rejects.
      Unconfigured, or when the `try` block rejects, the reply is a pool entry
      chosen by `random`; otherwise it is what the `try` block resolved to. */
  function SendMessageToN8N(url: Option<string>, outcome: FetchOutcome, random: real): (p: Settled<string>)
    requires 0.0 <= random < 1.0
    ensures p.Resolved? && p.value != ""
    ensures !Configured(url) || TryBody(outcome).Rejected? ==> p.value in FallbackResponses
    ensures Configured(url) && TryBody(outcome).Resolved? ==> p == TryBody(outcome)
  {
    if !Configured(url) then
      Resolved(Fallback(random))
    else
      match TryBody(outcome)
      case Resolved(reply) => Resolved(reply)
      case Rejected => Resolved(Fallback(random))
  }

  /** Unconfigured, no request is made and the network outcome plays no part
      in the reply. */
  lemma UnconfiguredMakesNoRequest(url: Option<string>, message: string, now: nat,
                                   o1: FetchOutcome, o2: FetchOutcome, random: real)
    requires 0.0 <= random < 1.0
    requires !Configured(url)
    ensures RequestFor(url, message, now) == None
    ensures SendMessageToN8N(url, o1, random) == SendMessageToN8N(url, o2, random)
  {
  }

  /** Configured and answered with an ok JSON body, the reply is
      `data.response || data.message || DefaultReply`. */
  lemma OkReplyCascade(url: Option<string>, status: int, response: Option<string>,
                       message: Option<string>, random: real)
    requires 0.0 <= random < 1.0
    requires Configured(url) && ResponseOk(status)
    ensures SendMessageToN8N(url, HttpResponse(status, Parsed(response, message)), random).value
            == OrElse(response, OrElse(message, DefaultReply))
  {
  }

  /** Every outcome other than an ok JSON body from a configured webhook ends
      in the pool, the same reply the unconfigured path would give for the
      same draw. */
  lemma FailuresUsePool(url: Option<string>, outcome: FetchOutcome, random: real)
    requires 0.0 <= random < 1.0
    requires outcome.NetworkError? || !ResponseOk(outcome.status) || outcome.body.Malformed?
    ensures SendMessageToN8N(url, outcome, random) == SendMessageToN8N(None, outcome, random)
    ensures SendMessageToN8N(url, outcome, random).value in FallbackResponses
  {
  }

  /** The page's placeholder host starts at no position of the widget's
      second placeholder host: at 0 the sixth characters differ (`a` against
      `n`), and from 1 to 7 the first characters do (nothing there is `y`). */
  lemma ActualLacksPlaceholderAt(i: int)
    requires 0 <= i <= |ActualPlaceholder| - |AIChatPage.Placeholder|
    ensures !OccursAt(ActualPlaceholder, AIChatPage.Placeholder, i)
  {
    var s, p := ActualPlaceholder, AIChatPage.Placeholder;
    var head := s[..8];
    assert head == ['y', 'o', 'u', 'r', '-', 'a', 'c', 't'];
    if i == 0 {
      assert s[i..i + |p|][5] == head[5] != p[5];
    } else {
      assert s[i..i + |p|][0] == head[i] != p[0];
    }
  }

  /** The widget's second placeholder host contains itself but not the page's
      placeholder host. */
  lemma ActualPlaceholderWitness()
    ensures Contains(ActualPlaceholder, ActualPlaceholder)
    ensures !Contains(ActualPlaceholder, AIChatPage.Placeholder)
  {
    var s, p := ActualPlaceholder, AIChatPage.Placeholder;
    assert StartsWith(s, s);
    ContainsIffOccurs(s, p);
    forall i | OccursAt(s, p, i) ensures false {
      ActualLacksPlaceholderAt(i);
    }
  }

  /** The widget's configuration check is stricter than the page's: whatever
      the widget posts to, the page posts to as well; and the second
      placeholder host is a URL the page posts to and the widget does not. */
  lemma ConfiguredStricterThanPage(url: Option<string>)
    ensures Configured(url) ==> AIChatPage.Configured(url)
    ensures var u := Some(ActualPlaceholder); AIChatPage.Configured(u) && !Configured(u)
  {
    ActualPlaceholderWitness();
  }

  datatype Sender = User | Bot

  /** One chat message; `id` is a millisecond clock reading in decimal. */
  datatype Message = Message(id: string, text: string, sender: Sender, timestamp: nat)

  const Greeting: string := "Hi! I'm your AI travel assistant. I can help you plan your perfect journey, find destinations, create itineraries, and answer any travel questions you have.\n\nHere are some things you can ask me:\n\U{2022} \"Plan a 7-day trip to Japan\"\n\U{2022} \"What's the best time to visit Bali?\"\n\U{2022} \"Create a budget itinerary for Europe\"\n\U{2022} \"Suggest romantic destinations for couples\"\n\U{2022} \"Help me pack for a winter trip to Iceland\"\n\nHow can I help you today?"

  /** The greeting the widget opens with, stamped with the time of mounting. */
  function InitialMessage(now: nat): (m: Message)
    ensures m.id == "1" && m.sender == Bot && m.text == Greeting
  {
    Message("1", Greeting, Bot, now)
  }

  /** The user message of a turn: id `Date.now().toString()`. */
  function UserMessage(now: nat, text: string): (m: Message)
    ensures m.sender == User && m.text == text && m.id == NatToString(now)
  {
    Message(NatToString(now), text, User, now)
  }

  /** The bot message of a turn: id `(Date.now() + 1).toString()`. */
  function BotMessage(now: nat, text: string): (m: Message)
    ensures m.sender == Bot && m.text == text && m.id == NatToString(now + 1)
  {
    Message(NatToString(now + 1), text, Bot, now)
  }

  const ConnectionErrorText: string := "I'm sorry, I'm having trouble connecting right now. Please try again in a moment!"

  /** Senders alternate from the opening bot message on: odd positions hold
      the user's messages, even positions the bot's. */
  predicate Alternates(ms: seq<Message>) {
    forall i :: 0 <= i < |ms| ==> ms[i].sender == if i % 2 == 1 then User else Bot
  }

  /** Appending a message from the sender whose turn it is keeps the
      alternation. */
  lemma AlternatesAppend(ms: seq<Message>, m: Message)
    requires Alternates(ms)
    requires m.sender == if |ms| % 2 == 1 then User else Bot
    ensures Alternates(ms + [m])
    ensures |ms| >= 1 ==> (ms + [m])[0] == ms[0]
    ensures |ms + [m]| % 2 == 0 <==> |ms| % 2 == 1
  {
    forall i | 0 <= i < |ms| ensures (ms + [m])[i] == ms[i] {}
  }

  /** The state of the widget: the conversation, the input box and the busy
      flag. */
  class Component {
    var messages: seq<Message>
    var inputText: string
    var isLoading: bool
    /** The message shown at mount, which stays first. */
    ghost const opening: Message

    /** The conversation starts with the greeting and then alternates user and
        bot messages; the busy flag is set exactly when the last user message
        still awaits its reply. */
    ghost predicate Valid()
      reads this
    {
      && |messages| >= 1 && messages[0] == opening
      && Alternates(messages)
      && (isLoading <==> |messages| % 2 == 0)
    }

    /** The send button is enabled (line 247), which is also the guard
        `handleSendMessage` checks first. */
    predicate CanSend()
      reads this
    {
      Trim(inputText) != "" && !isLoading
    }

    /** Mounting the widget at time `now`. */
    constructor (now: nat)
      ensures Valid() && opening == InitialMessage(now)
      ensures messages == [InitialMessage(now)]
      ensures inputText == "" && !isLoading
    {
      opening := InitialMessage(now);
      messages := [InitialMessage(now)];
      inputText := "";
      isLoading := false;
    }

    /** The input box's `onChange`. */
    method SetInputText(value: string)
      requires Valid()
      modifies this
      ensures Valid()
      ensures inputText == value
      ensures messages == old(messages) && isLoading == old(isLoading)
    {
      inputText := value;
    }

    /** `handleSendMessage` up to its `await`. With blank input or a reply
        pending it does nothing and returns `None`. Otherwise it appends one
        user message with the trimmed text, empties the input, sets the busy
        flag and returns the text handed to `sendMessageToN8N`. */
    method BeginSend(now: nat) returns (sent: Option<string>)
      requires Valid()
      modifies this
      ensures Valid()
      ensures sent.Some? <==> old(CanSend())
      ensures sent.None? ==>
        messages == old(messages) && inputText == old(inputText) && isLoading == old(isLoading)
      ensures sent.Some? ==>
        && sent.value == Trim(old(inputText)) && sent.value != ""
        && messages == old(messages) + [UserMessage(now, sent.value)]
        && inputText == "" && isLoading
    {
      var text := Trim(inputText);
      if text == "" || isLoading {
        return None;
      }
      AlternatesAppend(messages, UserMessage(now, text));
      messages := messages + [UserMessage(now, text)];
      inputText := "";
      isLoading := true;
      sent := Some(text);
    }

    /** `handleSendMessage` after its `await`, given how the awaited promise
        settled. It runs only after an accepted `BeginSend`, and nothing else
        clears the busy flag meanwhile. Exactly one bot message is
        appended, the reply or, had the promise rejected, the connection-error
        text; the busy flag ends false either way (`finally`). */
    method CompleteSend(reply: Settled<string>, now: nat)
      requires Valid() && isLoading
      modifies this
      ensures Valid()
      ensures reply.Resolved? ==> messages == old(messages) + [BotMessage(now, reply.value)]
      ensures reply.Rejected? ==> messages == old(messages) + [BotMessage(now, ConnectionErrorText)]
      ensures !isLoading
      ensures inputText == old(inputText)
    {
      match reply {
        case Resolved(text) =>
          AlternatesAppend(messages, BotMessage(now, text));
          messages := messages + [BotMessage(now, text)];
        case Rejected =>
          AlternatesAppend(messages, BotMessage(now, ConnectionErrorText));
          messages := messages + [BotMessage(now, ConnectionErrorText)];
      }
      isLoading := false;
    }
  }

  /** One whole turn from an enabled send button: the user's trimmed text and
      then the reply `sendMessageToN8N` resolved to are appended, and once
      the request has settled the widget is idle again. */
  method SendTurn(widget: Component, url: Option<string>, outcome: FetchOutcome, random: real,
                  sentAt: nat, repliedAt: nat)
    returns (request: Option<Request>)
    requires widget.Valid() && widget.CanSend()
    requires 0.0 <= random < 1.0
    modifies widget
    ensures widget.Valid()
    ensures request == RequestFor(url, Trim(old(widget.inputText)), sentAt)
    ensures widget.messages == old(widget.messages) + [
      UserMessage(sentAt, Trim(old(widget.inputText))),
      BotMessage(repliedAt, SendMessageToN8N(url, outcome, random).value)]
    ensures widget.inputText == "" && !widget.isLoading
  {
    var sent := widget.BeginSend(sentAt);
    request := RequestFor(url, sent.value, sentAt);
    var reply := SendMessageToN8N(url, outcome, random);
    widget.CompleteSend(reply, repliedAt);
  }
}
