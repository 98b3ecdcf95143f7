/** The full-page chat assistant (src/components/AIChatPage.tsx): its reply
    selector `sendMessageToN8N` as a function of the configured URL, the
    network outcome and the random draw, and its turn controller as a class
    over the component's state. */
module AIChatPage {
  import opened Js
  import opened Effects
  import opened Webhook

  /** The placeholder host that marks the webhook URL as not configured. */
  const Placeholder: string := "your-n8n-instance.com"

  /** The guard of `sendMessageToN8N`: the environment variable is set, not
      empty, and does not contain the placeholder host. */
  predicate Configured(url: Option<string>) {
    url.Some? && url.value != "" && !Contains(url.value, Placeholder)
  }

  /** The replies drawn from at random when the webhook is not configured. */
  const FallbackResponses: seq<string> := [
    "Based on your query, I can provide detailed travel insights. The best time to visit most tropical destinations is during the shoulder seasons when you'll find ideal weather conditions with fewer crowds and better prices.",
    "Great question! I can help you plan the perfect timing for your trip. Weather patterns, local events, and tourist seasons all play important roles in determining the ideal travel dates."
  ]

  /** The single reply of the `catch` block. */
  const CatchReply: string := "I can help you with that! Let me provide some travel insights based on your query."

  /** The request `sendMessageToN8N(message)` posts at time `now`: none at all
      when the webhook is not configured. */
  function RequestFor(url: Option<string>, message: string, now: nat): (r: Option<Request>)
    ensures r.Some? <==> Configured(url)
    ensures r.Some? ==> r.value == PostFor(url.value, message, now)
  {
    if Configured(url) then Some(PostFor(url.value, message, now)) else None
  }

  /** `sendMessageToN8N`: once the request has settled, the promise resolves,
      to a non-empty reply; it never rejects.
      Unconfigured, the reply is a pool entry chosen by `random`; configured,
      it is what the `try` block resolved to, or `CatchReply` when it
      rejected. */
  function SendMessageToN8N(url: Option<string>, outcome: FetchOutcome, random: real): (p: Settled<string>)
    requires 0.0 <= random < 1.0
    ensures p.Resolved? && p.value != ""
    ensures !Configured(url) ==> p.value in FallbackResponses
    ensures Configured(url) && TryBody(outcome).Resolved? ==> p == TryBody(outcome)
    ensures Configured(url) && TryBody(outcome).Rejected? ==> p.value == CatchReply
  {
    if !Configured(url) then
      Resolved(FallbackResponses[RandomIndex(random, |FallbackResponses|)])
    else
      match TryBody(outcome)
      case Resolved(reply) => Resolved(reply)
      case Rejected => Resolved(CatchReply)
  }

  /** Unconfigured, no request is made and the network outcome plays no part
      in the reply. */
  lemma UnconfiguredMakesNoRequest(url: Option<string>, message: string, now: nat,
                                   o1: FetchOutcome, o2: FetchOutcome, random: real)
    requires 0.0 <= random < 1.0
    requires !Configured(url)
    ensures RequestFor(url, message, now) == None
    ensures SendMessageToN8N(url, o1, random) == SendMessageToN8N(url, o2, random)
  {
  }

  /** Configured and answered with an ok JSON body, the reply is
      `data.response || data.message || DefaultReply`. */
  lemma OkReplyCascade(url: Option<string>, status: int, response: Option<string>,
                       message: Option<string>, random: real)
    requires 0.0 <= random < 1.0
    requires Configured(url) && ResponseOk(status)
    ensures SendMessageToN8N(url, HttpResponse(status, Parsed(response, message)), random).value
            == OrElse(response, OrElse(message, DefaultReply))
  {
  }

  /** Configured, a network failure, a status that is not ok and a body that is
      not JSON all end in the one fixed catch reply, which is not in the pool. */
  lemma FailureRepliesFixed(url: Option<string>, outcome: FetchOutcome, random: real)
    requires 0.0 <= random < 1.0
    requires Configured(url)
    requires outcome.NetworkError? || !ResponseOk(outcome.status) || outcome.body.Malformed?
    ensures SendMessageToN8N(url, outcome, random).value == CatchReply
    ensures CatchReply !in FallbackResponses
  {
  }

  datatype Sender = User | Bot

  /** One chat message. `id` is a millisecond clock reading rendered in
      decimal; the three rendering hints are undefined on user messages. */
  datatype Message = Message(id: string, text: string, sender: Sender, timestamp: nat,
                             hasMap: Option<bool>, hasImages: Option<bool>,
                             relatedQuestions: Option<seq<string>>)

  const InitialQuestions: seq<string> := [
    "What are the average temperatures in Bali during the low tourist season?",
    "Which months have the lowest rainfall and pleasant humidity in Bali?",
    "How does crowd density vary between the dry and wet seasons in Bali?",
    "What are the best months for family-friendly activities with fewer tourists in Bali?"
  ]

  /** The bot message the page opens with, stamped with the time of mounting. */
  function InitialMessage(now: nat): (m: Message)
    ensures m.id == "1" && m.sender == Bot
    ensures m.relatedQuestions == Some(InitialQuestions) && |InitialQuestions| == 4
  {
    Message("1", "Best Time to Visit Bali for Ideal Weather and Fewer Crowds", Bot, now,
            Some(true), Some(true), Some(InitialQuestions))
  }

  /** The user message of a turn: id `Date.now().toString()`, no hints. */
  function UserMessage(now: nat, text: string): (m: Message)
    ensures m.sender == User && m.text == text && m.id == NatToString(now)
    ensures m.hasMap.None? && m.hasImages.None? && m.relatedQuestions.None?
  {
    Message(NatToString(now), text, User, now, None, None, None)
  }

  const FollowUpQuestions: seq<string> := [
    "What's the weather like during peak season?",
    "Are there any local festivals to consider?",
    "What are the accommodation prices like?",
    "How crowded are the main attractions?"
  ]

  /** The bot message of a turn: id `(Date.now() + 1).toString()`, and hints
      drawn from three `Math.random()` readings (`> 0.5`, `> 0.3`, `> 0.5`). */
  function BotMessage(now: nat, text: string, mapDraw: real, imagesDraw: real, questionsDraw: real): (m: Message)
    ensures m.sender == Bot && m.text == text && m.id == NatToString(now + 1)
    ensures m.hasMap == Some(mapDraw > 0.5) && m.hasImages == Some(imagesDraw > 0.3)
    ensures m.relatedQuestions == if questionsDraw > 0.5 then Some(FollowUpQuestions) else None
  {
    Message(NatToString(now + 1), text, Bot, now, Some(mapDraw > 0.5), Some(imagesDraw > 0.3),
            if questionsDraw > 0.5 then Some(FollowUpQuestions) else None)
  }

  const ConnectionErrorText: string := "I'm sorry, I'm having trouble connecting right now. Please try again in a moment!"

  /** The message of the controller's own `catch` block. */
  function ErrorMessage(now: nat): (m: Message)
    ensures m.sender == Bot && m.text == ConnectionErrorText && m.id == NatToString(now + 1)
    ensures m.hasMap.None? && m.hasImages.None? && m.relatedQuestions.None?
  {
    Message(NatToString(now + 1), ConnectionErrorText, Bot, now, None, None, None)
  }

  /** Message ids are clock readings, so they need not be distinct: a bot reply
      completed at `t` and a user message sent at `t + 1` share an id. */
  lemma IdsMayCollide(t: nat, reply: string, text: string, d1: real, d2: real, d3: real)
    ensures BotMessage(t, reply, d1, d2, d3).id == UserMessage(t + 1, text).id
    ensures BotMessage(t, reply, d1, d2, d3) != UserMessage(t + 1, text)
  {
  }

  /** Senders alternate from the opening bot message on: odd positions hold
      the user's messages, even positions the bot's. */
  predicate Alternates(ms: seq<Message>) {
    forall i :: 0 <= i < |ms| ==> ms[i].sender == if i % 2 == 1 then User else Bot
  }

  /** Appending a message from the sender whose turn it is keeps the
      alternation. */
  lemma AlternatesAppend(ms: seq<Message>, m: Message)
    requires Alternates(ms)
    requires m.sender == if |ms| % 2 == 1 then User else Bot
    ensures Alternates(ms + [m])
    ensures |ms| >= 1 ==> (ms + [m])[0] == ms[0]
    ensures |ms + [m]| % 2 == 0 <==> |ms| % 2 == 1
  {
    forall i | 0 <= i < |ms| ensures (ms + [m])[i] == ms[i] {}
  }

  /** The state of the page: the conversation, the input box, the busy flag
      and the microphone toggle. */
  class Component {
    var messages: seq<Message>
    var inputText: string
    var isLoading: bool
    var isListening: bool
    /** The message shown at mount, which stays first. */
    ghost const opening: Message

    /** The conversation starts with the initial message and then alternates user and
        bot messages; the busy flag is set exactly when the last user message
        still awaits its reply. */
    ghost predicate Valid()
      reads this
    {
      && |messages| >= 1 && messages[0] == opening
      && Alternates(messages)
      && (isLoading <==> |messages| % 2 == 0)
    }

    /** The send button is enabled (line 368), which is also the guard
        `handleSendMessage` checks first. */
    predicate CanSend()
      reads this
    {
      Trim(inputText) != "" && !isLoading
    }

    /** Mounting the page at time `now`. */
    constructor (now: nat)
      ensures Valid() && opening == InitialMessage(now)
      ensures messages == [InitialMessage(now)]
      ensures inputText == "" && !isLoading && !isListening
    {
      opening := InitialMessage(now);
      messages := [InitialMessage(now)];
      inputText := "";
      isLoading := false;
      isListening := false;
    }

    /** The input box's `onChange`. */
    method SetInputText(value: string)
      requires Valid()
      modifies this
      ensures Valid()
      ensures inputText == value
      ensures messages == old(messages) && isLoading == old(isLoading) && isListening == old(isListening)
    {
      inputText := value;
    }

    /** `handleRelatedQuestion`: only fills the input box; nothing is appended
        and nothing is sent. */
    method HandleRelatedQuestion(question: string)
      requires Valid()
      modifies this
      ensures Valid()
      ensures inputText == question
      ensures messages == old(messages) && isLoading == old(isLoading) && isListening == old(isListening)
    {
      SetInputText(question);
    }

    /** `toggleListening`: flips the microphone flag and nothing else. */
    method ToggleListening()
      requires Valid()
      modifies this
      ensures Valid()
      ensures isListening == !old(isListening)
      ensures messages == old(messages) && inputText == old(inputText) && isLoading == old(isLoading)
    {
      isListening := !isListening;
    }

    /** `handleSendMessage` up to its `await`. With blank input or a reply
        pending it does nothing and returns `None`. Otherwise it appends one
        user message with the trimmed text, empties the input, sets the busy
        flag and returns the text handed to `sendMessageToN8N`. */
    method BeginSend(now: nat) returns (sent: Option<string>)
      requires Valid()
      modifies this
      ensures Valid()
      ensures sent.Some? <==> old(CanSend())
      ensures sent.None? ==>
        messages == old(messages) && inputText == old(inputText) && isLoading == old(isLoading)
      ensures sent.Some? ==>
        && sent.value == Trim(old(inputText)) && sent.value != ""
        && messages == old(messages) + [UserMessage(now, sent.value)]
        && inputText == "" && isLoading
      ensures isListening == old(isListening)
    {
      var text := Trim(inputText);
      if text == "" || isLoading {
        return None;
      }
      AlternatesAppend(messages, UserMessage(now, text));
      messages := messages + [UserMessage(now, text)];
      inputText := "";
      isLoading := true;
      sent := Some(text);
    }

    /** `handleSendMessage` after its `await`, given how the awaited promise
        settled. It runs only after an accepted `BeginSend`, and nothing else
        clears the busy flag meanwhile. Exactly one bot message is
        appended, the reply or, had the promise rejected, the connection-error
        message; the busy flag ends false either way (`finally`). */
    method CompleteSend(reply: Settled<string>, now: nat, mapDraw: real, imagesDraw: real, questionsDraw: real)
      requires Valid() && isLoading
      modifies this
      ensures Valid()
      ensures reply.Resolved? ==>
        messages == old(messages) + [BotMessage(now, reply.value, mapDraw, imagesDraw, questionsDraw)]
      ensures reply.Rejected? ==> messages == old(messages) + [ErrorMessage(now)]
      ensures !isLoading
      ensures inputText == old(inputText) && isListening == old(isListening)
    {
      match reply {
        case Resolved(text) =>
          AlternatesAppend(messages, BotMessage(now, text, mapDraw, imagesDraw, questionsDraw));
          messages := messages + [BotMessage(now, text, mapDraw, imagesDraw, questionsDraw)];
        case Rejected =>
          AlternatesAppend(messages, ErrorMessage(now));
          messages := messages + [ErrorMessage(now)];
      }
      isLoading := false;
    }
  }

  /** One whole turn from an enabled send button: the user's trimmed text and
      then the reply `sendMessageToN8N` resolved to are appended, the error
      message never is, and once the request has settled the page is idle
      again. */
  method SendTurn(page: Component, url: Option<string>, outcome: FetchOutcome, random: real,
                  sentAt: nat, repliedAt: nat, mapDraw: real, imagesDraw: real, questionsDraw: real)
    returns (request: Option<Request>)
    requires page.Valid() && page.CanSend()
    requires 0.0 <= random < 1.0
    modifies page
    ensures page.Valid()
    ensures request == RequestFor(url, Trim(old(page.inputText)), sentAt)
    ensures page.messages == old(page.messages) + [
      UserMessage(sentAt, Trim(old(page.inputText))),
      BotMessage(repliedAt, SendMessageToN8N(url, outcome, random).value, mapDraw, imagesDraw, questionsDraw)]
    ensures page.inputText == "" && !page.isLoading
    ensures page.isListening == old(page.isListening)
  {
    var sent := page.BeginSend(sentAt);
    request := RequestFor(url, sent.value, sentAt);
    var reply := SendMessageToN8N(url, outcome, random);
    page.CompleteSend(reply, repliedAt, mapDraw, imagesDraw, questionsDraw);
  }
}
