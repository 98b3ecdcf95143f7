/** The part of `sendMessageToN8N` that both chat components share word for
    word: the request they post to the n8n webhook and the `try` block that
    turns the response into a reply. */
module Webhook {
  import opened Js
  import opened Effects

  /** The JSON value `response.json()` produced, reduced to the two fields the
      components read: `Malformed` when the body is not JSON or is the JSON
      value `null` (parsing rejects in the first case, reading `data.response`
      throws in the second, and either way the `try` block rejects), otherwise
      the string fields `response` and `message`, each possibly undefined. */
  datatype Body = Malformed | Parsed(response: Option<string>, message: Option<string>)

  /** What `fetch` did with the POST: rejected (DNS, refused connection, ...)
      or produced a response with an HTTP status and a body. */
  datatype FetchOutcome = NetworkError | HttpResponse(status: int, body: Body)

  /** `response.ok`: a status in the range 200-299. */
  predicate ResponseOk(status: int) {
    200 <= status <= 299
  }

  /** The reply used when an ok body has neither a truthy `response` nor a
      truthy `message`. */
  const DefaultReply: string := "I'm here to help with your travel planning!"

  /** The JSON body of the POST: the user's text, the time of the call
      (`new Date().toISOString()`, kept as the clock reading) and the session
      id. */
  datatype Payload = Payload(message: string, timestamp: nat, sessionId: string)

  datatype Request = Request(url: string, payload: Payload)

  /** `session_${Date.now()}`: computed afresh on every call. */
  function SessionId(now: nat): (id: string)
    ensures |id| > 8 && id[..8] == "session_"
    ensures id[8..] == NatToString(now)
  {
    "session_" + NatToString(now)
  }

  /** Two calls made at different clock readings carry different session ids:
      the id does not correlate the turns of one conversation. */
  lemma SessionIdPerCall(now1: nat, now2: nat)
    requires now1 != now2
    ensures SessionId(now1) != SessionId(now2)
  {
    if SessionId(now1) == SessionId(now2) {
      NatToStringInjective(now1, now2);
    }
  }

  /** The request a configured component posts for `message` at time `now`. */
  function PostFor(url: string, message: string, now: nat): (r: Request)
    ensures r.url == url && r.payload.message == message
    ensures r.payload.timestamp == now && r.payload.sessionId == SessionId(now)
  {
    Request(url, Payload(message, now, SessionId(now)))
  }

  /** The `try` block of `sendMessageToN8N`: a network failure, a status that
      is not ok (the code throws `HTTP error!`) and a body that is not JSON all
      reject; an ok JSON body resolves to `data.response || data.message ||
      DefaultReply`. */
  function TryBody(outcome: FetchOutcome): (p: Settled<string>)
    ensures p.Resolved? <==> outcome.HttpResponse? && ResponseOk(outcome.status) && outcome.body.Parsed?
    ensures p.Resolved? ==> p.value != ""
    ensures p.Resolved? ==> var data := outcome.body;
      && (Truthy(data.response) ==> p.value == data.response.value)
      && (!Truthy(data.response) && Truthy(data.message) ==> p.value == data.message.value)
      && (!Truthy(data.response) && !Truthy(data.message) ==> p.value == DefaultReply)
  {
    match outcome
    case NetworkError => Rejected
    case HttpResponse(status, body) =>
      if !ResponseOk(status) then Rejected
      else match body
        case Malformed => Rejected
        case Parsed(response, message) => Resolved(OrElse(response, OrElse(message, DefaultReply)))
  }

  /** A status that is not ok rejects whatever the body: the body is never
      read. */
  lemma NotOkIgnoresBody(status: int, b1: Body, b2: Body)
    requires !ResponseOk(status)
    ensures TryBody(HttpResponse(status, b1)) == TryBody(HttpResponse(status, b2)) == Rejected
  {
  }
}
